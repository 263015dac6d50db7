// What a client makes of the bytes: frames first, then bodies.
module MessageDecoder {
  import opened Prelude
  import opened Bytes
  import opened Messages

  datatype Packet = Packet(tag: byte, body: seq<byte>)

  // The client reads numbers byte by byte, the highest first.
  function Number(bs: seq<byte>): nat {
    if bs == [] then 0 else Number(bs[..|bs| - 1]) * 256 + bs[|bs| - 1]
  }

  lemma NumberOfTwo(bs: seq<byte>)
    requires |bs| == 2
    ensures Number(bs) == (bs[0] as int) * 256 + bs[1]
  {
    var one := bs[..1];
    assert one[..0] == [] && Number(one) == bs[0];
  }

  lemma NumberOfFour(bs: seq<byte>)
    requires |bs| == 4
    ensures Number(bs) == (((bs[0] as int) * 256 + bs[1]) * 256 + bs[2]) * 256 + bs[3]
  {
    var two := bs[..3][..2];
    NumberOfTwo(two);
    assert bs[..3][2] == bs[2];
  }

  lemma ReadsBack16(v: nat)
    requires v < U16_LIMIT
    ensures Number(Put16(v)) == v
  {
    InWidth16(v);
    NumberOfTwo(Put16(v));
  }

  lemma ReadsBack32(v: nat)
    requires v < U32_LIMIT
    ensures Number(Put32(v)) == v
  {
    InWidth32(v);
    NumberOfFour(Put32(v));
  }

  // Cuts a byte stream into packets by the length fields alone.
  function Unframe(bs: seq<byte>): Option<seq<Packet>>
    decreases |bs|
  {
    if bs == [] then Some([])
    else if |bs| < 5 then None
    else
      var length := Number(bs[1..5]);
      if length < 4 || 1 + length > |bs| then None
      else
        match Unframe(bs[1 + length..])
        case None => None
        case Some(ps) => Some([Packet(bs[0], bs[5..1 + length])] + ps)
  }

  function Packets(ms: seq<Message>): (ps: seq<Packet>)
    ensures |ps| == |ms| && forall i :: 0 <= i < |ms| ==> ps[i] == Packet(Tag(ms[i]), Body(ms[i]))
  {
    seq(|ms|, i requires 0 <= i < |ms| => Packet(Tag(ms[i]), Body(ms[i])))
  }

  predicate AllFit(ms: seq<Message>) {
    forall i :: 0 <= i < |ms| ==> Fits(ms[i])
  }

  function FrameOf(p: Packet): seq<byte> {
    [p.tag] + Put32(4 + |p.body|) + p.body
  }

  lemma UnframeStep(tag: byte, length: seq<byte>, body: seq<byte>, rest: seq<byte>, ps: seq<Packet>)
    requires |length| == 4 && Number(length) == 4 + |body| && Unframe(rest) == Some(ps)
    ensures Unframe([tag] + length + body + rest) == Some([Packet(tag, body)] + ps)
  {
    var bs := [tag] + length + body + rest;
    assert bs[1..5] == length && bs[5..5 + |body|] == body && bs[5 + |body|..] == rest;
  }

  lemma UnframeFront(p: Packet, rest: seq<byte>, ps: seq<Packet>)
    requires 4 + |p.body| < U32_LIMIT && Unframe(rest) == Some(ps)
    ensures Unframe(FrameOf(p) + rest) == Some([p] + ps)
  {
    ReadsBack32(4 + |p.body|);
    UnframeStep(p.tag, Put32(4 + |p.body|), p.body, rest, ps);
  }

  lemma {:induction false} UnframePackets(ps: seq<Packet>)
    requires forall i :: 0 <= i < |ps| ==> 4 + |ps[i].body| < U32_LIMIT
    ensures Unframe(JoinEach(FrameOf, ps)) == Some(ps)
  {
    if ps != [] {
      JoinEachFirst(FrameOf, ps);
      UnframePackets(ps[1..]);
      UnframeFront(ps[0], JoinEach(FrameOf, ps[1..]), ps[1..]);
      assert ps == [ps[0]] + ps[1..];
    }
  }

  // Any sequence of messages is cut back into exactly those, in order.
  lemma UnframeEncodeAll(ms: seq<Message>)
    requires AllFit(ms)
    ensures Unframe(EncodeAll(ms)) == Some(Packets(ms))
  {
    var ps := Packets(ms);
    forall i | 0 <= i < |ms| ensures LengthField(ms[i]) == 4 + |Body(ms[i])| && Encode(ms[i]) == FrameOf(ps[i]) {
      LengthFieldExact(ms[i]);
    }
    assert Each(Encode, ms) == Each(FrameOf, ps);
    UnframePackets(ps);
  }

  // ------------------------------------------------------------------- bodies

  predicate NulFree(s: seq<byte>) {
    forall i :: 0 <= i < |s| ==> s[i] != 0
  }

  datatype Parsed<T> = Parsed(value: T, rest: seq<byte>)

  function DecodeString(bs: seq<byte>): Option<Parsed<seq<byte>>> {
    if bs == [] then None
    else if bs[0] == 0 then Some(Parsed([], bs[1..]))
    else
      match DecodeString(bs[1..])
      case None => None
      case Some(p) => Some(Parsed([bs[0]] + p.value, p.rest))
  }

  lemma {:induction false} StringBack(s: seq<byte>, rest: seq<byte>)
    requires NulFree(s)
    ensures DecodeString(Terminated(s) + rest) == Some(Parsed(s, rest))
  {
    var bs := Terminated(s) + rest;
    if s == [] {
      assert bs[1..] == rest;
    } else {
      StringBack(s[1..], rest);
      assert bs[1..] == Terminated(s[1..]) + rest;
      assert s == [s[0]] + s[1..];
    }
  }

  function DecodeFields(bs: seq<byte>): Option<seq<Field>>
    decreases |bs|
  {
    if bs == [] then None
    else if bs[0] == 0 then if |bs| == 1 then Some([]) else None
    else
      match DecodeString(bs[1..])
      case None => None
      case Some(p) =>
        if |p.rest| >= |bs| then None
        else match DecodeFields(p.rest)
          case None => None
          case Some(fs) => Some([Field(bs[0], p.value)] + fs)
  }

  predicate FieldReadable(f: Field) {
    f.code != 0 && NulFree(f.text)
  }

  lemma {:induction false} FieldsBack(fs: seq<Field>)
    requires forall i :: 0 <= i < |fs| ==> FieldReadable(fs[i])
    ensures DecodeFields(JoinEach(OneField, fs) + [0]) == Some(fs)
  {
    var bs := JoinEach(OneField, fs) + [0];
    if fs == [] {
      assert bs == [0];
    } else {
      var f, rest := fs[0], JoinEach(OneField, fs[1..]) + [0];
      JoinEachFirst(OneField, fs);
      assert bs[1..] == Terminated(f.text) + rest;
      StringBack(f.text, rest);
      FieldsBack(fs[1..]);
      assert fs == [f] + fs[1..];
    }
  }

  // No table, no attribute, no modifier, text format.
  predicate Plain(numbers: seq<byte>)
    requires |numbers| >= 18
  {
    && Number(numbers[..4]) == 0 && Number(numbers[4..6]) == 0
    && Number(numbers[12..16]) == U32_LIMIT - 1 && Number(numbers[16..18]) == 0
  }

  // The name, then 18 bytes of which the type and width are kept.
  function DecodeColumn(bs: seq<byte>): Option<Parsed<Column>> {
    match DecodeString(bs)
    case None => None
    case Some(p) =>
      if |p.rest| < 18 || !Plain(p.rest) then None
      else Some(Parsed(Column(p.value, Number(p.rest[6..10]), Number(p.rest[10..12])), p.rest[18..]))
  }

  function DecodeColumns(n: nat, bs: seq<byte>): Option<seq<Column>> {
    if n == 0 then if bs == [] then Some([]) else None
    else
      match DecodeColumn(bs)
      case None => None
      case Some(p) =>
        match DecodeColumns(n - 1, p.rest)
        case None => None
        case Some(cs) => Some([p.value] + cs)
  }

  predicate ColumnReadable(c: Column) {
    NulFree(c.name) && c.oid < U32_LIMIT && c.width < U16_LIMIT
  }

  // Four, two, four, two, four and two bytes.
  lemma SixNumbers(a: seq<byte>, b: seq<byte>, c: seq<byte>, d: seq<byte>, e: seq<byte>, f: seq<byte>)
    requires |a| == |c| == |e| == 4 && |b| == |d| == |f| == 2
    ensures var n := a + b + c + d + e + f;
            n[..4] == a && n[4..6] == b && n[6..10] == c && n[10..12] == d && n[12..16] == e && n[16..18] == f
  {
  }

  lemma NumbersBack(c: Column)
    requires c.oid < U32_LIMIT && c.width < U16_LIMIT
    ensures Plain(Numbers(c)) && Number(Numbers(c)[6..10]) == c.oid && Number(Numbers(c)[10..12]) == c.width
  {
    SixNumbers(Put32(0), Put16(0), Put32(c.oid), Put16(c.width), Put32(U32_LIMIT - 1), Put16(0));
    ReadsBack32(0);
    ReadsBack16(0);
    ReadsBack32(c.oid);
    ReadsBack16(c.width);
    ReadsBack32(U32_LIMIT - 1);
  }

  lemma ColumnFrom(name: seq<byte>, numbers: seq<byte>, rest: seq<byte>)
    requires NulFree(name) && |numbers| == 18 && Plain(numbers)
    ensures DecodeColumn(Terminated(name) + numbers + rest) ==
            Some(Parsed(Column(name, Number(numbers[6..10]), Number(numbers[10..12])), rest))
  {
    var after := numbers + rest;
    assert Terminated(name) + numbers + rest == Terminated(name) + after;
    StringBack(name, after);
    SlicesKept(numbers, rest);
  }

  lemma SlicesKept(numbers: seq<byte>, rest: seq<byte>)
    requires |numbers| == 18
    ensures var after := numbers + rest;
            && after[..4] == numbers[..4] && after[4..6] == numbers[4..6] && after[6..10] == numbers[6..10]
            && after[10..12] == numbers[10..12] && after[12..16] == numbers[12..16] && after[16..18] == numbers[16..18]
            && after[18..] == rest
  {
  }

  lemma ColumnBack(c: Column, rest: seq<byte>)
    requires ColumnReadable(c)
    ensures DecodeColumn(OneColumn(c) + rest) == Some(Parsed(c, rest))
  {
    NumbersBack(c);
    ColumnFrom(c.name, Numbers(c), rest);
  }

  lemma ColumnsStep(c: Column, cs: seq<Column>, bs: seq<byte>)
    requires ColumnReadable(c) && DecodeColumns(|cs|, bs) == Some(cs)
    ensures DecodeColumns(|cs| + 1, OneColumn(c) + bs) == Some([c] + cs)
  {
    ColumnBack(c, bs);
  }

  lemma {:induction false} ColumnsBack(cs: seq<Column>)
    requires forall i :: 0 <= i < |cs| ==> ColumnReadable(cs[i])
    ensures DecodeColumns(|cs|, JoinEach(OneColumn, cs)) == Some(cs)
  {
    if cs != [] {
      JoinEachFirst(OneColumn, cs);
      ColumnsBack(cs[1..]);
      ColumnsStep(cs[0], cs[1..], JoinEach(OneColumn, cs[1..]));
      assert cs == [cs[0]] + cs[1..];
    }
  }

  function DecodeValue(bs: seq<byte>): Option<Parsed<Value>> {
    if |bs| < 4 then None
    else
      var n, rest := Number(bs[..4]), bs[4..];
      if n == U32_LIMIT - 1 then Some(Parsed(None, rest))
      else if n > |rest| then None
      else Some(Parsed(Some(rest[..n]), rest[n..]))
  }

  function DecodeValues(n: nat, bs: seq<byte>): Option<seq<Value>> {
    if n == 0 then if bs == [] then Some([]) else None
    else
      match DecodeValue(bs)
      case None => None
      case Some(p) =>
        match DecodeValues(n - 1, p.rest)
        case None => None
        case Some(vs) => Some([p.value] + vs)
  }

  predicate ValueReadable(v: Value) {
    ValueLength(v) < U32_LIMIT - 1
  }

  lemma SomeBack(length: seq<byte>, s: seq<byte>, rest: seq<byte>)
    requires |length| == 4 && Number(length) == |s| < U32_LIMIT - 1
    ensures DecodeValue(length + s + rest) == Some(Parsed(Some(s), rest))
  {
    var bs := length + s + rest;
    assert bs[..4] == length && bs[4..] == s + rest;
  }

  lemma NoneBack(length: seq<byte>, rest: seq<byte>)
    requires |length| == 4 && Number(length) == U32_LIMIT - 1
    ensures DecodeValue(length + rest) == Some(Parsed(None, rest))
  {
    var bs := length + rest;
    assert bs[..4] == length && bs[4..] == rest;
  }

  lemma ValueBack(v: Value, rest: seq<byte>)
    requires ValueReadable(v)
    ensures DecodeValue(OneValue(v) + rest) == Some(Parsed(v, rest))
  {
    match v
    case Some(s) =>
      ReadsBack32(|s|);
      SomeBack(Put32(|s|), s, rest);
    case None =>
      ReadsBack32(U32_LIMIT - 1);
      NoneBack(Put32(U32_LIMIT - 1), rest);
  }

  lemma ValuesStep(v: Value, vs: seq<Value>, bs: seq<byte>)
    requires ValueReadable(v) && DecodeValues(|vs|, bs) == Some(vs)
    ensures DecodeValues(|vs| + 1, OneValue(v) + bs) == Some([v] + vs)
  {
    ValueBack(v, bs);
  }

  lemma {:induction false} ValuesBack(vs: seq<Value>)
    requires forall i :: 0 <= i < |vs| ==> ValueReadable(vs[i])
    ensures DecodeValues(|vs|, JoinEach(OneValue, vs)) == Some(vs)
  {
    if vs != [] {
      JoinEachFirst(OneValue, vs);
      ValuesBack(vs[1..]);
      ValuesStep(vs[0], vs[1..], JoinEach(OneValue, vs[1..]));
      assert vs == [vs[0]] + vs[1..];
    }
  }

  function DecodeBody(p: Packet): Option<Message> {
    if p.tag == 82 then if p.body == [0, 0, 0, 0] then Some(Authentication) else None
    else if p.tag == 83 then DecodeParameter(p.body)
    else if p.tag == 90 then if p.body == [73] then Some(ReadyForQuery) else None
    else if p.tag == 69 then DecodeError(p.body)
    else if p.tag == 84 then DecodeDescription(p.body)
    else if p.tag == 68 then DecodeRow(p.body)
    else if p.tag == 67 then DecodeComplete(p.body)
    else None
  }

  function DecodeError(body: seq<byte>): Option<Message> {
    match DecodeFields(body)
    case None => None
    case Some(fs) => Some(ErrorResponse(fs))
  }

  function DecodeDescription(body: seq<byte>): Option<Message> {
    if |body| < 2 then None
    else
      match DecodeColumns(Number(body[..2]), body[2..])
      case None => None
      case Some(cs) => Some(RowDescription(cs))
  }

  function DecodeRow(body: seq<byte>): Option<Message> {
    if |body| < 2 then None
    else
      match DecodeValues(Number(body[..2]), body[2..])
      case None => None
      case Some(vs) => Some(DataRow(vs))
  }

  function DecodeComplete(body: seq<byte>): Option<Message> {
    match DecodeString(body)
    case None => None
    case Some(p) => if p.rest == [] then Some(CommandComplete(p.value)) else None
  }

  function DecodeParameter(body: seq<byte>): Option<Message> {
    match DecodeString(body)
    case None => None
    case Some(p) =>
      match DecodeString(p.rest)
      case None => None
      case Some(q) => if q.rest == [] then Some(ParameterStatus(p.value, q.value)) else None
  }

  // Strings without null bytes, numbers within their widths.
  predicate Readable(m: Message) {
    match m
    case ParameterStatus(key, value) => NulFree(key) && NulFree(value)
    case ErrorResponse(fs) => forall i :: 0 <= i < |fs| ==> FieldReadable(fs[i])
    case RowDescription(cs) => |cs| < U16_LIMIT && forall i :: 0 <= i < |cs| ==> ColumnReadable(cs[i])
    case DataRow(vs) => |vs| < U16_LIMIT && forall i :: 0 <= i < |vs| ==> ValueReadable(vs[i])
    case CommandComplete(text) => NulFree(text)
    case _ => true
  }

  lemma ParameterBack(key: seq<byte>, value: seq<byte>)
    requires NulFree(key) && NulFree(value)
    ensures DecodeParameter(Terminated(key) + Terminated(value)) == Some(ParameterStatus(key, value))
  {
    StringBack(key, Terminated(value));
    StringBack(value, []);
    assert Terminated(value) + [] == Terminated(value);
  }

  lemma DescriptionFrom(count: seq<byte>, cs: seq<Column>, bs: seq<byte>)
    requires |count| == 2 && Number(count) == |cs| && DecodeColumns(|cs|, bs) == Some(cs)
    ensures DecodeDescription(count + bs) == Some(RowDescription(cs))
  {
    assert (count + bs)[..2] == count && (count + bs)[2..] == bs;
  }

  lemma DescriptionCounted(cs: seq<Column>, bs: seq<byte>)
    requires |cs| < U16_LIMIT && DecodeColumns(|cs|, bs) == Some(cs)
    ensures DecodeDescription(Put16(|cs|) + bs) == Some(RowDescription(cs))
  {
    ReadsBack16(|cs|);
    DescriptionFrom(Put16(|cs|), cs, bs);
  }

  lemma DescriptionBack(cs: seq<Column>)
    requires |cs| < U16_LIMIT && forall i :: 0 <= i < |cs| ==> ColumnReadable(cs[i])
    ensures DecodeDescription(Put16(|cs|) + JoinEach(OneColumn, cs)) == Some(RowDescription(cs))
  {
    ColumnsBack(cs);
    DescriptionCounted(cs, JoinEach(OneColumn, cs));
  }

  lemma RowFrom(count: seq<byte>, vs: seq<Value>, bs: seq<byte>)
    requires |count| == 2 && Number(count) == |vs| && DecodeValues(|vs|, bs) == Some(vs)
    ensures DecodeRow(count + bs) == Some(DataRow(vs))
  {
    assert (count + bs)[..2] == count && (count + bs)[2..] == bs;
  }

  lemma RowCounted(vs: seq<Value>, bs: seq<byte>)
    requires |vs| < U16_LIMIT && DecodeValues(|vs|, bs) == Some(vs)
    ensures DecodeRow(Put16(|vs|) + bs) == Some(DataRow(vs))
  {
    ReadsBack16(|vs|);
    RowFrom(Put16(|vs|), vs, bs);
  }

  lemma RowBack(vs: seq<Value>)
    requires |vs| < U16_LIMIT && forall i :: 0 <= i < |vs| ==> ValueReadable(vs[i])
    ensures DecodeRow(Put16(|vs|) + JoinEach(OneValue, vs)) == Some(DataRow(vs))
  {
    ValuesBack(vs);
    RowCounted(vs, JoinEach(OneValue, vs));
  }

  lemma CompleteBack(text: seq<byte>)
    requires NulFree(text)
    ensures DecodeComplete(Terminated(text)) == Some(CommandComplete(text))
  {
    StringBack(text, []);
    assert Terminated(text) + [] == Terminated(text);
  }

  lemma DataRowBack(vs: seq<Value>)
    requires Readable(DataRow(vs))
    ensures DecodeBody(Packet(68, Body(DataRow(vs)))) == Some(DataRow(vs))
  {
    assert Counted(vs) == vs;
    RowBack(vs);
  }

  lemma RowDescriptionBack(cs: seq<Column>)
    requires Readable(RowDescription(cs))
    ensures DecodeBody(Packet(84, Body(RowDescription(cs)))) == Some(RowDescription(cs))
  {
    DescriptionBack(cs);
  }

  lemma TextsBack(m: Message)
    requires Readable(m) && !m.DataRow? && !m.RowDescription?
    ensures DecodeBody(Packet(Tag(m), Body(m))) == Some(m)
  {
    match m
    case ParameterStatus(key, value) => ParameterBack(key, value);
    case ErrorResponse(fs) => FieldsBack(fs);
    case CommandComplete(text) => CompleteBack(text);
    case Authentication => Put32Is(0);
    case ReadyForQuery =>
  }

  // The client reads back every readable message.
  lemma BodyBack(m: Message)
    requires Readable(m)
    ensures DecodeBody(Packet(Tag(m), Body(m))) == Some(m)
  {
    if m.DataRow? {
      DataRowBack(m.values);
    } else if m.RowDescription? {
      RowDescriptionBack(m.columns);
    } else {
      TextsBack(m);
    }
  }

  // -------------------------------------------------------------- the stream

  function DecodeBodies(ps: seq<Packet>): Option<seq<Message>> {
    if ps == [] then Some([])
    else
      match (DecodeBody(ps[0]), DecodeBodies(ps[1..]))
      case (Some(m), Some(ms)) => Some([m] + ms)
      case _ => None
  }

  function Decode(bs: seq<byte>): Option<seq<Message>> {
    match Unframe(bs)
    case None => None
    case Some(ps) => DecodeBodies(ps)
  }

  lemma {:induction false} BodiesBack(ms: seq<Message>)
    requires forall i :: 0 <= i < |ms| ==> Readable(ms[i])
    ensures DecodeBodies(Packets(ms)) == Some(ms)
  {
    if ms != [] {
      BodyBack(ms[0]);
      BodiesBack(ms[1..]);
      assert Packets(ms)[1..] == Packets(ms[1..]);
      assert ms == [ms[0]] + ms[1..];
    }
  }

  // Decoding the concatenated encodings gives the messages back.
  lemma DecodeEncodeAll(ms: seq<Message>)
    requires AllFit(ms) && forall i :: 0 <= i < |ms| ==> Readable(ms[i])
    ensures Decode(EncodeAll(ms)) == Some(ms)
  {
    UnframeEncodeAll(ms);
    BodiesBack(ms);
  }
}
