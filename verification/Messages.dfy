// The server's messages: a type byte, a length that counts itself, a body
// (section 53.7 of the PostgreSQL 14 manual).
module Messages {
  import opened Prelude
  import opened Bytes

  datatype Field = Field(code: byte, text: seq<byte>)
  datatype Column = Column(name: seq<byte>, oid: nat, width: nat)
  type Value = Option<seq<byte>>

  datatype Message =
    | Authentication
    | ParameterStatus(key: seq<byte>, value: seq<byte>)
    | ReadyForQuery
    | ErrorResponse(fields: seq<Field>)
    | RowDescription(columns: seq<Column>)
    | DataRow(values: seq<Value>)
    | CommandComplete(text: seq<byte>)

  function Tag(m: Message): byte {
    match m
    case Authentication => 82 // 'R'
    case ParameterStatus(_, _) => 83 // 'S'
    case ReadyForQuery => 90 // 'Z'
    case ErrorResponse(_) => 69 // 'E'
    case RowDescription(_) => 84 // 'T'
    case DataRow(_) => 68 // 'D'
    case CommandComplete(_) => 67 // 'C'
  }

  const IDLE: byte := 73 // 'I'

  // ---------------------------------------------------------------- encoding

  function Terminated(s: seq<byte>): seq<byte> {
    s + [0]
  }

  function OneField(f: Field): seq<byte> {
    [f.code] + Terminated(f.text)
  }

  // No table, no attribute, the type and its width, no modifier, text format.
  function Numbers(c: Column): (bs: seq<byte>)
    ensures |bs| == 18
  {
    Put32(0) + Put16(0) + Put32(c.oid) + Put16(c.width) + Put32(U32_LIMIT - 1) + Put16(0)
  }

  function OneColumn(c: Column): seq<byte> {
    Terminated(c.name) + Numbers(c)
  }

  function OneValue(v: Value): seq<byte> {
    match v
    case None => Put32(U32_LIMIT - 1)
    case Some(s) => Put32(|s|) + s
  }

  // A row holds as many values as its 16-bit count says.
  function Counted(vs: seq<Value>): seq<Value> {
    vs[..|vs| % U16_LIMIT]
  }

  function Body(m: Message): seq<byte> {
    match m
    case Authentication => Put32(0)
    case ParameterStatus(key, value) => Terminated(key) + Terminated(value)
    case ReadyForQuery => [IDLE]
    case ErrorResponse(fs) => JoinEach(OneField, fs) + [0]
    case RowDescription(cs) => Put16(|cs|) + JoinEach(OneColumn, cs)
    case DataRow(vs) => Put16(|vs|) + JoinEach(OneValue, Counted(vs))
    case CommandComplete(text) => Terminated(text)
  }

  // Length sums as the server computes them before it sends the parts.
  function TextSum(fs: seq<Field>): nat {
    if fs == [] then 0 else TextSum(fs[..|fs| - 1]) + |fs[|fs| - 1].text| + 2
  }

  function NameSum(cs: seq<Column>): nat {
    if cs == [] then 0 else NameSum(cs[..|cs| - 1]) + |cs[|cs| - 1].name|
  }

  function ValueLength(v: Value): nat {
    if v.Some? then |v.value| else 0
  }

  function ValueSum(vs: seq<Value>): nat {
    if vs == [] then 0 else ValueSum(vs[..|vs| - 1]) + ValueLength(vs[|vs| - 1])
  }

  function LengthField(m: Message): nat {
    match m
    case Authentication => 4 + 4
    case ParameterStatus(key, value) => 4 + |key| + |value| + 2
    case ReadyForQuery => 4 + 1
    case ErrorResponse(fs) => TextSum(fs) + 4 + 1
    case RowDescription(cs) => 4 + 2 + |cs| * (1 + 3 * 4 + 3 * 2) + NameSum(cs)
    case DataRow(vs) => 4 + 2 + |vs| * 4 + ValueSum(vs)
    case CommandComplete(text) => 4 + |text| + 1
  }

  function Encode(m: Message): seq<byte> {
    [Tag(m)] + Put32(LengthField(m)) + Body(m)
  }

  function EncodeAll(ms: seq<Message>): seq<byte> {
    JoinEach(Encode, ms)
  }

  // -------------------------------------------------------- the length fields

  lemma {:induction false} FieldsLength(fs: seq<Field>)
    ensures |JoinEach(OneField, fs)| == TextSum(fs)
  {
    if fs != [] {
      var front, f := fs[..|fs| - 1], fs[|fs| - 1];
      FieldsLength(front);
      JoinEachAppend(OneField, front, f);
      assert fs == front + [f];
    }
  }

  lemma {:induction false} ColumnsLength(cs: seq<Column>)
    ensures |JoinEach(OneColumn, cs)| == |cs| * 19 + NameSum(cs)
  {
    if cs != [] {
      var front, c := cs[..|cs| - 1], cs[|cs| - 1];
      ColumnsLength(front);
      JoinEachAppend(OneColumn, front, c);
      assert cs == front + [c];
    }
  }

  lemma {:induction false} ValuesLength(vs: seq<Value>)
    ensures |JoinEach(OneValue, vs)| == |vs| * 4 + ValueSum(vs)
  {
    if vs != [] {
      var front, v := vs[..|vs| - 1], vs[|vs| - 1];
      ValuesLength(front);
      JoinEachAppend(OneValue, front, v);
      assert vs == front + [v];
    }
  }

  predicate Fits(m: Message) {
    && LengthField(m) < U32_LIMIT
    && (m.DataRow? ==> |m.values| < U16_LIMIT)
  }

  // Every length field equals the number of bytes that follow the type byte.
  lemma LengthFieldExact(m: Message)
    requires Fits(m)
    ensures LengthField(m) == 4 + |Body(m)|
  {
    match m
    case ErrorResponse(fs) => FieldsLength(fs);
    case RowDescription(cs) => ColumnsLength(cs);
    case DataRow(vs) =>
      assert Counted(vs) == vs;
      ValuesLength(vs);
    case _ =>
  }
}
