// Writer, socket and reader end to end.
module Transfer {
  import opened Prelude
  import opened Bytes
  import opened BufferWriters
  import opened BufferReaders
  import opened Messages
  import opened MessageDecoder
  import opened ProtocolHandler
  import opened Connections

  datatype Item =
    | U8(u: nat) | U16(u: nat) | U32(u: nat)
    | I8(i: int) | I16(i: int) | I32(i: int)
    | Text(s: seq<byte>, terminated: bool)

  // A value of its C++ type; strings may have any length.
  predicate InRange(x: Item) {
    match x
    case U8(u) => u < U8_LIMIT
    case U16(u) => u < U16_LIMIT
    case U32(u) => u < U32_LIMIT
    case I8(i) => -U8_LIMIT <= 2 * i < U8_LIMIT
    case I16(i) => -U16_LIMIT <= 2 * i < U16_LIMIT
    case I32(i) => -U32_LIMIT <= 2 * i < U32_LIMIT
    case Text(_, _) => true
  }

  function ItemBytes(x: Item): seq<byte> {
    if !InRange(x) then [] else
    match x
    case U8(u) => [u as byte]
    case U16(u) => Put16(u)
    case U32(u) => Put32(u)
    case I8(i) => [Unsigned(i, U8_LIMIT) as byte]
    case I16(i) => Put16(Unsigned(i, U16_LIMIT))
    case I32(i) => Put32(Unsigned(i, U32_LIMIT))
    case Text(s, terminated) => s + if terminated then [0] else []
  }

  method SendItem(w: BufferWriter, x: Item)
    requires w.Valid() && InRange(x)
    modifies w, w.data
    ensures w.Valid() && w.stream == old(w.stream) + ItemBytes(x)
  {
    match x {
      case U8(u) => w.SendU8(u);
      case U16(u) => w.SendU16(u);
      case U32(u) => w.SendU32(u);
      case I8(i) => w.SendI8(i);
      case I16(i) => w.SendI16(i);
      case I32(i) => w.SendI32(i);
      case Text(s, terminated) =>
        w.SendString(s, terminated);
        Two(old(w.stream), s, if terminated then [0] else []);
    }
  }

  // Reads a value of the same type, or a string of the same length.
  method ReadItem(r: BufferReader, like: Item, ghost rest: seq<byte>) returns (x: Item)
    requires r.Valid() && InRange(like) && r.pending == ItemBytes(like) + rest
    modifies r, r.data
    ensures r.Valid() && r.pending == rest && x == like
  {
    match like {
      case U8(_) =>
        var v := r.ReadU8();
        x := U8(v.value);
      case U16(_) =>
        var v := r.ReadU16();
        Number16(like.u, rest);
        x := U16(v.value);
      case U32(_) =>
        var v := r.ReadU32();
        Number32(like.u, rest);
        x := U32(v.value);
      case I8(_) =>
        var v := r.ReadI8();
        SignedRoundTrip(like.i, U8_LIMIT);
        x := I8(v.value);
      case I16(_) =>
        var v := r.ReadI16();
        Number16(Unsigned(like.i, U16_LIMIT), rest);
        SignedRoundTrip(like.i, U16_LIMIT);
        x := I16(v.value);
      case I32(_) =>
        var v := r.ReadI32();
        Number32(Unsigned(like.i, U32_LIMIT), rest);
        SignedRoundTrip(like.i, U32_LIMIT);
        x := I32(v.value);
      case Text(_, terminated) =>
        var v := r.ReadString(|like.s| + if terminated then 1 else 0, terminated);
        TextBack(like.s, terminated, rest);
        x := Text(v.value, terminated);
    }
  }

  lemma TextBack(s: seq<byte>, terminated: bool, rest: seq<byte>)
    ensures var n, bs := |s| + (if terminated then 1 else 0), s + (if terminated then [0] else []) + rest;
            bs[..|s|] == s && bs[n..] == rest && (terminated ==> bs[n - 1] == 0)
  {
  }

  lemma Number16(v: nat, rest: seq<byte>)
    requires v < U16_LIMIT
    ensures (Put16(v) + rest)[..2] == Put16(v) && (Put16(v) + rest)[2..] == rest && Get16(Put16(v)) == v
  {
    InWidth16(v);
  }

  lemma Number32(v: nat, rest: seq<byte>)
    requires v < U32_LIMIT
    ensures (Put32(v) + rest)[..4] == Put32(v) && (Put32(v) + rest)[4..] == rest && Get32(Put32(v)) == v
  {
    InWidth32(v);
  }

  method SendItems(xs: seq<Item>) returns (socket: seq<byte>)
    requires forall i :: 0 <= i < |xs| ==> InRange(xs[i])
    ensures socket == JoinEach(ItemBytes, xs)
  {
    var w := new BufferWriter();
    for i := 0 to |xs|
      invariant w.Valid() && fresh(w) && fresh(w.data) && w.stream == JoinEach(ItemBytes, xs[..i])
    {
      SendItem(w, xs[i]);
      JoinEachUpTo(ItemBytes, xs, i);
    }
    assert xs[..|xs|] == xs;
    var ok := w.Flush(0);
    assert ok || w.Size() == 0;
    assert w.socket + [] == w.socket;
    socket := w.socket;
  }

  method ReceiveItems(socket: seq<byte>, like: seq<Item>) returns (ys: seq<Item>)
    requires forall i :: 0 <= i < |like| ==> InRange(like[i])
    requires socket == JoinEach(ItemBytes, like)
    ensures ys == like
  {
    var r := new BufferReader(socket);
    ys := [];
    assert like[0..] == like;
    for i := 0 to |like|
      invariant r.Valid() && fresh(r) && fresh(r.data) && r.pending == JoinEach(ItemBytes, like[i..]) && ys == like[..i]
    {
      JoinEachFirst(ItemBytes, like[i..]);
      assert like[i..][1..] == like[i + 1..];
      var y := ReadItem(r, like[i], JoinEach(ItemBytes, like[i + 1..]));
      ys := ys + [y];
    }
  }

  // Everything sent is read back unchanged, however the socket cuts the bytes.
  method SendAndReceive(xs: seq<Item>) returns (ys: seq<Item>)
    requires forall i :: 0 <= i < |xs| ==> InRange(xs[i])
    ensures ys == xs
  {
    var socket := SendItems(xs);
    ys := ReceiveItems(socket, xs);
  }

  method SendMessage(handler: PGProtocolHandler, m: Message)
    requires handler.Valid()
    modifies handler.writer, handler.writer.data
    ensures handler.Valid() && handler.writer.stream == old(handler.writer.stream) + Encode(m)
  {
    match m {
      case Authentication => handler.SendAuthentication();
      case ParameterStatus(key, value) => handler.SendParameter(key, value);
      case ReadyForQuery => handler.SendReadyForQuery();
      case ErrorResponse(fields) => handler.SendErrorResponse(fields);
      case RowDescription(cs) =>
        var sum := NameLengths(cs);
        SendRowDescription(handler, cs, sum);
      case DataRow(values) =>
        var sum := ValueLengths(values);
        handler.SendData(values, sum);
      case CommandComplete(text) => handler.SendComplete(text);
    }
  }

  method ValueLengths(values: seq<Value>) returns (sum: nat)
    ensures sum == ValueSum(values)
  {
    sum := 0;
    for i := 0 to |values|
      invariant sum == ValueSum(values[..i])
    {
      assert values[..i + 1][..i] == values[..i];
      sum := sum + ValueLength(values[i]);
    }
    assert values[..|values|] == values;
  }

  // Messages sent one by one and flushed arrive as exactly those messages.
  method Deliver(ms: seq<Message>) returns (socket: seq<byte>)
    ensures socket == EncodeAll(ms)
    ensures AllFit(ms) ==> Unframe(socket) == Some(Packets(ms))
    ensures AllFit(ms) && (forall i :: 0 <= i < |ms| ==> Readable(ms[i])) ==> Decode(socket) == Some(ms)
  {
    var handler := new PGProtocolHandler([]);
    for i := 0 to |ms|
      invariant handler.Valid() && fresh(handler.writer) && fresh(handler.writer.data)
      invariant handler.writer.stream == EncodeAll(ms[..i])
    {
      SendMessage(handler, ms[i]);
      JoinEachUpTo(Encode, ms, i);
    }
    assert ms[..|ms|] == ms;
    var ok := handler.writer.Flush(0);
    assert ok || handler.writer.Size() == 0;
    assert handler.writer.socket + [] == handler.writer.socket;
    socket := handler.writer.socket;
    if AllFit(ms) {
      UnframeEncodeAll(ms);
      if forall i :: 0 <= i < |ms| ==> Readable(ms[i]) { DecodeEncodeAll(ms); }
    }
  }
}
