// Every message is a sequence of writer calls.
module ProtocolHandler {
  import opened Prelude
  import opened Bytes
  import opened Messages
  import opened BufferReaders
  import opened BufferWriters

  const SSL_MESSAGE_VERSION := 80877103
  const SSL_NO: byte := 78

  lemma Two(s: seq<byte>, a: seq<byte>, b: seq<byte>)
    ensures s + a + b == s + (a + b)
  {
  }

  lemma Three(s: seq<byte>, a: seq<byte>, b: seq<byte>, c: seq<byte>)
    ensures s + a + b + c == s + (a + b + c)
  {
  }

  lemma Whole(s: seq<byte>, m: Message)
    ensures s + [Tag(m)] + Put32(LengthField(m)) + Body(m) == s + Encode(m)
  {
    Three(s, [Tag(m)], Put32(LengthField(m)), Body(m));
  }

  // ------------------------------------------------------------ client bytes

  // What a startup header amounts to: how many times encryption was asked for
  // and refused, the size of the startup body and what follows the header.
  datatype Startup = Startup(refused: nat, bodySize: nat, rest: seq<byte>)

  function ParseStartup(bs: seq<byte>): Option<Startup>
    decreases |bs|
  {
    if |bs| < 8 then None
    else if Get32(bs[4..8]) == SSL_MESSAGE_VERSION then
      match ParseStartup(bs[8..])
      case None => None
      case Some(p) => Some(p.(refused := p.refused + 1))
    else Some(Startup(0, (Get32(bs[..4]) - 2 * 4) % U32_LIMIT, bs[8..]))
  }

  function Refusals(n: nat): (bs: seq<byte>)
    ensures |bs| == n
  {
    seq(n, _ => SSL_NO)
  }

  // A command body: a length that counts itself and a terminated string.
  function BodySize(bs: seq<byte>): nat
    requires |bs| >= 4
  {
    WithoutLength(Get32(bs[..4]))
  }

  function WithoutLength(length: nat): nat {
    (length - 4) % U32_LIMIT
  }

  predicate HasBody(bs: seq<byte>) {
    |bs| >= 4 && 0 < BodySize(bs) <= |bs| - 4 && bs[4 + BodySize(bs) - 1] == 0
  }

  // What is left to read once the body at the front has been read: nothing
  // when the client closed before its end, and less than a length field when
  // it closed before that.
  predicate BodyGone(bs: seq<byte>, rest: seq<byte>) {
    if |bs| < 4 then |rest| < 4 else rest == if BodySize(bs) <= |bs| - 4 then bs[4 + BodySize(bs)..] else []
  }

  // How reading a body ends: normally, in an exception, or undefined.
  predicate ReadsCommand(bs: seq<byte>, r: Read<seq<byte>>, rest: seq<byte>) {
    && (r.Ok? <==> HasBody(bs))
    && (r.Ok? ==> r.value == bs[4..4 + BodySize(bs) - 1])
    && BodyGone(bs, rest) && |rest| <= |bs|
    && (r == Err(Undefined) <==> |bs| >= 4 && BodySize(bs) == 0)
    && (r == Err(ClientClosed) ==> |bs| < 4 || BodySize(bs) > |bs| - 4)
  }

  lemma StringIsCommand(bs: seq<byte>, r: Read<seq<byte>>, rest: seq<byte>)
    requires |bs| >= 4 && ReadsString(bs[4..], BodySize(bs), true, r, rest)
    ensures ReadsCommand(bs, r, rest)
  {
    var n := BodySize(bs);
    if n <= |bs| - 4 { assert bs[4..][n..] == bs[4 + n..]; }
    if r.Ok? { assert bs[4..][..n - 1] == bs[4..4 + n - 1]; }
  }

  class PGProtocolHandler {
    const reader: BufferReader
    const writer: BufferWriter

    constructor (input: seq<byte>)
      ensures Valid() && fresh(reader) && fresh(reader.data) && fresh(writer) && fresh(writer.data)
      ensures reader.pending == input && writer.stream == [] && writer.Size() == 0
    {
      reader := new BufferReader(input);
      writer := new BufferWriter();
    }

    ghost predicate Valid()
      reads this, reader, reader.data, writer, writer.data
    {
      reader.Valid() && writer.Valid() && reader.data != writer.data
    }

    method SendHeader(tag: byte, length: nat)
      requires Valid()
      modifies writer, writer.data
      ensures Valid() && writer.stream == old(writer.stream) + [tag] + Put32(length)
    {
      writer.SendU8(tag);
      writer.SendU32(length);
    }

    method SendAuthentication()
      requires Valid()
      modifies writer, writer.data
      ensures Valid() && writer.stream == old(writer.stream) + Encode(Authentication)
    {
      SendHeader(82, 4 + 4);
      writer.SendU32(0);
      Whole(old(writer.stream), Authentication);
    }

    method SendParameter(key: seq<byte>, value: seq<byte>)
      requires Valid()
      modifies writer, writer.data
      ensures Valid() && writer.stream == old(writer.stream) + Encode(ParameterStatus(key, value))
    {
      SendHeader(83, 4 + |key| + |value| + 2);
      SendStrings(key, value);
      Whole(old(writer.stream), ParameterStatus(key, value));
    }

    method SendTerminated(s: seq<byte>)
      requires Valid()
      modifies writer, writer.data
      ensures Valid() && writer.stream == old(writer.stream) + Terminated(s)
    {
      writer.SendString(s, true);
      Two(old(writer.stream), s, [0]);
    }

    method SendStrings(key: seq<byte>, value: seq<byte>)
      requires Valid()
      modifies writer, writer.data
      ensures Valid() && writer.stream == old(writer.stream) + (Terminated(key) + Terminated(value))
    {
      SendTerminated(key);
      SendTerminated(value);
      Two(old(writer.stream), Terminated(key), Terminated(value));
    }

    method SendReadyForQuery()
      requires Valid()
      modifies writer, writer.data
      ensures Valid() && writer.stream == old(writer.stream) + Encode(ReadyForQuery) && writer.Size() == 0
    {
      SendHeader(90, 4 + 1);
      writer.SendI8(IDLE);
      Whole(old(writer.stream), ReadyForQuery);
      var ok := writer.Flush(0);
      assert ok;
    }

    method ErrorSize(fields: seq<Field>) returns (messageSize: nat)
      ensures messageSize == LengthField(ErrorResponse(fields))
    {
      messageSize := 0;
      for i := 0 to |fields|
        invariant messageSize == TextSum(fields[..i])
      {
        assert fields[..i + 1][..i] == fields[..i];
        messageSize := messageSize + |fields[i].text| + 1 + 1;
      }
      assert fields[..|fields|] == fields;
      messageSize := messageSize + 4 + 1;
    }

    method SendErrorResponse(fields: seq<Field>)
      requires Valid()
      modifies writer, writer.data
      ensures Valid() && writer.stream == old(writer.stream) + Encode(ErrorResponse(fields)) && writer.Size() == 0
    {
      var messageSize := ErrorSize(fields);
      SendHeader(69, messageSize);
      SendFields(fields);
      Whole(old(writer.stream), ErrorResponse(fields));
      var ok := writer.Flush(0);
      assert ok;
    }

    method SendFields(fields: seq<Field>)
      requires Valid()
      modifies writer, writer.data
      ensures Valid() && writer.stream == old(writer.stream) + (JoinEach(OneField, fields) + [0]) && writer.Size() > 0
    {
      for i := 0 to |fields|
        invariant Valid() && writer.stream == old(writer.stream) + JoinEach(OneField, fields[..i])
      {
        SendField(fields[i]);
        JoinEachUpTo(OneField, fields, i);
        Two(old(writer.stream), JoinEach(OneField, fields[..i]), OneField(fields[i]));
      }
      assert fields[..|fields|] == fields;
      writer.SendU8(0);
      Two(old(writer.stream), JoinEach(OneField, fields), [0]);
    }

    method SendField(f: Field)
      requires Valid()
      modifies writer, writer.data
      ensures Valid() && writer.stream == old(writer.stream) + OneField(f)
    {
      writer.SendU8(f.code);
      SendTerminated(f.text);
      Two(old(writer.stream), [f.code], Terminated(f.text));
    }

    method SendDescriptionHeader(totalColumnNameLength: nat, columnCount: nat) returns (messageSize: nat)
      requires Valid()
      modifies writer, writer.data
      ensures Valid() && messageSize == 4 + 2 + columnCount * 19 + totalColumnNameLength
      ensures writer.stream == old(writer.stream) + [84] + Put32(messageSize) + Put16(columnCount)
    {
      messageSize := 4 + 2 + columnCount * (1 + 3 * 4 + 3 * 2) + totalColumnNameLength;
      SendHeader(84, messageSize);
      writer.SendU16(columnCount);
    }

    method SendDescription(c: Column)
      requires Valid()
      modifies writer, writer.data
      ensures Valid() && writer.stream == old(writer.stream) + OneColumn(c)
    {
      SendTerminated(c.name);
      SendNumbers(c);
      Two(old(writer.stream), Terminated(c.name), Numbers(c));
    }

    method SendNumbers(c: Column)
      requires Valid()
      modifies writer, writer.data
      ensures Valid() && writer.stream == old(writer.stream) + Numbers(c)
    {
      ghost var s, none := writer.stream, Put32(U32_LIMIT - 1);
      writer.SendU32(0);
      writer.SendU16(0);
      writer.SendU32(c.oid);
      writer.SendU16(c.width);
      writer.SendI32(-1);
      writer.SendI16(0);
      Three(s, Put32(0), Put16(0), Put32(c.oid));
      ghost var front := Put32(0) + Put16(0) + Put32(c.oid);
      Three(s + front, Put16(c.width), none, Put16(0));
      Two(s, front, Put16(c.width) + none + Put16(0));
      Three(front, Put16(c.width), none, Put16(0));
    }

    // The length field trusts the sum it is given.
    method SendData(values: seq<Value>, stringLengthSum: nat)
      requires Valid()
      modifies writer, writer.data
      ensures Valid()
      ensures writer.stream ==
              old(writer.stream) + [68] + Put32(4 + 2 + |values| * 4 + stringLengthSum) + Body(DataRow(values))
      ensures stringLengthSum == ValueSum(values) ==> writer.stream == old(writer.stream) + Encode(DataRow(values))
    {
      SendHeader(68, 4 + 2 + |values| * 4 + stringLengthSum);
      SendRow(values);
      Whole(old(writer.stream), DataRow(values));
    }

    method SendRow(values: seq<Value>)
      requires Valid()
      modifies writer, writer.data
      ensures Valid() && writer.stream == old(writer.stream) + Body(DataRow(values))
    {
      writer.SendU16(|values|);
      SendValues(Counted(values));
      Two(old(writer.stream), Put16(|values|), JoinEach(OneValue, Counted(values)));
    }

    method SendValues(values: seq<Value>)
      requires Valid()
      modifies writer, writer.data
      ensures Valid() && writer.stream == old(writer.stream) + JoinEach(OneValue, values)
    {
      for i := 0 to |values|
        invariant Valid() && writer.stream == old(writer.stream) + JoinEach(OneValue, values[..i])
      {
        SendOneValue(values[i]);
        JoinEachUpTo(OneValue, values, i);
        Two(old(writer.stream), JoinEach(OneValue, values[..i]), OneValue(values[i]));
      }
      assert values[..|values|] == values;
    }

    method SendOneValue(v: Value)
      requires Valid()
      modifies writer, writer.data
      ensures Valid() && writer.stream == old(writer.stream) + OneValue(v)
    {
      if v.Some? {
        writer.SendU32(|v.value|);
        writer.SendString(v.value, false);
        Two(old(writer.stream), Put32(|v.value|), v.value);
      } else {
        writer.SendI32(-1);
      }
    }

    method SendComplete(text: seq<byte>)
      requires Valid()
      modifies writer, writer.data
      ensures Valid() && writer.stream == old(writer.stream) + Encode(CommandComplete(text))
    {
      SendHeader(67, 4 + |text| + 1);
      SendTerminated(text);
      Whole(old(writer.stream), CommandComplete(text));
    }

    method Refuse()
      requires Valid()
      modifies writer, writer.data
      ensures Valid() && writer.stream == old(writer.stream) + [SSL_NO] && writer.Size() == 0
    {
      writer.SendU8(SSL_NO);
      var ok := writer.Flush(0);
      assert ok;
    }

    method ReadStartupHeader() returns (r: Read<nat>, ghost refused: nat)
      requires Valid() && writer.Size() == 0
      modifies reader, reader.data, writer, writer.data
      ensures Valid() && writer.Size() == 0 && writer.stream == old(writer.stream) + Refusals(refused)
      ensures r.Ok? <==> ParseStartup(old(reader.pending)).Some?
      ensures r.Ok? ==> ParseStartup(old(reader.pending)).value == Startup(refused, r.value, reader.pending)
      ensures |reader.pending| <= |old(reader.pending)|
      decreases |reader.pending|
    {
      refused := 0;
      assert old(writer.stream) + Refusals(0) == old(writer.stream);
      ghost var input := reader.pending;
      var length := reader.ReadU32();
      if length.Err? { return Err(length.failure), refused; }
      var version := reader.ReadU32();
      if version.Err? { return Err(version.failure), refused; }
      assert input[4..][..4] == input[4..8] && input[4..][4..] == input[8..];
      if version.value == SSL_MESSAGE_VERSION {
        Refuse();
        r, refused := ReadStartupHeader();
        refused := refused + 1;
        assert old(writer.stream) + [SSL_NO] + Refusals(refused - 1) == old(writer.stream) + Refusals(refused);
      } else {
        r := Ok((length.value - 2 * 4) % U32_LIMIT);
      }
    }

    method ReadStartupBody(bodySize: nat) returns (r: Read<seq<byte>>)
      requires Valid()
      modifies reader, reader.data
      ensures Valid()
      ensures r.Ok? <==> |old(reader.pending)| >= bodySize
      ensures r.Ok? ==> reader.pending == old(reader.pending)[bodySize..]
      ensures |reader.pending| <= |old(reader.pending)|
    {
      r := reader.ReadString(bodySize, false);
    }

    method ReadCommandType() returns (r: Read<byte>)
      requires Valid()
      modifies reader, reader.data
      ensures Valid()
      ensures old(reader.pending) == [] ==> r == Err(ClientClosed) && reader.pending == []
      ensures old(reader.pending) != [] ==>
                r == Ok(old(reader.pending)[0]) && reader.pending == old(reader.pending)[1..]
    {
      var v := reader.ReadI8();
      match v {
        case Ok(c) => r := Ok(Unsigned(c, U8_LIMIT));
        case Err(f) => r := Err(f);
      }
    }

    method ReadCommandBody() returns (r: Read<seq<byte>>)
      requires Valid()
      modifies reader, reader.data
      ensures Valid() && ReadsCommand(old(reader.pending), r, reader.pending)
    {
      ghost var input := reader.pending;
      var length := reader.ReadU32();
      if length.Err? { return Err(length.failure); }
      r := reader.ReadString(WithoutLength(length.value), true);
      StringIsCommand(input, r, reader.pending);
    }
  }
}
