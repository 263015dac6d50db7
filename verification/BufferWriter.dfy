// Values and strings go out through a ring buffer; the socket takes any number
// of bytes between the minimum asked for and all that is offered.
module BufferWriters {
  import opened Prelude
  import opened Bytes
  import opened Ring

  class BufferWriter {
    const data: array<byte>
    var start: Position
    var current: Position
    var socket: seq<byte>
    // everything sent so far
    ghost var stream: seq<byte>

    constructor ()
      ensures Valid() && fresh(data) && stream == [] && Size() == 0
    {
      data := new byte[SIZE](_ => 0);
      start, current, socket, stream := 0, 0, [], [];
    }

    // At every point, bytes delivered plus ring contents are all bytes sent.
    ghost predicate Valid()
      reads this, data
    {
      data.Length == SIZE && stream == socket + Contents()
    }

    function Size(): nat
      reads this
    {
      Distance(start, current)
    }

    ghost function Contents(): seq<byte>
      requires data.Length == SIZE
      reads this, data
    {
      Window(data[..], start, Size())
    }

    // Copies into the free slots from `current` on.
    method CopyN(src: seq<byte>, from: nat, len: nat)
      requires data.Length == SIZE && from + len <= |src| && Size() + len <= CAPACITY
      modifies data
      ensures Window(data[..], current, len) == src[from..from + len]
      ensures Contents() == old(Contents())
    {
      var i, at := 0, current;
      while i < len
        invariant i <= len && at == Advance(current, i)
        invariant forall k :: 0 <= k < i ==> data[Advance(current, k)] == src[from + k]
        invariant forall k :: 0 <= k < Size() ==> data[Advance(start, k)] == old(data[Advance(start, k)])
      {
        SlotsApart(i);
        data[at] := src[from + i];
        i, at := i + 1, Advance(at, 1);
      }
    }

    lemma SlotsApart(i: nat)
      requires Size() + i < CAPACITY
      ensures forall k :: 0 <= k < i ==> Advance(current, k) != Advance(current, i)
      ensures forall k :: 0 <= k < Size() ==> Advance(start, k) != Advance(current, i)
      ensures Advance(Advance(current, i), 1) == Advance(current, i + 1)
    {
    }

    // CopyN and the increment that follows it.
    method Append(src: seq<byte>, from: nat, len: nat)
      requires Valid() && from + len <= |src| && Size() + len <= CAPACITY
      modifies data, `current, `stream
      ensures Valid() && stream == old(stream) + src[from..from + len]
      ensures Size() == old(Size()) + len
    {
      ghost var contents := Contents();
      CopyN(src, from, len);
      AdvanceDistance(start, current, len);
      WindowSplit(data[..], start, Size(), len);
      current := Advance(current, len);
      Grown(socket, contents, src[from..from + len]);
      stream := stream + src[from..from + len];
    }

    static lemma Grown(sent: seq<byte>, contents: seq<byte>, more: seq<byte>)
      ensures sent + (contents + more) == sent + contents + more
    {
    }

    // The socket's side of a write.
    method Write(offered: seq<byte>, least: nat) returns (sent: nat)
      requires least <= |offered|
      modifies `socket
      ensures least <= sent <= |offered| && socket == old(socket) + offered[..sent]
    {
      sent :| least <= sent <= |offered|;
      socket := socket + offered[..sent];
    }

    static lemma StillWhole(before: seq<byte>, contents: seq<byte>, rest: seq<byte>, sent: nat)
      requires sent <= |contents| && contents == contents[..sent] + rest
      ensures before + contents[..sent] + rest == before + contents
    {
    }

    // Fails exactly when asked for more than is buffered or when nothing is;
    // otherwise any amount from the minimum to everything goes out, in order.
    method Flush(bytes: nat) returns (ok: bool)
      requires Valid()
      modifies `start, `socket
      ensures Valid() && old(socket) <= socket
      ensures ok <==> bytes <= old(Size()) && old(Size()) > 0
      ensures ok ==> Size() <= old(Size()) - if bytes > 0 then bytes else old(Size())
      ensures !ok ==> Size() == old(Size())
    {
      if bytes > Size() {
        return false;
      }
      var least := if bytes > 0 then bytes else Size();
      var offered := if current < start then data[start..] + data[..current] else data[start..current];
      WindowInPieces(data[..], start, current);
      ghost var before, contents := socket, Contents();
      var sent := Write(offered, least);
      if sent == 0 {
        return false;
      }
      WindowSplit(data[..], start, sent, Size() - sent);
      DropDistance(start, current, sent);
      assert Window(data[..], start, sent) == contents[..sent];
      start := Advance(start, sent);
      StillWhole(before, contents, Contents(), sent);
      return true;
    }

    // Makes room; never asks for more than is buffered when `bytes` is at most
    // half of the capacity or the ring is full.
    method TryFlush(bytes: nat) returns (ok: bool)
      requires Valid()
      modifies `start, `socket
      ensures Valid() && old(socket) <= socket
      ensures ok <==> bytes < CAPACITY - old(Size()) || (bytes <= old(Size()) && old(Size()) > 0)
      ensures ok ==> Size() + bytes <= CAPACITY
      ensures ok && bytes == CAPACITY ==> Size() == 0
    {
      ok := true;
      if bytes >= CAPACITY - Size() {
        ok := Flush(bytes);
      }
    }

    // A value of at most four bytes: room is made, then it is copied.
    method SendValue(bs: seq<byte>)
      requires Valid() && |bs| <= 4
      modifies this, data
      ensures Valid() && stream == old(stream) + bs && old(socket) <= socket && Size() >= |bs|
    {
      var ok := TryFlush(|bs|);
      assert ok;
      Append(bs, 0, |bs|);
      assert bs[0..0 + |bs|] == bs;
    }

    method SendU8(v: nat)
      requires Valid() && v < U8_LIMIT
      modifies this, data
      ensures Valid() && stream == old(stream) + [v as byte] && old(socket) <= socket && Size() >= 1
    {
      SendValue([v]);
    }

    // The argument is narrowed to the width of the parameter.
    method SendU16(v: nat)
      requires Valid()
      modifies this, data
      ensures Valid() && stream == old(stream) + Put16(v) && old(socket) <= socket && Size() >= 2
    {
      SendValue(Put16(v));
    }

    method SendU32(v: nat)
      requires Valid()
      modifies this, data
      ensures Valid() && stream == old(stream) + Put32(v) && old(socket) <= socket && Size() >= 4
    {
      SendValue(Put32(v));
    }

    method SendI8(v: int)
      requires Valid() && -U8_LIMIT <= 2 * v < U8_LIMIT
      modifies this, data
      ensures Valid() && stream == old(stream) + [Unsigned(v, U8_LIMIT) as byte] && old(socket) <= socket && Size() >= 1
    {
      SendValue([Unsigned(v, U8_LIMIT)]);
    }

    method SendI16(v: int)
      requires Valid() && -U16_LIMIT <= 2 * v < U16_LIMIT
      modifies this, data
      ensures Valid() && stream == old(stream) + Put16(Unsigned(v, U16_LIMIT)) && old(socket) <= socket && Size() >= 2
    {
      SendValue(Put16(Unsigned(v, U16_LIMIT)));
    }

    method SendI32(v: int)
      requires Valid() && -U32_LIMIT <= 2 * v < U32_LIMIT
      modifies this, data
      ensures Valid() && stream == old(stream) + Put32(Unsigned(v, U32_LIMIT)) && old(socket) <= socket && Size() >= 4
    {
      SendValue(Put32(Unsigned(v, U32_LIMIT)));
    }

    // A string of any length: fill the ring, then make room and refill until
    // all is in. While some of it is left the ring is full.
    method SendString(value: seq<byte>, nullTerminator: bool)
      requires Valid()
      modifies this, data
      ensures Valid() && stream == old(stream) + value + (if nullTerminator then [0] else []) && old(socket) <= socket
    {
      var position := 0;
      if Size() != CAPACITY {
        position := Min(CAPACITY - Size(), |value|);
        Append(value, 0, position);
      }
      while position < |value|
        invariant position <= |value| && old(socket) <= socket
        invariant Valid() && stream == old(stream) + value[..position]
        invariant position < |value| ==> Size() == CAPACITY
      {
        position := SendPiece(value, position);
      }
      assert value[..position] == value;
      if nullTerminator {
        SendValue([0]);
      }
    }

    method SendPiece(value: seq<byte>, position: nat) returns (next: nat)
      requires Valid() && position < |value| && Size() == CAPACITY
      modifies this, data
      ensures position < next <= |value| && old(socket) <= socket
      ensures Valid() && stream == old(stream) + value[position..next]
      ensures next < |value| ==> Size() == CAPACITY
    {
      var bytesToTransfer := Min(CAPACITY, |value| - position);
      var ok := TryFlush(bytesToTransfer);
      assert ok;
      Append(value, position, bytesToTransfer);
      next := position + bytesToTransfer;
    }
  }
}
