// Values and strings come in through a ring buffer; the socket hands over any
// number of bytes between the minimum asked for and the free space.
module BufferReaders {
  import opened Prelude
  import opened Bytes
  import opened Ring

  // The exceptions a read can end in; reading a terminated string of length
  // zero is undefined in the source.
  datatype Failure = ClientClosed | NetworkError | Undefined
  datatype Read<+T> = Ok(value: T) | Err(failure: Failure)

  // How reading a string of n bytes ends, and what it leaves of the stream.
  predicate ReadsString(bs: seq<byte>, n: nat, nullTerminator: bool, r: Read<seq<byte>>, rest: seq<byte>) {
    && (r.Ok? <==> |bs| >= n && (nullTerminator ==> n > 0 && bs[n - 1] == 0))
    && (r.Ok? ==> r.value == bs[..if nullTerminator then n - 1 else n])
    && rest == (if n <= |bs| then bs[n..] else [])
    && (r == Err(Undefined) <==> nullTerminator && n == 0)
    && (r == Err(ClientClosed) ==> |bs| < n)
  }

  lemma NextPiece(result: seq<byte>, pending: seq<byte>, piece: seq<byte>, rest: seq<byte>)
    requires pending == piece + rest
    ensures result + pending == result + piece + rest
  {
  }

  lemma Parted(bs: seq<byte>, a: seq<byte>, b: seq<byte>)
    requires bs == a + b
    ensures a == bs[..|a|] && b == bs[|a|..]
  {
  }

  class BufferReader {
    const data: array<byte>
    var start: Position
    var current: Position
    // what the client will still send before it closes
    var incoming: seq<byte>
    // the part of the stream not yet returned by any read
    ghost var pending: seq<byte>

    constructor (input: seq<byte>)
      ensures Valid() && fresh(data) && pending == input
    {
      data := new byte[SIZE](_ => 0);
      start, current, incoming, pending := 0, 0, input, input;
      new;
      assert Contents() == [];
    }

    // Bytes returned, ring contents and what is still to come make the stream.
    ghost predicate Valid()
      reads this, data
    {
      data.Length == SIZE && pending == Contents() + incoming
    }

    function Size(): nat
      reads this
    {
      Distance(start, current)
    }

    ghost function Contents(): seq<byte>
      requires data.Length == SIZE
      reads this, data
    {
      Window(data[..], start, Size())
    }

    // The socket's side of a read: at least `least` bytes unless the client
    // closes first, at most `room`.
    method Receive(room: nat, least: nat) returns (chunk: seq<byte>, closed: bool)
      requires least <= room
      modifies `incoming
      ensures old(incoming) == chunk + incoming && |chunk| <= room
      ensures closed <==> |old(incoming)| < least
      ensures if closed then incoming == [] else |chunk| >= least
    {
      closed := |incoming| < least;
      var got := |incoming|;
      if !closed {
        got :| least <= got && got <= room && got <= |incoming|;
      }
      chunk, incoming := incoming[..got], incoming[got..];
    }

    // The socket fills one or two pieces of free memory: `first` bytes from
    // `current` on, then `second` bytes from the beginning of the array.
    method Scatter(chunk: seq<byte>, first: nat, second: nat)
      requires data.Length == SIZE && |chunk| <= first + second && current + first <= SIZE
      requires first + second == CAPACITY - Size() && (second > 0 ==> current + first == SIZE)
      modifies data
      ensures Window(data[..], current, |chunk|) == chunk && Contents() == old(Contents())
    {
      for i := 0 to |chunk|
        invariant forall k :: 0 <= k < i ==> data[Advance(current, k)] == chunk[k]
        invariant forall k :: 0 <= k < Size() ==> data[Advance(start, k)] == old(data[Advance(start, k)])
      {
        FreeSlot(i, first);
        data[if i < first then current + i else i - first] := chunk[i];
      }
    }

    lemma FreeSlot(i: nat, first: nat)
      requires Size() + i < CAPACITY && current + first <= SIZE && (i >= first ==> current + first == SIZE)
      ensures var slot := if i < first then current + i else i - first;
              && slot == Advance(current, i)
              && (forall k :: 0 <= k < i ==> Advance(current, k) != slot)
              && (forall k :: 0 <= k < Size() ==> Advance(start, k) != slot)
    {
    }

    // The bytes received become readable.
    method Extend(chunk: seq<byte>)
      requires data.Length == SIZE && Size() + |chunk| <= CAPACITY && Window(data[..], current, |chunk|) == chunk
      modifies `current
      ensures Contents() == old(Contents()) + chunk && Size() == old(Size()) + |chunk|
    {
      AdvanceDistance(start, current, |chunk|);
      WindowSplit(data[..], start, Size(), |chunk|);
      current := Advance(current, |chunk|);
    }

    // Succeeds exactly when the stream still holds that many bytes. A client
    // that closes in the middle of a value loses what arrived of it.
    method ReceiveMore(bytes: nat) returns (failure: Option<Failure>)
      requires Valid() && bytes <= CAPACITY
      modifies data, `current, `incoming, `pending
      ensures Valid()
      ensures failure.None? <==> |old(pending)| >= bytes
      ensures failure.None? ==> pending == old(pending) && Size() >= bytes
      ensures failure.Some? ==>
                && Contents() == old(Contents()) && incoming == []
                && failure.value == if old(incoming) == [] then ClientClosed else NetworkError
    {
      if Size() >= bytes {
        return None;
      }
      var available := CAPACITY - Size();
      var chunk, closed := Receive(available, bytes - Size());
      if current < start || start == 0 {
        Scatter(chunk, available, 0);
      } else {
        Scatter(chunk, SIZE - current, start - 1);
      }
      if closed {
        pending := Contents();
      }
      if chunk == [] {
        return Some(ClientClosed);
      }
      if closed {
        return Some(NetworkError);
      }
      Extend(chunk);
      return None;
    }

    // Copies n bytes out of the ring and frees them.
    method Take(n: nat) returns (bs: seq<byte>)
      requires data.Length == SIZE && n <= Size()
      modifies `start
      ensures bs == old(Contents())[..n] && Contents() == old(Contents())[n..] && Size() == old(Size()) - n
    {
      bs := [];
      var at := start;
      for i := 0 to n
        invariant start == old(start) && at == Advance(start, i) && bs == Window(data[..], start, i)
      {
        AdvanceTwice(start, i, 1);
        bs := bs + [data[at]];
        at := Advance(at, 1);
      }
      WindowSplit(data[..], start, n, Size() - n);
      DropDistance(start, current, n);
      start := Advance(start, n);
    }

    method TakePending(n: nat) returns (bs: seq<byte>)
      requires Valid() && n <= Size()
      modifies `start, `pending
      ensures Valid() && bs == old(pending)[..n] && pending == old(pending)[n..] && Size() == old(Size()) - n
    {
      bs := Take(n);
      pending := pending[n..];
    }

    // The next n bytes of the stream, whatever its chunks.
    method ReadValue(n: nat) returns (r: Read<seq<byte>>)
      requires Valid() && 0 < n <= CAPACITY
      modifies this, data
      ensures Valid()
      ensures r.Ok? <==> |old(pending)| >= n
      ensures r.Ok? ==> r.value == old(pending)[..n] && pending == old(pending)[n..]
      ensures r.Ok? && n == CAPACITY ==> Size() == 0
      ensures r.Err? ==> !r.failure.Undefined? && |pending| <= |old(pending)| && |pending| <= old(Size())
      ensures old(pending) == [] ==> r == Err(ClientClosed)
    {
      var failure := ReceiveMore(n);
      if failure.Some? {
        return Err(failure.value);
      }
      var bs := TakePending(n);
      return Ok(bs);
    }

    method ReadU8() returns (r: Read<nat>)
      requires Valid()
      modifies this, data
      ensures Valid()
      ensures r.Ok? <==> old(pending) != []
      ensures r.Ok? ==> r.value == old(pending)[0] as nat && pending == old(pending)[1..]
      ensures r.Err? ==> r == Err(ClientClosed) && pending == []
    {
      var v := ReadValue(1);
      match v {
        case Ok(bs) => return Ok(bs[0]);
        case Err(f) => return Err(f);
      }
    }

    method ReadI8() returns (r: Read<int>)
      requires Valid()
      modifies this, data
      ensures Valid()
      ensures r.Ok? <==> old(pending) != []
      ensures r.Ok? ==> r.value == Signed(old(pending)[0], U8_LIMIT) && pending == old(pending)[1..]
      ensures r.Err? ==> r == Err(ClientClosed) && pending == []
    {
      var v := ReadValue(1);
      match v {
        case Ok(bs) => return Ok(Signed(bs[0], U8_LIMIT));
        case Err(f) => return Err(f);
      }
    }

    method ReadU16() returns (r: Read<nat>)
      requires Valid()
      modifies this, data
      ensures Valid()
      ensures r.Ok? <==> |old(pending)| >= 2
      ensures r.Ok? ==> r.value == Get16(old(pending)[..2]) && pending == old(pending)[2..]
      ensures r.Err? ==> !r.failure.Undefined? && |pending| <= |old(pending)|
    {
      var v := ReadValue(2);
      match v {
        case Ok(bs) => return Ok(Get16(bs));
        case Err(f) => return Err(f);
      }
    }

    method ReadI16() returns (r: Read<int>)
      requires Valid()
      modifies this, data
      ensures Valid()
      ensures r.Ok? <==> |old(pending)| >= 2
      ensures r.Ok? ==> r.value == Signed(Get16(old(pending)[..2]), U16_LIMIT) && pending == old(pending)[2..]
      ensures r.Err? ==> !r.failure.Undefined? && |pending| <= |old(pending)|
    {
      var v := ReadValue(2);
      match v {
        case Ok(bs) => return Ok(Signed(Get16(bs), U16_LIMIT));
        case Err(f) => return Err(f);
      }
    }

    method ReadU32() returns (r: Read<nat>)
      requires Valid()
      modifies this, data
      ensures Valid()
      ensures r.Ok? <==> |old(pending)| >= 4
      ensures r.Ok? ==> r.value == Get32(old(pending)[..4]) && pending == old(pending)[4..]
      ensures r.Err? ==> !r.failure.Undefined? && |pending| <= |old(pending)|
    {
      var v := ReadValue(4);
      match v {
        case Ok(bs) => return Ok(Get32(bs));
        case Err(f) => return Err(f);
      }
    }

    method ReadI32() returns (r: Read<int>)
      requires Valid()
      modifies this, data
      ensures Valid()
      ensures r.Ok? <==> |old(pending)| >= 4
      ensures r.Ok? ==> r.value == Signed(Get32(old(pending)[..4]), U32_LIMIT) && pending == old(pending)[4..]
      ensures r.Err? ==> !r.failure.Undefined? && |pending| <= |old(pending)|
    {
      var v := ReadValue(4);
      match v {
        case Ok(bs) => return Ok(Signed(Get32(bs), U32_LIMIT));
        case Err(f) => return Err(f);
      }
    }

    // As many of the next n bytes as the ring can hold; it is empty between
    // pieces.
    method ReadPiece(n: nat) returns (r: Read<seq<byte>>)
      requires Valid() && 0 < n && Size() == 0
      modifies this, data
      ensures Valid()
      ensures r.Ok? <==> |old(pending)| >= Min(n, CAPACITY)
      ensures r.Ok? ==> |r.value| == Min(n, CAPACITY) && old(pending) == r.value + pending
      ensures r.Ok? && n > CAPACITY ==> Size() == 0
      ensures r.Err? ==> !r.failure.Undefined? && pending == []
    {
      r := ReadValue(Min(n, CAPACITY));
    }

    // The next n bytes, for any n: what the ring holds, then piece by piece.
    method ReadPieces(n: nat) returns (r: Read<seq<byte>>)
      requires Valid()
      modifies this, data
      ensures Valid()
      ensures r.Ok? <==> |old(pending)| >= n
      ensures r.Ok? ==> |r.value| == n && old(pending) == r.value + pending
      ensures r.Err? ==> !r.failure.Undefined? && pending == []
    {
      ghost var stream := pending;
      var result := TakePending(Min(n, Size()));
      while |result| < n
        invariant Valid() && |result| <= n && stream == result + pending
        invariant |result| < n ==> Size() == 0
      {
        ghost var rest := pending;
        var v := ReadPiece(n - |result|);
        if v.Err? {
          return Err(v.failure);
        }
        NextPiece(result, rest, v.value, pending);
        result := result + v.value;
      }
      return Ok(result);
    }

    // A terminated string must end in a null byte, which is dropped; the bytes
    // read are gone either way.
    method ReadString(n: nat, nullTerminator: bool) returns (r: Read<seq<byte>>)
      requires Valid()
      modifies this, data
      ensures Valid() && ReadsString(old(pending), n, nullTerminator, r, pending)
    {
      ghost var stream := pending;
      r := ReadPieces(n);
      if r.Ok? {
        Parted(stream, r.value, pending);
        if nullTerminator {
          if n == 0 {
            return Err(Undefined);
          }
          if r.value[n - 1] != 0 {
            return Err(NetworkError);
          }
          r := Ok(r.value[..n - 1]);
        }
      }
    }
  }
}
