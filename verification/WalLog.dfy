// The bytes of a write-ahead log: each record is the entry's memory image
// followed by a four-byte size, so that the log can be walked backwards.
module WalLog {
  import opened Prelude

  const MAX_INT32 := 0x7fff_ffff
  const MAX_INT64 := 0x7fff_ffff_ffff_ffff

  // The image of an entry is `before`, the eight bytes of its LSN, `after`.
  datatype Entry = Entry(txn: nat, before: seq<byte>, after: seq<byte>) {
    function GetSize(): nat { |before| + 8 + |after| }
    // GetSize() is an int32.
    predicate Sized() { GetSize() <= MAX_INT32 }
  }

  datatype Record = Record(entry: Entry, lsn: nat)

  function Entries(rs: seq<Record>): (es: seq<Entry>)
    ensures |es| == |rs| && forall i :: 0 <= i < |rs| ==> es[i] == rs[i].entry
  {
    seq(|rs|, i requires 0 <= i < |rs| => rs[i].entry)
  }

  // Little-endian, modulo 256^n.
  function ToLittleEndian(v: nat, n: nat): (bs: seq<byte>)
    ensures |bs| == n
  {
    if n == 0 then [] else [v % 256] + ToLittleEndian(v / 256, n - 1)
  }

  function FromLittleEndian(bs: seq<byte>): nat {
    if bs == [] then 0 else bs[0] + 256 * FromLittleEndian(bs[1..])
  }

  function Power256(n: nat): (p: nat)
    ensures p > 0
  {
    if n == 0 then 1 else 256 * Power256(n - 1)
  }

  // Byte i weighs 256^i.
  lemma {:induction false} LittleEndianAt(v: nat, n: nat, i: nat)
    requires i < n
    ensures ToLittleEndian(v, n)[i] == v / Power256(i) % 256
  {
    if i > 0 {
      LittleEndianAt(v / 256, n - 1, i - 1);
      DivideTwice(v, 256, Power256(i - 1));
    }
  }

  lemma {:induction false} LittleEndianRoundTrip(v: nat, n: nat)
    requires v < Power256(n)
    ensures FromLittleEndian(ToLittleEndian(v, n)) == v
  {
    if n > 0 { LittleEndianRoundTrip(v / 256, n - 1); }
  }

  lemma Regroup(a: seq<byte>, b: seq<byte>, c: seq<byte>)
    ensures a + b + c == a + (b + c)
  {
  }

  lemma WidthsFit()
    ensures MAX_INT32 < Power256(4) && MAX_INT64 < Power256(8)
  {
    assert Power256(4) == 0x1_0000_0000;
    assert Power256(8) == 0x1_0000_0000 * 0x1_0000_0000;
  }

  // ------------------------------------------------------------- the layout

  function Image(r: Record): (bs: seq<byte>)
    ensures |bs| == r.entry.GetSize()
  {
    r.entry.before + ToLittleEndian(r.lsn, 8) + r.entry.after
  }

  function RecordBytes(r: Record): seq<byte> {
    Image(r) + ToLittleEndian(r.entry.GetSize(), 4)
  }

  function LogBytes(rs: seq<Record>): seq<byte> {
    if rs == [] then [] else LogBytes(rs[..|rs| - 1]) + RecordBytes(rs[|rs| - 1])
  }

  // Where each record starts, and where the log ends.
  function Boundaries(rs: seq<Record>): seq<nat> {
    if rs == [] then [0] else Boundaries(rs[..|rs| - 1]) + [|LogBytes(rs)|]
  }

  function Images(rs: seq<Record>): seq<seq<byte>> {
    if rs == [] then [] else Images(rs[..|rs| - 1]) + [Image(rs[|rs| - 1])]
  }

  // ------------------------------------------------------- walking backwards

  // The boundaries met and the images passed when stepping back from the end
  // of `log`, both listed front to back; none when a step leaves the log.
  datatype Walk = Walk(boundaries: seq<nat>, images: seq<seq<byte>>)

  function WalkBack(log: seq<byte>): Option<Walk>
    decreases |log|
  {
    if |log| == 0 then Some(Walk([0], []))
    else if |log| < 4 then None
    else
      var end := |log| - 4;
      var size := FromLittleEndian(log[end..]);
      if size > end then None
      else
        match WalkBack(log[..end - size])
        case None => None
        case Some(w) => Some(Walk(w.boundaries + [|log|], w.images + [log[end - size..end]]))
  }

  // One step back over the last record.
  lemma StepBack(front: seq<byte>, r: Record)
    requires r.entry.Sized()
    ensures var log, size := front + RecordBytes(r), r.entry.GetSize();
            var end := |log| - 4;
            && end - size == |front| && FromLittleEndian(log[end..]) == size
            && log[..end - size] == front && log[end - size..end] == Image(r)
  {
    var log, size := front + RecordBytes(r), r.entry.GetSize();
    assert log[|log| - 4..] == ToLittleEndian(size, 4);
    WidthsFit();
    LittleEndianRoundTrip(size, 4);
  }

  function OneMore(w: Option<Walk>, end: nat, image: seq<byte>): Option<Walk> {
    match w
    case None => None
    case Some(v) => Some(Walk(v.boundaries + [end], v.images + [image]))
  }

  lemma WalkBackStep(front: seq<byte>, r: Record)
    requires r.entry.Sized()
    ensures WalkBack(front + RecordBytes(r)) == OneMore(WalkBack(front), |front + RecordBytes(r)|, Image(r))
  {
    StepBack(front, r);
  }

  // For every sequence of records: reading the trailing size and stepping back
  // meets every record boundary, ends at offset zero and passes every image.
  lemma {:induction false} WalkBackMeetsEveryRecord(rs: seq<Record>)
    requires forall i :: 0 <= i < |rs| ==> rs[i].entry.Sized()
    ensures WalkBack(LogBytes(rs)) == Some(Walk(Boundaries(rs), Images(rs)))
  {
    if rs != [] {
      var front, r := rs[..|rs| - 1], rs[|rs| - 1];
      WalkBackMeetsEveryRecord(front);
      WalkBackStep(LogBytes(front), r);
    }
  }

  lemma OverLast(front: seq<byte>, init: seq<byte>, r: Record, whole: seq<byte>)
    requires r.entry.Sized() && whole == init + RecordBytes(r)
    ensures WalkBack(front + whole) == OneMore(WalkBack(front + init), |front| + |whole|, Image(r))
  {
    WalkBackStep(front + init, r);
    Regroup(front, init, RecordBytes(r));
  }

  // A walk w, then one step over each record appended from `start` on.
  function StepOver(w: Option<Walk>, start: nat, rs: seq<Record>): Option<Walk> {
    if rs == [] then w
    else OneMore(StepOver(w, start, rs[..|rs| - 1]), start + |LogBytes(rs)|, Image(rs[|rs| - 1]))
  }

  lemma {:induction false} WalkBackSteps(front: seq<byte>, rs: seq<Record>)
    requires forall i :: 0 <= i < |rs| ==> rs[i].entry.Sized()
    ensures WalkBack(front + LogBytes(rs)) == StepOver(WalkBack(front), |front|, rs)
    decreases |rs|
  {
    if rs == [] {
      assert front + [] == front;
    } else {
      var init := rs[..|rs| - 1];
      WalkBackSteps(front, init);
      OverLast(front, LogBytes(init), rs[|rs| - 1], LogBytes(rs));
    }
  }

  // Where the records end when the first of them starts at `start`.
  function Offsets(start: nat, rs: seq<Record>): seq<nat> {
    if rs == [] then [] else Offsets(start, rs[..|rs| - 1]) + [start + |LogBytes(rs)|]
  }

  lemma {:induction false} StepsAppend(w: Walk, start: nat, rs: seq<Record>)
    ensures StepOver(Some(w), start, rs) == Some(Walk(w.boundaries + Offsets(start, rs), w.images + Images(rs)))
    ensures StepOver(None, start, rs) == None
    decreases |rs|
  {
    if rs == [] {
      assert w.boundaries + [] == w.boundaries && w.images + [] == w.images;
    } else {
      var init := rs[..|rs| - 1];
      StepsAppend(w, start, init);
      assert w.boundaries + Offsets(start, rs) == w.boundaries + Offsets(start, init) + [start + |LogBytes(rs)|];
      assert w.images + Images(rs) == w.images + Images(init) + [Image(rs[|rs| - 1])];
    }
  }

  // Whatever the file held before, the walk passes the appended records and
  // then goes on in it.
  lemma WalkBackOver(front: seq<byte>, rs: seq<Record>)
    requires forall i :: 0 <= i < |rs| ==> rs[i].entry.Sized()
    ensures match WalkBack(front)
            case None => WalkBack(front + LogBytes(rs)) == None
            case Some(w) =>
              WalkBack(front + LogBytes(rs)) == Some(Walk(w.boundaries + Offsets(|front|, rs), w.images + Images(rs)))
  {
    WalkBackSteps(front, rs);
    StepsAppend(if WalkBack(front).Some? then WalkBack(front).value else Walk([], []), |front|, rs);
  }

  lemma {:induction false} LogBytesConcat(a: seq<Record>, b: seq<Record>)
    ensures LogBytes(a + b) == LogBytes(a) + LogBytes(b)
    decreases |b|
  {
    if b == [] {
      assert a + b == a;
    } else {
      var init, r := b[..|b| - 1], b[|b| - 1];
      LogBytesConcat(a, init);
      assert (a + b)[..|a + b| - 1] == a + init;
      Regroup(LogBytes(a), LogBytes(init), RecordBytes(r));
    }
  }

  // The LSN field of an image, for an entry whose LSN sits at `offset`.
  function LsnField(image: seq<byte>, offset: nat): nat
    requires offset + 8 <= |image|
  {
    FromLittleEndian(image[offset..offset + 8])
  }

  lemma {:induction false} ImagesAt(rs: seq<Record>, i: nat)
    requires i < |rs|
    ensures |Images(rs)| == |rs| && Images(rs)[i] == Image(rs[i])
  {
    var front := rs[..|rs| - 1];
    if |rs| > 1 { ImagesAt(front, if i < |front| then i else 0); }
  }

  // The LSN that the image of the i-th record carries.
  function CarriedLsn(rs: seq<Record>, i: nat): nat
    requires i < |rs|
  {
    ImagesAt(rs, i);
    LsnField(Images(rs)[i], |rs[i].entry.before|)
  }

  // Every record of the log carries its number, counted from one.
  predicate CarryNumbers(rs: seq<Record>) {
    forall i :: 0 <= i < |rs| ==> CarriedLsn(rs, i) == i + 1
  }

  // The LSN written into an image is read back from it.
  lemma ImageCarriesLsn(rs: seq<Record>, i: nat)
    requires i < |rs| && rs[i].lsn <= MAX_INT64
    ensures CarriedLsn(rs, i) == rs[i].lsn
  {
    var r := rs[i];
    ImagesAt(rs, i);
    WidthsFit();
    LittleEndianRoundTrip(r.lsn, 8);
    assert Image(r)[|r.entry.before|..|r.entry.before| + 8] == ToLittleEndian(r.lsn, 8);
  }

  // Records appended to another log carry their own numbers, ...
  lemma AppendedNumbers(earlier: seq<Record>, log: seq<Record>)
    requires |log| <= MAX_INT64 && forall i :: 0 <= i < |log| ==> log[i].lsn == i + 1
    ensures var all := earlier + log; forall i :: |earlier| <= i < |all| ==> CarriedLsn(all, i) == i - |earlier| + 1
  {
    var all := earlier + log;
    forall i | |earlier| <= i < |all| ensures CarriedLsn(all, i) == i - |earlier| + 1 {
      assert all[i] == log[i - |earlier|];
      ImageCarriesLsn(all, i);
    }
  }

  // ... which start again at one, so the two together are numbered only if one
  // of them is empty.
  lemma NumbersStartAgain(earlier: seq<Record>, log: seq<Record>)
    requires |log| <= MAX_INT64 && forall i :: 0 <= i < |log| ==> log[i].lsn == i + 1
    ensures CarryNumbers(earlier + log) <==> earlier == [] || (log == [] && CarryNumbers(earlier))
  {
    AppendedNumbers(earlier, log);
    if earlier == [] {
      assert earlier + log == log;
    } else if log == [] {
      assert earlier + log == earlier;
    } else {
      assert CarriedLsn(earlier + log, |earlier|) != |earlier| + 1;
    }
  }

  // Appending a record to a file appends it to the log that ends the file.
  lemma LogBytesAppend(front: seq<byte>, rs: seq<Record>, r: Record)
    ensures front + LogBytes(rs + [r]) == front + LogBytes(rs) + Image(r) + ToLittleEndian(r.entry.GetSize(), 4)
  {
    assert (rs + [r])[..|rs|] == rs;
    Regroup(front, LogBytes(rs), RecordBytes(r));
    Regroup(front + LogBytes(rs), Image(r), ToLittleEndian(r.entry.GetSize(), 4));
  }
}
