/**
 The background-job output cap (api/jobs.go).

 A guest log file grows at its end while the poller punches holes into its
 front. Two records describe the dropped front: the guest's sidecar file and
 the job row. Either may lag behind the file. Readers use the offsets of the
 stream as it would be had nothing been dropped; `orig` is that stream.
 */
module JobCap {
  import opened Options
  import opened CapText

  type Byte = b: nat | b < 256
  const NEWLINE: Byte := 10
  const BLOCK := 4096

  datatype Row = Row(dropped: nat, newlines: nat, ends: bool)

  // The stream, its file, how far the file has been punched, the sidecar's
  // text and the job row's counters.
  datatype Stream = Stream(orig: seq<Byte>, file: seq<Byte>, punched: nat, sidecar: string, row: Row)

  // Which of a pass's guest and store calls fail.
  datatype Faults = Faults(
    sidecarRead: bool, stat: bool, read: bool, punch: bool, reread: bool, write: bool, store: bool)

  function Init(): Stream { Stream([], [], 0, "", Row(0, 0, false)) }

  // --- The pass ---

  // jobCapTarget.
  function CapTarget(size: nat, dropped: nat, kept: nat): nat {
    if kept == 0 || size <= kept then 0
    else
      var target := (size - kept) / BLOCK * BLOCK;
      if target <= dropped then 0 else target
  }

  function CountNewlines(data: seq<Byte>): nat {
    if data == [] then 0 else CountNewlines(data[..|data| - 1]) + (if data[|data| - 1] == NEWLINE then 1 else 0)
  }

  predicate EndsWithNewline(data: seq<Byte>) {
    data != [] && data[|data| - 1] == NEWLINE
  }

  function Punch(file: seq<Byte>, from: nat, to: nat): (r: seq<Byte>)
    requires from <= to <= |file|
    ensures |r| == |file|
    ensures forall i :: 0 <= i < |file| ==> r[i] == if from <= i < to then 0 else file[i]
  {
    seq(|file|, i requires 0 <= i < |file| => if from <= i < to then 0 else file[i])
  }

  function Max(a: nat, b: nat): nat { if a < b then b else a }

  // UpdateJobSkipped: counters only rise; the flag follows the larger front.
  function Raise(r: Row, to: Row): Row {
    Row(Max(r.dropped, to.dropped), Max(r.newlines, to.newlines), if to.dropped > r.dropped then to.ends else r.ends)
  }

  // The counters capJobStreams starts from: the sidecar's when it is ahead.
  function Base(s: Stream, f: Faults): Row {
    var c := if f.sidecarRead then None else ParseFile(s.sidecar);
    if c.Some? && c.value.dropped > s.row.dropped
    then Row(c.value.dropped, Max(s.row.newlines, c.value.newlines),
             if c.value.ends.Some? then c.value.ends.value else s.row.ends)
    else s.row
  }

  function Append(s: Stream, bytes: seq<Byte>): Stream {
    s.(orig := s.orig + bytes, file := s.file + bytes)
  }

  // What the pass records about the region it is about to punch.
  function Planned(file: seq<Byte>, base: Row, target: nat): Row
    requires base.dropped < target <= |file|
  {
    var data := file[base.dropped..target];
    Row(target, base.newlines + CountNewlines(data), EndsWithNewline(data))
  }

  // capJobStream. `late` is written to the stream after its size was read.
  function CapPass(s: Stream, kept: nat, f: Faults, late: seq<Byte>): Stream {
    var base, size, t := Base(s, f), |s.file|, Append(s, late);
    var target := CapTarget(size, base.dropped, kept);
    if f.stat || size < base.dropped then t
    else if target <= base.dropped then
      if (base.dropped > s.row.dropped || base.newlines > s.row.newlines) && !f.store
      then t.(row := Raise(s.row, base)) else t
    else if f.read || f.punch then t
    else
      var next := Planned(t.file, base, target);
      var u := t.(file := Punch(t.file, base.dropped, target), punched := Max(s.punched, target));
      if f.reread || !WholeLines(s.sidecar) || f.write then u
      else
        var v := u.(sidecar := s.sidecar + CapLine(target, next.newlines, target, next.ends) + "\n");
        if f.store then v else v.(row := Raise(s.row, next))
  }

  // --- What holds in every run ---

  function SidecarRow(s: Stream): Row {
    var c := ParseFile(s.sidecar);
    if c.Some? then Row(c.value.dropped, c.value.newlines, c.value.ends == Some(true)) else Row(0, 0, false)
  }

  ghost predicate FileAgrees(s: Stream) {
    && |s.file| == |s.orig| < INT64 && s.punched <= |s.file|
    && (forall i :: 0 <= i < s.punched ==> s.file[i] == 0)
    && (forall i :: s.punched <= i < |s.file| ==> s.file[i] == s.orig[i])
  }

  // The sidecar is empty or its last line reads back whole.
  ghost predicate Readable(text: string) {
    && WholeLines(text) && (text != "" ==> ParseFile(text).Some?)
    && (ParseFile(text).Some? ==> ParseFile(text).value.ends.Some?)
  }

  ghost predicate Level(r: Row) { r.dropped % BLOCK == 0 && r.newlines <= r.dropped }

  // The row never runs ahead of the sidecar, nor the sidecar of the file.
  ghost predicate Ordered(s: Stream) {
    && FileAgrees(s) && s.punched % BLOCK == 0
    && Readable(s.sidecar) && Level(SidecarRow(s)) && Level(s.row)
    && s.row.dropped <= SidecarRow(s).dropped <= s.punched
  }

  lemma {:induction false} CountIsSmall(data: seq<Byte>)
    ensures CountNewlines(data) <= |data|
  {
    if data != [] { CountIsSmall(data[..|data| - 1]); }
  }

  lemma TargetIsABlock(size: nat, dropped: nat, kept: nat)
    ensures var t := CapTarget(size, dropped, kept);
            && t % BLOCK == 0 && t <= size && (t == 0 || t > dropped)
            && (t > dropped ==> 0 < kept <= size - t < kept + BLOCK)
            && (t <= dropped && dropped <= size && dropped % BLOCK == 0 && kept > 0 ==> size - dropped < kept + BLOCK)
  {
  }

  lemma PunchAgrees(s: Stream, from: nat, to: nat)
    requires FileAgrees(s) && from <= s.punched && from <= to <= |s.file|
    ensures FileAgrees(s.(file := Punch(s.file, from, to), punched := Max(s.punched, to)))
  {
  }

  lemma AppendKeepsOrder(s: Stream, bytes: seq<Byte>)
    requires Ordered(s) && |s.orig| + |bytes| < INT64
    ensures Ordered(Append(s, bytes))
  {
  }

  lemma BaseIsOrdered(s: Stream, f: Faults)
    requires Ordered(s)
    ensures var b := Base(s, f);
            && s.row.dropped <= b.dropped <= SidecarRow(s).dropped && b.dropped % BLOCK == 0
            && b.newlines <= b.dropped
            && (f.sidecarRead || CaughtUp(s) ==> b == s.row)
            && (!f.sidecarRead && !CaughtUp(s) ==> b.dropped == SidecarRow(s).dropped && b.ends == SidecarRow(s).ends)
  {
  }

  predicate Punches(s: Stream, kept: nat, f: Faults) {
    var base := Base(s, f);
    !f.stat && |s.file| >= base.dropped && !f.read && !f.punch &&
    CapTarget(|s.file|, base.dropped, kept) > base.dropped
  }

  // What a pass leaves behind, by how far it got.
  ghost predicate Outcome(s: Stream, kept: nat, f: Faults, late: seq<Byte>, n: Stream) {
    var base := Base(s, f);
    var target := CapTarget(|s.file|, base.dropped, kept);
    && n.orig == s.orig + late
    && if !Punches(s, kept, f) then
         && n.punched == s.punched && SidecarRow(n) == SidecarRow(s)
         && n.row == if f.stat || f.store || base.dropped < target then s.row else Raise(s.row, base)
       else
         && base.dropped < target <= |s.file|
         && n.punched == Max(s.punched, target)
         && var next := Planned(s.file + late, base, target);
            if f.reread || f.write then SidecarRow(n) == SidecarRow(s) && n.row == s.row
            else SidecarRow(n) == next && n.row == if f.store then s.row else Raise(s.row, next)
  }

  lemma PassOutcome(s: Stream, kept: nat, f: Faults, late: seq<Byte>)
    requires Ordered(s) && |s.orig| + |late| < INT64
    ensures Outcome(s, kept, f, late, CapPass(s, kept, f, late))
  {
    var base := Base(s, f);
    var target := CapTarget(|s.file|, base.dropped, kept);
    BaseIsOrdered(s, f);
    TargetIsABlock(|s.file|, base.dropped, kept);
    if Punches(s, kept, f) {
      var next := Planned(s.file + late, base, target);
      CountIsSmall((s.file + late)[base.dropped..target]);
      FileRoundTrip(s.sidecar, target, next.newlines, target, next.ends);
    }
  }

  lemma PassKeepsFile(s: Stream, kept: nat, f: Faults, late: seq<Byte>)
    requires Ordered(s) && |s.orig| + |late| < INT64
    ensures FileAgrees(CapPass(s, kept, f, late))
  {
    var base, t := Base(s, f), Append(s, late);
    var target := CapTarget(|s.file|, base.dropped, kept);
    BaseIsOrdered(s, f);
    AppendKeepsOrder(s, late);
    TargetIsABlock(|s.file|, base.dropped, kept);
    if Punches(s, kept, f) { PunchAgrees(t, base.dropped, target); }
  }

  lemma PassKeepsSidecar(s: Stream, kept: nat, f: Faults, late: seq<Byte>)
    requires Ordered(s) && |s.orig| + |late| < INT64
    ensures Readable(CapPass(s, kept, f, late).sidecar)
  {
    var base := Base(s, f);
    var target := CapTarget(|s.file|, base.dropped, kept);
    BaseIsOrdered(s, f);
    TargetIsABlock(|s.file|, base.dropped, kept);
    if Punches(s, kept, f) {
      var next := Planned(s.file + late, base, target);
      CountIsSmall((s.file + late)[base.dropped..target]);
      FileRoundTrip(s.sidecar, target, next.newlines, target, next.ends);
    }
  }

  lemma PassKeepsOrder(s: Stream, kept: nat, f: Faults, late: seq<Byte>)
    requires Ordered(s) && |s.orig| + |late| < INT64
    ensures Ordered(CapPass(s, kept, f, late))
  {
    PassKeepsFile(s, kept, f, late);
    PassKeepsSidecar(s, kept, f, late);
    PassOutcome(s, kept, f, late);
    OutcomeKeepsLevels(s, kept, f, late, CapPass(s, kept, f, late));
  }

  lemma OutcomeKeepsLevels(s: Stream, kept: nat, f: Faults, late: seq<Byte>, n: Stream)
    requires Ordered(s) && Outcome(s, kept, f, late, n)
    ensures n.punched % BLOCK == 0 && Level(SidecarRow(n)) && Level(n.row)
    ensures n.row.dropped <= SidecarRow(n).dropped <= n.punched
  {
    var base := Base(s, f);
    var target := CapTarget(|s.file|, base.dropped, kept);
    BaseIsOrdered(s, f);
    TargetIsABlock(|s.file|, base.dropped, kept);
    if Punches(s, kept, f) { CountIsSmall((s.file + late)[base.dropped..target]); }
  }

  // --- The row catches up ---

  // The row knows of every dropped byte the sidecar knows of.
  predicate CaughtUp(s: Stream) { s.row.dropped == SidecarRow(s).dropped }

  // After a pass the row has caught up with the sidecar if and only if the pass
  // wrote a new line and its store write landed; or it wrote none and the row
  // had caught up before, or the pass read the sidecar, found nothing to drop
  // and landed its counters.
  lemma CaughtUpIff(s: Stream, kept: nat, f: Faults, late: seq<Byte>)
    requires Ordered(s) && |s.orig| + |late| < INT64
    ensures CaughtUp(CapPass(s, kept, f, late)) <==>
            if Punches(s, kept, f) && !f.reread && !f.write then !f.store
            else CaughtUp(s) ||
                 (!f.sidecarRead && !f.stat && !f.store &&
                  CapTarget(|s.file|, SidecarRow(s).dropped, kept) <= SidecarRow(s).dropped)
  {
    PassOutcome(s, kept, f, late);
    BaseIsOrdered(s, f);
    TargetIsABlock(|s.file|, Base(s, f).dropped, kept);
  }

  // So a pass that loses no call leaves no lag, whatever was lost before it.
  lemma WholePassCatchesUp(s: Stream, kept: nat, late: seq<Byte>)
    requires Ordered(s) && |s.orig| + |late| < INT64
    ensures CaughtUp(CapPass(s, kept, NO_FAULTS, late))
  {
    CaughtUpIff(s, kept, NO_FAULTS, late);
  }

  // --- Exactness of the counters ---

  // The counters describe the first `r.dropped` bytes of the stream.
  ghost predicate Describes(r: Row, orig: seq<Byte>) {
    && r.dropped <= |orig|
    && r.newlines == CountNewlines(orig[..r.dropped])
    && r.ends == EndsWithNewline(orig[..r.dropped])
  }

  // Both records are right and the sidecar knows of every dropped byte.
  ghost predicate Exact(s: Stream) {
    && Describes(s.row, s.orig) && Describes(SidecarRow(s), s.orig)
    && SidecarRow(s).dropped == s.punched
  }

  lemma {:induction false} CountSplits(a: seq<Byte>, b: seq<Byte>)
    ensures CountNewlines(a + b) == CountNewlines(a) + CountNewlines(b)
  {
    if b == [] {
      assert a + b == a;
    } else {
      assert (a + b)[..|a + b| - 1] == a + b[..|b| - 1];
      CountSplits(a, b[..|b| - 1]);
    }
  }

  lemma CountAt(data: seq<Byte>, i: nat, j: nat)
    requires i <= j <= |data|
    ensures CountNewlines(data[..j]) == CountNewlines(data[..i]) + CountNewlines(data[i..j])
  {
    CountSplits(data[..i], data[i..j]);
    assert data[..i] + data[i..j] == data[..j];
  }

  lemma {:induction false} CountOfHole(data: seq<Byte>)
    requires forall i :: 0 <= i < |data| ==> data[i] != NEWLINE
    ensures CountNewlines(data) == 0
  {
    if data != [] { CountOfHole(data[..|data| - 1]); }
  }

  lemma {:induction false} CountIsZero(data: seq<Byte>, i: nat)
    requires CountNewlines(data) == 0 && i < |data|
    ensures data[i] != NEWLINE
  {
    if i < |data| - 1 { CountIsZero(data[..|data| - 1], i); }
  }

  // A region that agrees with the stream from m on and has no newline before
  // it holds the stream's newlines less those the first part lost.
  lemma CountOfParts(file: seq<Byte>, orig: seq<Byte>, i: nat, m: nat, j: nat)
    requires i <= m <= j <= |file| && j <= |orig|
    requires forall k :: i <= k < m ==> file[k] == 0
    requires file[m..j] == orig[m..j]
    ensures CountNewlines(file[i..j]) == CountNewlines(orig[i..j]) - CountNewlines(orig[i..m])
  {
    CountSplits(file[i..m], file[m..j]);
    CountSplits(orig[i..m], orig[m..j]);
    assert file[i..m] + file[m..j] == file[i..j];
    assert orig[i..m] + orig[m..j] == orig[i..j];
    CountOfHole(file[i..m]);
  }

  lemma CountOfRegion(s: Stream, i: nat, j: nat)
    requires FileAgrees(s) && i <= s.punched && i <= j <= |s.file|
    ensures var m := if j < s.punched then j else s.punched;
            CountNewlines(s.file[i..j]) == CountNewlines(s.orig[i..j]) - CountNewlines(s.orig[i..m])
  {
    var m := if j < s.punched then j else s.punched;
    assert s.file[m..j] == s.orig[m..j];
    CountOfParts(s.file, s.orig, i, m, j);
  }

  lemma BaseIsExact(s: Stream, f: Faults)
    requires Ordered(s) && Exact(s)
    ensures Describes(Base(s, f), s.orig)
    ensures !f.sidecarRead ==> Base(s, f).dropped == s.punched
  {
    var side := SidecarRow(s);
    CountAt(s.orig, s.row.dropped, side.dropped);
  }

  // What the pass would record is right exactly when the part of the region
  // that was already a hole held no newline.
  lemma PlannedIsExact(s: Stream, base: Row, target: nat)
    requires FileAgrees(s) && Describes(base, s.orig)
    requires base.dropped <= s.punched <= target <= |s.file| && base.dropped < target
    ensures Describes(Planned(s.file, base, target), s.orig) <==> CountNewlines(s.orig[base.dropped..s.punched]) == 0
  {
    CountAt(s.orig, base.dropped, target);
    CountOfRegion(s, base.dropped, target);
    if CountNewlines(s.orig[base.dropped..s.punched]) == 0 && target == s.punched {
      CountIsZero(s.orig[base.dropped..s.punched], target - 1 - base.dropped);
    }
  }

  lemma DescribesMore(r: Row, orig: seq<Byte>, bytes: seq<Byte>)
    requires Describes(r, orig)
    ensures Describes(r, orig + bytes)
  {
    assert (orig + bytes)[..r.dropped] == orig[..r.dropped];
  }

  lemma AppendKeepsExact(s: Stream, bytes: seq<Byte>)
    requires Exact(s)
    ensures Exact(Append(s, bytes))
  {
    DescribesMore(s.row, s.orig, bytes);
    DescribesMore(SidecarRow(s), s.orig, bytes);
  }

  // One pass, every outcome: the counters stay exact if and only if the pass
  // punched nothing, or lost its sidecar write without dropping new bytes, or
  // recorded a region whose earlier hole reached no further and held no
  // newline. The last is automatic when it started from an up-to-date record.
  ghost predicate StaysExact(s: Stream, kept: nat, f: Faults) {
    var base := Base(s, f);
    var target := CapTarget(|s.file|, base.dropped, kept);
    Punches(s, kept, f) ==>
      if f.reread || f.write then target <= s.punched
      else s.punched <= target && base.dropped <= s.punched <= |s.orig| &&
           CountNewlines(s.orig[base.dropped..s.punched]) == 0
  }

  lemma QuietOutcomeIsExact(s: Stream, kept: nat, f: Faults, late: seq<Byte>, n: Stream)
    requires Ordered(s) && Exact(s) && Outcome(s, kept, f, late, n) && !Punches(s, kept, f)
    ensures Exact(n)
  {
    BaseIsOrdered(s, f);
    BaseIsExact(s, f);
    CountAt(s.orig, s.row.dropped, Base(s, f).dropped);
    DescribesMore(s.row, s.orig, late);
    DescribesMore(Base(s, f), s.orig, late);
    DescribesMore(SidecarRow(s), s.orig, late);
  }

  lemma LostOutcomeIsExact(s: Stream, kept: nat, f: Faults, late: seq<Byte>, n: Stream)
    requires Ordered(s) && Exact(s) && Outcome(s, kept, f, late, n) && Punches(s, kept, f) && (f.reread || f.write)
    ensures Exact(n) <==> CapTarget(|s.file|, Base(s, f).dropped, kept) <= s.punched
  {
    DescribesMore(s.row, s.orig, late);
    DescribesMore(SidecarRow(s), s.orig, late);
  }

  // An exact row rises to the whole of what a pass recorded past it.
  lemma RowFollows(s: Stream, f: Faults, late: seq<Byte>, target: nat)
    requires Ordered(s) && Exact(s) && Base(s, f).dropped < target <= |s.file|
    ensures var next := Planned(s.file + late, Base(s, f), target); Raise(s.row, next) == next
  {
    BaseIsOrdered(s, f);
    BaseIsExact(s, f);
    CountAt(s.orig, s.row.dropped, Base(s, f).dropped);
  }

  lemma PlannedLater(s: Stream, base: Row, late: seq<Byte>, target: nat)
    requires FileAgrees(s) && FileAgrees(Append(s, late)) && Describes(base, s.orig)
    requires base.dropped < target && base.dropped <= s.punched <= target <= |s.file|
    ensures Describes(Planned(s.file + late, base, target), s.orig + late) <==>
            CountNewlines(s.orig[base.dropped..s.punched]) == 0
  {
    DescribesMore(base, s.orig, late);
    PlannedIsExact(Append(s, late), base, target);
    assert (s.orig + late)[base.dropped..s.punched] == s.orig[base.dropped..s.punched];
  }

  lemma PlannedLateIsExact(s: Stream, f: Faults, late: seq<Byte>, target: nat)
    requires Ordered(s) && Exact(s) && |s.orig| + |late| < INT64
    requires Base(s, f).dropped < target && s.punched <= target <= |s.file|
    ensures Base(s, f).dropped <= s.punched
    ensures Describes(Planned(s.file + late, Base(s, f), target), s.orig + late) <==>
            CountNewlines(s.orig[Base(s, f).dropped..s.punched]) == 0
  {
    BaseIsOrdered(s, f);
    BaseIsExact(s, f);
    AppendKeepsOrder(s, late);
    PlannedLater(s, Base(s, f), late, target);
  }

  lemma RecordedOutcomeIsExact(s: Stream, kept: nat, f: Faults, late: seq<Byte>, n: Stream)
    requires Ordered(s) && Exact(s) && Outcome(s, kept, f, late, n) && |s.orig| + |late| < INT64
    requires Punches(s, kept, f) && !f.reread && !f.write
    ensures Base(s, f).dropped <= s.punched
    ensures Exact(n) <==>
            s.punched <= CapTarget(|s.file|, Base(s, f).dropped, kept) &&
            CountNewlines(s.orig[Base(s, f).dropped..s.punched]) == 0
  {
    var base := Base(s, f);
    var target := CapTarget(|s.file|, base.dropped, kept);
    var next := Planned(s.file + late, base, target);
    BaseIsOrdered(s, f);
    RowFollows(s, f, late, target);
    DescribesMore(s.row, s.orig, late);
    assert Exact(n) <==> Describes(next, n.orig) && s.punched <= target;
    if s.punched <= target { PlannedLateIsExact(s, f, late, target); }
  }

  lemma ExactIffClean(s: Stream, kept: nat, f: Faults, late: seq<Byte>)
    requires Ordered(s) && Exact(s) && |s.orig| + |late| < INT64
    ensures Exact(CapPass(s, kept, f, late)) <==> StaysExact(s, kept, f)
  {
    var n := CapPass(s, kept, f, late);
    PassOutcome(s, kept, f, late);
    if !Punches(s, kept, f) {
      QuietOutcomeIsExact(s, kept, f, late, n);
    } else if f.reread || f.write {
      LostOutcomeIsExact(s, kept, f, late, n);
    } else {
      RecordedOutcomeIsExact(s, kept, f, late, n);
    }
  }

  // A condition to check before the pass: no sidecar write lost, and no
  // sidecar read lost while the row lags behind the file.
  predicate Clean(s: Stream, f: Faults) {
    !f.reread && !f.write && (f.sidecarRead ==> s.row.dropped == s.punched)
  }

  lemma CleanStaysExact(s: Stream, kept: nat, f: Faults)
    requires Ordered(s) && Exact(s) && Clean(s, f)
    ensures StaysExact(s, kept, f)
  {
    BaseIsExact(s, f);
    assert Base(s, f).dropped == s.punched;
    assert s.orig[s.punched..s.punched] == [];
  }

  // --- What faults can never do: report a newline that was not there ---

  ghost predicate AtMost(r: Row, orig: seq<Byte>) {
    r.dropped <= |orig| && r.newlines <= CountNewlines(orig[..r.dropped])
  }

  ghost predicate Undercounts(s: Stream) {
    AtMost(s.row, s.orig) && AtMost(SidecarRow(s), s.orig)
  }

  lemma AtMostMore(r: Row, orig: seq<Byte>, bytes: seq<Byte>)
    requires AtMost(r, orig)
    ensures AtMost(r, orig + bytes)
  {
    assert (orig + bytes)[..r.dropped] == orig[..r.dropped];
  }

  lemma RaiseAtMost(r: Row, to: Row, orig: seq<Byte>)
    requires AtMost(r, orig) && AtMost(to, orig) && r.dropped <= to.dropped
    ensures AtMost(Raise(r, to), orig)
  {
    CountAt(orig, r.dropped, to.dropped);
  }

  lemma BaseAtMost(s: Stream, f: Faults)
    requires Ordered(s) && Undercounts(s)
    ensures AtMost(Base(s, f), s.orig)
  {
    CountAt(s.orig, s.row.dropped, SidecarRow(s).dropped);
  }

  lemma PlannedAtMost(s: Stream, base: Row, target: nat)
    requires FileAgrees(s) && AtMost(base, s.orig) && base.dropped <= s.punched && base.dropped < target <= |s.file|
    ensures AtMost(Planned(s.file, base, target), s.orig)
  {
    CountAt(s.orig, base.dropped, target);
    CountOfRegion(s, base.dropped, target);
  }

  lemma PassKeepsUndercounts(s: Stream, kept: nat, f: Faults, late: seq<Byte>)
    requires Ordered(s) && Undercounts(s) && |s.orig| + |late| < INT64
    ensures Undercounts(CapPass(s, kept, f, late))
  {
    PassOutcome(s, kept, f, late);
    OutcomeKeepsUndercounts(s, kept, f, late, CapPass(s, kept, f, late));
  }

  lemma OutcomeKeepsUndercounts(s: Stream, kept: nat, f: Faults, late: seq<Byte>, n: Stream)
    requires Ordered(s) && Undercounts(s) && |s.orig| + |late| < INT64 && Outcome(s, kept, f, late, n)
    ensures Undercounts(n)
  {
    var base, t := Base(s, f), Append(s, late);
    BaseIsOrdered(s, f);
    BaseAtMost(s, f);
    AtMostMore(base, s.orig, late);
    AtMostMore(s.row, s.orig, late);
    AtMostMore(SidecarRow(s), s.orig, late);
    RaiseAtMost(s.row, base, n.orig);
    if Punches(s, kept, f) {
      var target := CapTarget(|s.file|, base.dropped, kept);
      AppendKeepsOrder(s, late);
      PlannedAtMost(t, base, target);
      RaiseAtMost(s.row, Planned(t.file, base, target), n.orig);
    }
  }

  // --- The kept window ---

  // No pass drops into the last `kept` bytes, and one that could look at the
  // file and punch it, whether or not there was anything to drop, leaves less
  // than one block more than that.
  lemma PassKeepsWindow(s: Stream, kept: nat, f: Faults, late: seq<Byte>)
    requires Ordered(s) && |s.orig| + |late| < INT64
    ensures var n := CapPass(s, kept, f, late);
            && s.punched <= n.punched
            && (s.punched < n.punched ==> kept <= |s.file| - n.punched)
            && (0 < kept && !f.stat && !f.read && !f.punch ==> |s.file| - n.punched < kept + BLOCK)
  {
    BaseIsOrdered(s, f);
    TargetIsABlock(|s.file|, Base(s, f).dropped, kept);
  }

  // --- Whole runs ---

  datatype Op = Write(bytes: seq<Byte>) | Cap(faults: Faults, late: seq<Byte>)

  function Apply(s: Stream, kept: nat, op: Op): Stream {
    match op
    case Write(bytes) => Append(s, bytes)
    case Cap(f, late) => CapPass(s, kept, f, late)
  }

  function Run(kept: nat, ops: seq<Op>): Stream
    decreases |ops|, 1
  {
    if ops == [] then Init() else RunLast(kept, ops)
  }

  function RunLast(kept: nat, ops: seq<Op>): Stream
    requires ops != []
    decreases |ops|, 0
  {
    Apply(Run(kept, ops[..|ops| - 1]), kept, ops[|ops| - 1])
  }

  function Written(ops: seq<Op>): seq<Byte> {
    if ops == [] then [] else
      var op := ops[|ops| - 1];
      Written(ops[..|ops| - 1]) + if op.Write? then op.bytes else op.late
  }

  ghost predicate CleanRun(kept: nat, ops: seq<Op>) {
    forall i :: 0 <= i < |ops| && ops[i].Cap? ==> Clean(Run(kept, ops[..i]), ops[i].faults)
  }

  // In every run: the stream is what was written, the three records are
  // ordered, newlines are never invented, and the last `kept` bytes survive.
  lemma {:induction false} RunIsOrdered(kept: nat, ops: seq<Op>)
    requires |Written(ops)| < INT64
    ensures Run(kept, ops).orig == Written(ops)
    ensures Ordered(Run(kept, ops)) && Undercounts(Run(kept, ops))
    ensures var s := Run(kept, ops); 0 < s.punched ==> kept <= |s.file| - s.punched
  {
    if ops != [] {
      var before, op := Run(kept, ops[..|ops| - 1]), ops[|ops| - 1];
      RunIsOrdered(kept, ops[..|ops| - 1]);
      match op
      case Write(bytes) =>
        AppendKeepsOrder(before, bytes);
        AtMostMore(before.row, before.orig, bytes);
        AtMostMore(SidecarRow(before), before.orig, bytes);
      case Cap(f, late) =>
        PassKeepsOrder(before, kept, f, late);
        PassKeepsUndercounts(before, kept, f, late);
        PassKeepsWindow(before, kept, f, late);
    }
  }

  lemma {:induction false} CleanRunIsExact(kept: nat, ops: seq<Op>)
    requires |Written(ops)| < INT64 && CleanRun(kept, ops)
    ensures Exact(Run(kept, ops))
  {
    if ops != [] {
      var rest := ops[..|ops| - 1];
      var before, op := Run(kept, rest), ops[|ops| - 1];
      forall i | 0 <= i < |rest| && rest[i].Cap? ensures Clean(Run(kept, rest[..i]), rest[i].faults) {
        assert rest[..i] == ops[..i];
      }
      CleanRunIsExact(kept, rest);
      RunIsOrdered(kept, rest);
      match op
      case Write(bytes) => AppendKeepsExact(before, bytes);
      case Cap(f, late) =>
        assert Clean(Run(kept, ops[..|ops| - 1]), ops[|ops| - 1].faults);
        CleanStaysExact(before, kept, f);
        ExactIffClean(before, kept, f, late);
    }
  }

  // The row's counters only rise, whatever fails, and the flag changes only
  // when the dropped front grows.
  ghost predicate NotBelow(r: Row, to: Row) {
    r.dropped <= to.dropped && r.newlines <= to.newlines && (r.dropped == to.dropped ==> r.ends == to.ends)
  }

  lemma {:induction false} RowOnlyRises(kept: nat, ops: seq<Op>, more: seq<Op>)
    ensures NotBelow(Run(kept, ops).row, Run(kept, ops + more).row)
  {
    if more == [] {
      assert ops + more == ops;
    } else {
      var rest := more[..|more| - 1];
      assert (ops + more)[..|ops + more| - 1] == ops + rest;
      RowOnlyRises(kept, ops, rest);
    }
  }

  const NO_FAULTS := Faults(false, false, false, false, false, false, false)

  // One pass over a fresh stream whose store update is lost.
  lemma StoreMisses(s: Stream)
    requires Ordered(s) && Exact(s) && s.row == Row(0, 0, false) && s.punched == 0 && |s.file| == 3 * BLOCK + 1
    ensures var n := CapPass(s, BLOCK + 1, NO_FAULTS.(store := true), []);
            && Ordered(n) && Exact(n) && n.row == s.row && n.punched == 2 * BLOCK && n.orig == s.orig
  {
    var f := NO_FAULTS.(store := true);
    CleanStaysExact(s, BLOCK + 1, f);
    ExactIffClean(s, BLOCK + 1, f, []);
    PassKeepsOrder(s, BLOCK + 1, f, []);
    BaseIsExact(s, f);
  }

  // The next pass, unable to read the sidecar, counts the hole's zeros.
  lemma SidecarReadMisses(s: Stream)
    requires Ordered(s) && Exact(s) && s.row == Row(0, 0, false) && s.punched == 2 * BLOCK
    requires |s.file| == 3 * BLOCK + 1 && s.orig[0] == NEWLINE
    ensures var n := CapPass(s, BLOCK + 1, NO_FAULTS.(sidecarRead := true), []);
            n.row == Row(2 * BLOCK, 0, false) && !Describes(n.row, n.orig)
  {
    var f := NO_FAULTS.(sidecarRead := true);
    PassOutcome(s, BLOCK + 1, f, []);
    assert s.orig + [] == s.orig && s.file + [] == s.file;
    CountOfHole(s.file[0..2 * BLOCK]);
    assert s.file[0..2 * BLOCK][2 * BLOCK - 1] == 0;
    if CountNewlines(s.orig[..2 * BLOCK]) == 0 { CountIsZero(s.orig[..2 * BLOCK], 0); }
  }

  lemma RunOfTwo(kept: nat, a: Op, b: Op)
    ensures Run(kept, [a, b]) == Apply(Apply(Init(), kept, a), kept, b)
  {
    assert [a, b][..1] == [a] && [a][..0] == [];
    assert Run(kept, [a]) == Apply(Run(kept, []), kept, a);
  }

  lemma RunOfThree(kept: nat, a: Op, b: Op, c: Op)
    ensures Run(kept, [a, b, c]) == Apply(Apply(Apply(Init(), kept, a), kept, b), kept, c)
  {
    RunOfTwo(kept, a, b);
    assert [a, b, c][..2] == [a, b];
    assert Run(kept, [a, b, c]) == Apply(Run(kept, [a, b, c][..2]), kept, c);
  }

  // A run in which every punch and every sidecar write succeeds, and which
  // still loses count: the store misses one update, the next pass cannot read
  // the sidecar and starts again from the row.
  lemma StaleReadLosesLines()
    ensures var ops := [Write(seq(3 * BLOCK + 1, _ => NEWLINE)),
                        Cap(NO_FAULTS.(store := true), []), Cap(NO_FAULTS.(sidecarRead := true), [])];
            var s := Run(BLOCK + 1, ops);
            s.row == Row(2 * BLOCK, 0, false) && !Describes(s.row, s.orig)
  {
    var kept, bytes := BLOCK + 1, seq(3 * BLOCK + 1, _ => NEWLINE);
    var op0, op1, op2 := Write(bytes), Cap(NO_FAULTS.(store := true), []), Cap(NO_FAULTS.(sidecarRead := true), []);
    var s := Append(Init(), bytes);
    AppendKeepsExact(Init(), bytes);
    AppendKeepsOrder(Init(), bytes);
    StoreMisses(s);
    SidecarReadMisses(CapPass(s, kept, op1.faults, []));
    RunOfThree(kept, op0, op1, op2);
  }

  // --- Reads ---

  // At the end of a clean run whose last pass loses no call, the row describes
  // the whole of the dropped front.
  lemma CleanPassEndsExact(kept: nat, ops: seq<Op>, late: seq<Byte>)
    requires |Written(ops)| + |late| < INT64 && CleanRun(kept, ops)
    ensures var all := ops + [Cap(NO_FAULTS, late)];
            var s := Run(kept, all);
            && s.orig == Written(all) == Written(ops) + late && CleanRun(kept, all)
            && s.row.dropped == s.punched && Describes(s.row, s.orig)
  {
    var all := ops + [Cap(NO_FAULTS, late)];
    assert all[..|ops|] == ops;
    forall i | 0 <= i < |all| && all[i].Cap? ensures Clean(Run(kept, all[..i]), all[i].faults) {
      if i < |ops| { assert all[..i] == ops[..i] && all[i] == ops[i]; }
    }
    RunIsOrdered(kept, ops);
    RunIsOrdered(kept, all);
    CleanRunIsExact(kept, all);
    WholePassCatchesUp(Run(kept, ops), kept, late);
  }

  // A range read of a file; a limit of zero or less reads to the end.
  function RangeRead(data: seq<Byte>, start: nat, limit: int): seq<Byte> {
    if start >= |data| then []
    else if limit <= 0 || start + limit >= |data| then data[start..]
    else data[start..start + limit]
  }

  // It is the bytes from the start on, as many as there are and the limit allows.
  lemma RangeReadIs(data: seq<Byte>, start: nat, limit: int)
    ensures var r := RangeRead(data, start, limit);
            && (forall i :: 0 <= i < |r| ==> start + i < |data| && r[i] == data[start + i])
            && (|r| < limit || limit <= 0 ==> start + |r| == |data| || (r == [] && |data| <= start))
            && (limit > 0 ==> |r| <= limit)
  {
  }

  function RangeStart(size: nat, row: Row, offset: int, limit: int): nat {
    var from := if offset >= 0 then offset else if size - limit < 0 then 0 else size - limit;
    if from < row.dropped then row.dropped else from
  }

  datatype Answer = Answer(data: seq<Byte>, start: nat, skipped: Row)

  // readJobRange over a file that exists.
  function ReadRange(s: Stream, offset: int, limit: int): Answer {
    var start := RangeStart(|s.file|, s.row, offset, limit);
    Answer(RangeRead(s.file, start, limit), start, if s.row.dropped > 0 then s.row else Row(0, 0, false))
  }

  // A read through a row that missed an update answers with zeros: one pass
  // whose store write is lost, then a read of the first byte.
  lemma LaggingReadAnswersZero()
    ensures var ops := [Write(seq(3 * BLOCK + 1, _ => NEWLINE)), Cap(NO_FAULTS.(store := true), [])];
            var s := Run(BLOCK + 1, ops);
            && ReadRange(s, 0, 1) == Answer([0], 0, Row(0, 0, false))
            && RangeRead(Written(ops), 0, 1) == [NEWLINE]
  {
    var kept, bytes := BLOCK + 1, seq(3 * BLOCK + 1, _ => NEWLINE);
    var op0, op1 := Write(bytes), Cap(NO_FAULTS.(store := true), []);
    var s := Append(Init(), bytes);
    AppendKeepsExact(Init(), bytes);
    AppendKeepsOrder(Init(), bytes);
    StoreMisses(s);
    LaggedRead(CapPass(s, kept, op1.faults, []));
    assert Run(kept, [op0, op1]) == CapPass(s, kept, op1.faults, []) by { RunOfTwo(kept, op0, op1); }
    assert RangeRead(Written([op0, op1]), 0, 1) == [NEWLINE] by { WrittenOfTwo(op0, op1); }
  }

  lemma LaggedRead(s: Stream)
    requires Ordered(s) && s.row == Row(0, 0, false) && s.punched > 0
    ensures ReadRange(s, 0, 1) == Answer([0], 0, Row(0, 0, false))
  {
    assert RangeRead(s.file, 0, 1) == [s.file[0]];
  }

  lemma WrittenOfTwo(a: Op, b: Op)
    ensures Written([a, b]) == (if a.Write? then a.bytes else a.late) + (if b.Write? then b.bytes else b.late)
  {
    assert [a, b][..1] == [a] && [a][..0] == [];
    assert Written([a]) == Written([]) + if a.Write? then a.bytes else a.late;
  }

  // An answer is the stream's own bytes at its start if and only if every
  // byte it takes from a hole the row does not know of yet was zero.
  lemma ReadIffNoLag(s: Stream, offset: int, limit: int)
    requires Ordered(s)
    ensures var a := ReadRange(s, offset, limit);
            a.data == RangeRead(s.orig, a.start, limit) <==>
            forall i :: a.start <= i < a.start + |a.data| && i < s.punched ==> s.orig[i] == 0
  {
    var a := ReadRange(s, offset, limit);
    var want := RangeRead(s.orig, a.start, limit);
    assert |a.data| == |want|;
    forall i | a.start <= i < a.start + |a.data|
      ensures a.data[i - a.start] == s.file[i] && want[i - a.start] == s.orig[i]
    {}
    if a.data == want {
      forall i | a.start <= i < a.start + |a.data| && i < s.punched ensures s.orig[i] == 0 {
        assert a.data[i - a.start] == want[i - a.start];
      }
    } else {
      var k :| 0 <= k < |a.data| && a.data[k] != want[k];
      assert s.file[k + a.start] != s.orig[k + a.start];
    }
  }

  // After a clean run whose last store write landed, every read returns the
  // bytes that were written at the offset it reports, and what it reports as
  // skipped is what was dropped. A read from an offset starts there, or at the
  // first kept byte; a tail read ends at the end of the stream and is as long
  // as the limit and the kept bytes allow.
  lemma ReadAfterCleanRun(kept: nat, ops: seq<Op>, offset: int, limit: int)
    requires |Written(ops)| < INT64 && CleanRun(kept, ops)
    requires Run(kept, ops).row.dropped == Run(kept, ops).punched
    ensures var a := ReadRange(Run(kept, ops), offset, limit);
            && a.data == RangeRead(Written(ops), a.start, limit)
            && Describes(a.skipped, Written(ops)) && a.skipped.dropped <= a.start
            && (offset >= 0 ==> a.start == Max(offset, a.skipped.dropped))
            && (offset < 0 && limit > 0 ==>
                  && a.start + |a.data| == |Written(ops)|
                  && |a.data| == if limit < |Written(ops)| - a.skipped.dropped
                                 then limit else |Written(ops)| - a.skipped.dropped)
  {
    RunIsOrdered(kept, ops);
    CleanRunIsExact(kept, ops);
    ReadIffNoLag(Run(kept, ops), offset, limit);
    ReadBounds(Run(kept, ops), offset, limit);
  }

  // The same after any clean run that ends with a pass that loses no call, in
  // the bytes written.
  lemma ReadAfterCleanPass(kept: nat, ops: seq<Op>, late: seq<Byte>, offset: int, limit: int)
    requires |Written(ops)| + |late| < INT64 && CleanRun(kept, ops)
    ensures var all := ops + [Cap(NO_FAULTS, late)];
            var a, w := ReadRange(Run(kept, all), offset, limit), Written(ops) + late;
            && (forall i :: 0 <= i < |a.data| ==> a.start + i < |w| && a.data[i] == w[a.start + i])
            && (|a.data| < limit || limit <= 0 ==> a.start + |a.data| == |w| || (a.data == [] && |w| <= a.start))
            && (limit > 0 ==> |a.data| <= limit)
            && a.skipped.dropped <= |w| && a.skipped.dropped <= a.start
            && a.skipped.newlines == CountNewlines(w[..a.skipped.dropped])
            && (offset >= 0 ==> a.start == Max(offset, a.skipped.dropped))
            && (offset < 0 && limit > 0 ==>
                  && a.start + |a.data| == |w|
                  && |a.data| == if limit < |w| - a.skipped.dropped then limit else |w| - a.skipped.dropped)
  {
    var all := ops + [Cap(NO_FAULTS, late)];
    CleanPassEndsExact(kept, ops, late);
    ReadAfterCleanRun(kept, all, offset, limit);
    RangeReadIs(Written(all), ReadRange(Run(kept, all), offset, limit).start, limit);
  }

  lemma ReadBounds(s: Stream, offset: int, limit: int)
    requires Ordered(s)
    ensures var a := ReadRange(s, offset, limit);
            && a.skipped.dropped == s.row.dropped <= a.start
            && (offset >= 0 ==> a.start == Max(offset, s.row.dropped))
            && (offset < 0 && limit > 0 ==>
                  && a.start + |a.data| == |s.orig|
                  && |a.data| == if limit < |s.orig| - s.row.dropped then limit else |s.orig| - s.row.dropped)
  {
  }

  // --- The poller's pass over one stream, as it runs ---

  method CountEach(data: seq<Byte>) returns (n: nat)
    ensures n == CountNewlines(data)
  {
    n := 0;
    for i := 0 to |data|
      invariant n == CountNewlines(data[..i])
    {
      assert data[..i + 1][..i] == data[..i];
      if data[i] == NEWLINE { n := n + 1; }
    }
    assert data[..|data|] == data;
  }

  class GuestStream {
    var file: seq<Byte>
    var sidecar: string
    var row: Row
    ghost var orig: seq<Byte>
    ghost var punched: nat

    constructor ()
      ensures View() == Init()
    {
      file, sidecar, row, orig, punched := [], "", Row(0, 0, false), [], 0;
    }

    ghost function View(): Stream
      reads this
    {
      Stream(orig, file, punched, sidecar, row)
    }

    method Write(bytes: seq<Byte>)
      modifies this
      ensures View() == Append(old(View()), bytes)
    {
      file, orig := file + bytes, orig + bytes;
    }

    method UpdateSkipped(to: Row)
      modifies this
      ensures View() == old(View()).(row := Raise(old(row), to))
      ensures NotBelow(old(row), row) && to.dropped <= row.dropped && to.newlines <= row.newlines
    {
      row := Row(Max(row.dropped, to.dropped), Max(row.newlines, to.newlines),
                 if to.dropped > row.dropped then to.ends else row.ends);
    }

    method PunchHole(from: nat, to: nat)
      requires from <= to <= |file|
      modifies this
      ensures View() == old(View()).(file := Punch(old(file), from, to), punched := Max(old(punched), to))
    {
      file, punched := Punch(file, from, to), Max(punched, to);
    }

    // jobCapSidecarOf, merged with the row.
    method LiveCounters(f: Faults) returns (base: Row)
      ensures base == Base(View(), f)
      ensures Ordered(View()) && Exact(View()) ==>
                Describes(base, orig) && (!f.sidecarRead ==> base.dropped == punched)
    {
      if Ordered(View()) && Exact(View()) { BaseIsExact(View(), f); }
      base := row;
      if f.sidecarRead { return; }
      var c := ParseFile(sidecar);
      if c.Some? && c.value.dropped > base.dropped {
        base := Row(c.value.dropped, Max(base.newlines, c.value.newlines),
                    if c.value.ends.Some? then c.value.ends.value else base.ends);
      }
    }

    // The command may write `late` at any moment after the size is read.
    method CapPassOver(base: Row, kept: nat, f: Faults, late: seq<Byte>)
      requires base == Base(View(), f)
      modifies this
      ensures View() == CapPass(old(View()), kept, f, late)
    {
      var size := |file|;
      Write(late);
      if f.stat || size < base.dropped { return; }
      var target := CapTarget(size, base.dropped, kept);
      TargetIsABlock(size, base.dropped, kept);
      if target <= base.dropped {
        if (base.dropped > row.dropped || base.newlines > row.newlines) && !f.store { UpdateSkipped(base); }
        return;
      }
      if f.read { return; }
      var data := file[base.dropped..target];
      var planned := CountEach(data);
      var ends := EndsWithNewline(data);
      if f.punch { return; }
      PunchHole(base.dropped, target);
      if f.reread || !WholeLines(sidecar) { return; }
      if f.write { return; }
      sidecar := sidecar + CapLine(target, base.newlines + planned, target, ends) + "\n";
      if !f.store { UpdateSkipped(Row(target, base.newlines + planned, ends)); }
    }
  }
}
