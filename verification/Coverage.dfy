/** Choosing a gap-free interval to export from a report: nested loops with a gap cursor that never moves back. */
module ExportCoverage {

  /** Instants and durations in nanoseconds. */
  const MAX_LENGTH: int := 5_000_000_000

  datatype Range = Range(start: int, end: int)

  datatype Report = Report(requested: Range, segments: seq<Range>, gaps: seq<Range>)

  function Max(a: int, b: int): int { if a < b then b else a }

  function Min(a: int, b: int): int { if a < b then a else b }

  /** The part of a segment that was asked for; empty or inverted when there is none. */
  function Clip(report: Report, i: nat): Range
    requires i < |report.segments|
  {
    var segment := report.segments[i];
    Range(Max(segment.start, report.requested.start), Min(segment.end, report.requested.end))
  }

  predicate Avoids(a: int, b: int, gap: Range) {
    gap.end <= a || b <= gap.start
  }

  /** A non-empty interval of published, requested media that no reported gap reaches into. */
  predicate Free(report: Report, i: int, a: int, b: int) {
    && 0 <= i < |report.segments|
    && Clip(report, i).start <= a < b <= Clip(report, i).end
    && forall k :: 0 <= k < |report.gaps| ==> Avoids(a, b, report.gaps[k])
  }

  /** Segments and gaps come in order of their starts. */
  predicate Ordered(report: Report) {
    && (forall i, j :: 0 <= i < j < |report.segments| ==> report.segments[i].start <= report.segments[j].start)
    && (forall i, j :: 0 <= i < j < |report.gaps| ==> report.gaps[i].start <= report.gaps[j].start)
  }

  /** No free interval, once capped, is longer than `length`. */
  ghost predicate Longest(report: Report, length: int) {
    forall i, a, b :: Free(report, i, a, b) ==> Min(b - a, MAX_LENGTH) <= length
  }

  /** Free intervals that start earlier in scan order are strictly shorter than `length`. */
  ghost predicate NothingEarlier(report: Report, i: nat, start: int, length: int) {
    forall j, a, b :: Free(report, j, a, b) && (j < i || (j == i && a < start)) ==> Min(b - a, MAX_LENGTH) < length
  }

  ghost predicate FirstBest(report: Report, i: nat, best: Range) {
    && Free(report, i, best.start, best.end)
    && best.end - best.start <= MAX_LENGTH
    && Longest(report, best.end - best.start)
    && NothingEarlier(report, i, best.start, best.end - best.start)
  }

  /** The interval lies inside one published segment and the requested range. */
  ghost predicate Contained(report: Report, i: nat, best: Range) {
    i < |report.segments| && Clip(report, i).start <= best.start && best.end <= Clip(report, i).end
  }

  function Considered(best: Range, start: int, end: int): Range {
    var capped := Min(end, start + MAX_LENGTH);
    if capped - start > best.end - best.start then Range(start, capped) else best
  }

  /** On every ordered report there is only one first best interval. */
  lemma FirstBestIsUnique(report: Report, i: nat, x: Range, j: nat, y: Range)
    requires FirstBest(report, i, x) && FirstBest(report, j, y)
    ensures i == j && x == y
  {
    assert Free(report, i, x.start, x.end) && Free(report, j, y.start, y.end);
  }

  predicate Covers(range: Range, t: int) {
    range.start <= t < range.end
  }

  /** For a non-empty gap, avoiding it is having no instant in common with it. */
  lemma AvoidingIsDisjoint(a: int, b: int, gap: Range)
    requires a < b && gap.start < gap.end
    ensures Avoids(a, b, gap) <==> forall t :: !(Covers(Range(a, b), t) && Covers(gap, t))
  {
    if forall t :: !(Covers(Range(a, b), t) && Covers(gap, t)) {
      assert !(Covers(Range(a, b), a) && Covers(gap, a));
      assert !(Covers(Range(a, b), gap.start) && Covers(gap, gap.start));
    }
  }

  /** The inner loop: walks the gaps that can touch one segment and considers the stretches between them. */
  method ScanSegment(report: Report, i: nat, gapIndex: nat, from: int, end: int, seen: Range, ghost seenAt: nat)
    returns (best: Range, ghost at: nat)
    requires i < |report.segments| && gapIndex <= |report.gaps|
    requires Range(from, end) == Clip(report, i)
    requires 0 <= seen.end - seen.start <= MAX_LENGTH
    requires Chosen(report, seenAt, seen) && ScannedTo(report, i, from, seen)
    requires Ordered(report) ==> CursorPassed(report, gapIndex, i)
    ensures 0 <= best.end - best.start <= MAX_LENGTH
    ensures Chosen(report, at, best) && ScannedTo(report, i, end, best)
  {
    best, at := seen, seenAt;
    var start := from;
    var k := gapIndex;
    while k < |report.gaps| && report.gaps[k].start < end
      invariant gapIndex <= k <= |report.gaps| && from <= start
      invariant 0 <= best.end - best.start <= MAX_LENGTH
      invariant Chosen(report, at, best) && ScannedTo(report, i, start, best)
      invariant forall h :: gapIndex <= h < k ==> report.gaps[h].end <= start
    {
      var gap := report.gaps[k];
      ghost var before := best;
      if gap.start > start {
        best := Considered(best, start, gap.start);
        at := if best == before then at else i;
        ConsideringIsSound(report, i, gapIndex, k, start, gap.start, before);
      }
      if gap.end > start {
        GapIsScanned(report, i, k, start, best);
        start := gap.end;
      }
      k := k + 1;
    }
    ghost var before := best;
    best := Considered(best, start, end);
    at := if best == before then at else i;
    if end > start {
      ConsideringIsSound(report, i, gapIndex, k, start, end, before);
    }
    EndIsScanned(report, i, start, best);
  }

  /** Skips the gaps that are over before the segment starts; later segments start no earlier. */
  method AdvanceCursor(report: Report, i: nat, from: nat, start: int) returns (gapIndex: nat)
    requires i < |report.segments| && from <= |report.gaps| && start == Clip(report, i).start
    requires Ordered(report) ==> CursorPassed(report, from, i)
    ensures from <= gapIndex <= |report.gaps|
    ensures forall g :: from <= g < gapIndex ==> report.gaps[g].end <= start
    ensures gapIndex < |report.gaps| ==> report.gaps[gapIndex].end > start
    ensures Ordered(report) ==> CursorPassed(report, gapIndex, i)
  {
    gapIndex := from;
    while gapIndex < |report.gaps| && report.gaps[gapIndex].end <= start
      invariant from <= gapIndex <= |report.gaps|
      invariant forall g :: from <= g < gapIndex ==> report.gaps[g].end <= start
    {
      gapIndex := gapIndex + 1;
    }
    if Ordered(report) {
      forall g, j | 0 <= g < gapIndex && i <= j < |report.segments|
        ensures report.gaps[g].end <= Clip(report, j).start
      {
        assert i < j ==> report.segments[i].start <= report.segments[j].start;
      }
    }
  }

  /** What holds between two segments. */
  ghost predicate Progress(report: Report, i: nat, gapIndex: nat, best: Range, at: nat) {
    && gapIndex <= |report.gaps|
    && 0 <= best.end - best.start <= MAX_LENGTH
    && Chosen(report, at, best)
    && SegmentsScanned(report, i, best)
    && (Ordered(report) ==> CursorPassed(report, gapIndex, i))
  }

  lemma NothingScannedYet(report: Report, first: nat, best: Range)
    requires first == 0 && best.end - best.start == 0
    ensures Progress(report, first, first, best, first)
  {
  }

  method ConsiderSegment(report: Report, i: nat, cursor: nat, seen: Range, ghost seenAt: nat)
    returns (gapIndex: nat, best: Range, ghost at: nat)
    requires i < |report.segments| && Progress(report, i, cursor, seen, seenAt)
    ensures Progress(report, i + 1, gapIndex, best, at)
  {
    var start, end := report.segments[i].start, report.segments[i].end;
    if start < report.requested.start {
      start := report.requested.start;
    }
    if end > report.requested.end {
      end := report.requested.end;
    }
    gapIndex := AdvanceCursor(report, i, cursor, start);
    SegmentStarts(report, i, seen);
    best, at := ScanSegment(report, i, gapIndex, start, end, seen, seenAt);
    SegmentEnds(report, i, best);
  }

  method CoveredExportRange(report: Report) returns (best: Range, ok: bool)
    ensures ok <==> best.end - best.start > 0
    ensures 0 <= best.end - best.start <= MAX_LENGTH
    ensures ok ==> exists i :: Contained(report, i, best)
    ensures Longest(report, best.end - best.start)
    ensures !ok ==> forall i, a, b :: !Free(report, i, a, b)
    ensures Ordered(report) && ok ==> exists i :: FirstBest(report, i, best)
    ensures Ordered(report) ==> (ok <==> exists i, a, b :: Free(report, i, a, b))
  {
    best := Range(0, 0);
    ghost var at := 0;
    var gapIndex := 0;
    NothingScannedYet(report, at, best);
    for i := 0 to |report.segments|
      invariant at >= 0 && gapIndex >= 0 && Progress(report, i, gapIndex, best, at)
    {
      gapIndex, best, at := ConsiderSegment(report, i, gapIndex, best, at);
      if best.end - best.start == MAX_LENGTH {
        Finish(report, at, best);
        return best, true;
      }
    }
    Finish(report, at, best);
    ok := best.end > best.start;
  }

  /** Every gap the cursor has passed ends before this and every later clipped segment starts. */
  ghost predicate CursorPassed(report: Report, gapIndex: nat, i: nat)
    requires gapIndex <= |report.gaps|
  {
    forall g, j :: 0 <= g < gapIndex && i <= j < |report.segments| ==> report.gaps[g].end <= Clip(report, j).start
  }

  ghost predicate Chosen(report: Report, at: nat, best: Range) {
    best.end - best.start > 0 ==>
      && Contained(report, at, best)
      && NothingEarlier(report, at, best.start, best.end - best.start)
      && (Ordered(report) ==> Free(report, at, best.start, best.end))
  }

  /** Everything free before `start` in segment `i`, and in earlier segments, has been considered. */
  ghost predicate ScannedTo(report: Report, i: nat, start: int, best: Range) {
    forall j, a, b :: Free(report, j, a, b) && (j < i || (j == i && a < start)) ==>
                        Min(b - a, MAX_LENGTH) <= best.end - best.start
  }

  ghost predicate SegmentsScanned(report: Report, i: nat, best: Range) {
    forall j, a, b :: Free(report, j, a, b) && j < i ==> Min(b - a, MAX_LENGTH) <= best.end - best.start
  }

  lemma ConsideringIsSound(report: Report, i: nat, gapIndex: nat, k: nat, start: int, end: int, best: Range)
    requires i < |report.segments| && gapIndex <= k <= |report.gaps|
    requires 0 <= best.end - best.start <= MAX_LENGTH
    requires Clip(report, i).start <= start < end <= Clip(report, i).end
    requires ScannedTo(report, i, start, best)
    requires Ordered(report) ==> CursorPassed(report, gapIndex, i)
    requires forall h :: gapIndex <= h < k ==> report.gaps[h].end <= start
    requires k < |report.gaps| ==> end <= report.gaps[k].start
    ensures var r := Considered(best, start, end);
      && (r != best ==> Chosen(report, i, r))
      && ScannedTo(report, i, start, r)
  {
    var r := Considered(best, start, end);
    if Ordered(report) && r != best {
      forall h | 0 <= h < |report.gaps| ensures Avoids(r.start, r.end, report.gaps[h]) {
        if h < gapIndex {
          assert report.gaps[h].end <= Clip(report, i).start;
        } else if h >= k {
          assert report.gaps[k].start <= report.gaps[h].start;
        }
      }
    }
  }

  /**
   A free interval that starts before the end of gap `k` ends before that gap starts, so it was part of what was
   considered.
   */
  lemma GapIsScanned(report: Report, i: nat, k: nat, start: int, best: Range)
    requires i < |report.segments| && k < |report.gaps|
    requires ScannedTo(report, i, start, best)
    requires report.gaps[k].start > start ==> Min(report.gaps[k].start - start, MAX_LENGTH) <= best.end - best.start
    ensures ScannedTo(report, i, report.gaps[k].end, best)
  {
    forall j, a, b | Free(report, j, a, b) && (j < i || (j == i && a < report.gaps[k].end))
      ensures Min(b - a, MAX_LENGTH) <= best.end - best.start
    {
      assert Avoids(a, b, report.gaps[k]);
    }
  }

  /** No free interval of the segment starts at or after its end. */
  lemma EndIsScanned(report: Report, i: nat, start: int, best: Range)
    requires i < |report.segments|
    requires ScannedTo(report, i, start, best)
    requires Clip(report, i).end > start ==> Min(Clip(report, i).end - start, MAX_LENGTH) <= best.end - best.start
    ensures ScannedTo(report, i, Clip(report, i).end, best)
  {
  }

  lemma SegmentStarts(report: Report, i: nat, best: Range)
    requires i < |report.segments| && SegmentsScanned(report, i, best)
    ensures ScannedTo(report, i, Clip(report, i).start, best)
  {
  }

  lemma SegmentEnds(report: Report, i: nat, best: Range)
    requires i < |report.segments| && ScannedTo(report, i, Clip(report, i).end, best)
    ensures SegmentsScanned(report, i + 1, best)
  {
  }

  lemma Finish(report: Report, at: nat, best: Range)
    requires 0 <= best.end - best.start <= MAX_LENGTH && Chosen(report, at, best)
    requires best.end - best.start == MAX_LENGTH || SegmentsScanned(report, |report.segments|, best)
    ensures Longest(report, best.end - best.start)
    ensures best.end - best.start > 0 ==> exists i :: Contained(report, i, best)
    ensures Ordered(report) && best.end - best.start > 0 ==> exists i :: FirstBest(report, i, best)
    ensures best.end - best.start == 0 ==> forall i, a, b :: !Free(report, i, a, b)
  {
    if best.end - best.start > 0 {
      assert Contained(report, at, best);
      assert Ordered(report) ==> FirstBest(report, at, best);
    } else {
      forall i, a, b ensures !Free(report, i, a, b) {
        assert Free(report, i, a, b) ==> Min(b - a, MAX_LENGTH) <= 0;
      }
    }
  }
}
