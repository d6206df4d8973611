/** Temporary media files whose copies share one owner. */
module MediaFiles {
  import opened Common

  /** The shared owner: `path` never changes, `deleted` flips once. */
  class Owner {
    const path: string
    var deleted: bool

    constructor (path: string)
      ensures this.path == path && !deleted
    {
      this.path, deleted := path, false;
    }
  }

  /** What one Delete call did: its result, and whether it reached the native delete. */
  datatype Deletion = Deletion(outcome: Outcome, called: bool)

  /** `code` is what the native delete would answer. */
  function Deleted(ownerPath: string, deleted: bool, path: string, code: int): (bool, Deletion) {
    if path != ownerPath then (deleted, Deletion(Err(InvalidArgument), false))
    else if deleted then (true, Deletion(Ok, false))
    else if path == "" then (false, Deletion(Err(InvalidArgument), false))
    else (code == 0, Deletion(OutcomeOf(code), true))
  }

  /** A copy of a file value: the caller may overwrite `path`, never the owner. */
  datatype RecordingFile = RecordingFile(owner: Owner?, path: string, duration: int)

  method Delete(f: RecordingFile, code: int) returns (deletion: Deletion)
    modifies if f.owner == null then {} else {f.owner}
    ensures f.owner != null ==> (f.owner.deleted, deletion) == Deleted(f.owner.path, old(f.owner.deleted), f.path, code)
    ensures f.owner == null && f.path == "" ==> deletion == Deletion(Err(InvalidArgument), false)
    ensures f.owner == null && f.path != "" ==> deletion == Deletion(OutcomeOf(code), true)
  {
    if f.owner == null {
      return if f.path == "" then Deletion(Err(InvalidArgument), false) else Deletion(OutcomeOf(code), true);
    }
    if f.path != f.owner.path {
      return Deletion(Err(InvalidArgument), false);
    }
    if f.owner.deleted {
      return Deletion(Ok, false);
    }
    if f.path == "" {
      return Deletion(Err(InvalidArgument), false);
    }
    if code == 0 {
      f.owner.deleted := true;
    }
    return Deletion(OutcomeOf(code), true);
  }

  /** One Delete call on some copy: the path the copy holds and what the runtime would answer. */
  datatype Call = Call(path: string, code: int)

  /** Any sequence of calls on any copies; the owner's lock makes them sequential. */
  function DeletionRun(ownerPath: string, calls: seq<Call>): (bool, seq<Deletion>) {
    if calls == [] then (false, [])
    else
      var (deleted, results) := DeletionRun(ownerPath, calls[..|calls| - 1]);
      var last := calls[|calls| - 1];
      var (after, result) := Deleted(ownerPath, deleted, last.path, last.code);
      (after, results + [result])
  }

  /** What a delete answers once the file is gone. */
  function AfterDeletion(ownerPath: string, path: string): Deletion {
    if path == ownerPath then Deletion(Ok, false) else Deletion(Err(InvalidArgument), false)
  }

  predicate Succeeded(d: Deletion) { d.called && d.outcome == Ok }

  lemma {:induction false} DeletedByFirstSuccess(ownerPath: string, calls: seq<Call>)
    ensures var (deleted, results) := DeletionRun(ownerPath, calls);
      && |results| == |calls|
      && (deleted <==> exists i :: 0 <= i < |results| && Succeeded(results[i]))
      && forall i, j :: 0 <= i < j < |results| && Succeeded(results[i]) ==>
           results[j] == AfterDeletion(ownerPath, calls[j].path)
  {
    if calls != [] {
      var n := |calls| - 1;
      DeletedByFirstSuccess(ownerPath, calls[..n]);
      var results := DeletionRun(ownerPath, calls).1;
      var before := DeletionRun(ownerPath, calls[..n]).1;
      assert results[..n] == before;
      forall i, j | 0 <= i < j < |results| && Succeeded(results[i])
        ensures results[j] == AfterDeletion(ownerPath, calls[j].path)
      {
        assert results[i] == before[i];
        if j < n {
          assert results[j] == before[j];
        }
      }
      if DeletionRun(ownerPath, calls).0 && !DeletionRun(ownerPath, calls[..n]).0 {
        assert Succeeded(results[n]);
      }
      if DeletionRun(ownerPath, calls[..n]).0 {
        var i :| 0 <= i < |before| && Succeeded(before[i]);
        assert results[i] == before[i];
      }
    }
  }

  /** Across all copies the native delete succeeds at most once, and is never called again after it did. */
  lemma DeletedAtMostOnce(ownerPath: string, calls: seq<Call>, i: nat, j: nat)
    requires i < j < |calls|
    ensures |DeletionRun(ownerPath, calls).1| == |calls|
    ensures Succeeded(DeletionRun(ownerPath, calls).1[i]) ==>
      && !DeletionRun(ownerPath, calls).1[j].called
      && (calls[j].path == ownerPath ==> DeletionRun(ownerPath, calls).1[j].outcome == Ok)
  {
    DeletedByFirstSuccess(ownerPath, calls);
  }
}

/** The stored export result and the copies that Wait hands out. Arrays stand for slices, so sharing is visible. */
module ExportResults {
  import opened Common
  import opened MediaFiles

  datatype Span = Span(start: int, end: int)

  datatype Segment = Segment(source: Span, outputStart: int, outputEnd: int)

  datatype Gap = Gap(span: Span, tracks: array<int>, reasons: array<int>)

  datatype GapValue = GapValue(span: Span, tracks: seq<int>, reasons: seq<int>)

  /** A result holds its file by reference. */
  class FileBox {
    var file: RecordingFile

    constructor (file: RecordingFile)
      ensures this.file == file
    {
      this.file := file;
    }
  }

  datatype Result = Result(file: FileBox?, requested: Span, covered: int, complete: bool,
                           segments: array<Segment>, gaps: array<Gap>, unprocessed: array<Span>)

  datatype ResultValue = ResultValue(file: Option<RecordingFile>, requested: Span, covered: int, complete: bool,
                                     segments: seq<Segment>, gaps: seq<GapValue>, unprocessed: seq<Span>)

  ghost function GapParts(gaps: seq<Gap>): (parts: set<object>)
    ensures forall i :: 0 <= i < |gaps| ==> gaps[i].tracks in parts && gaps[i].reasons in parts
    ensures forall o :: o in parts ==> exists i :: 0 <= i < |gaps| && (o == gaps[i].tracks || o == gaps[i].reasons)
  {
    (set i | 0 <= i < |gaps| :: gaps[i].tracks as object) + (set i | 0 <= i < |gaps| :: gaps[i].reasons as object)
  }

  /** Everything reachable from a result, except the shared file owner. */
  ghost function Parts(r: Result): set<object>
    reads r.gaps
  {
    (if r.file == null then {} else {r.file as object})
    + {r.segments as object, r.gaps as object, r.unprocessed as object}
    + GapParts(r.gaps[..])
  }

  ghost function GapValueOf(gap: Gap): GapValue
    reads gap.tracks, gap.reasons
  {
    GapValue(gap.span, gap.tracks[..], gap.reasons[..])
  }

  /** What a caller sees when it reads the whole result. */
  ghost function ValueOf(r: Result): ResultValue
    reads r.gaps, Parts(r)
  {
    ResultValue(if r.file == null then None else Some(r.file.file), r.requested, r.covered, r.complete,
                r.segments[..],
                seq(r.gaps.Length, i requires 0 <= i < r.gaps.Length reads r.gaps, Parts(r) => GapValueOf(r.gaps[i])),
                r.unprocessed[..])
  }

  method CopyInts(from: array<int>) returns (to: array<int>)
    ensures fresh(to) && to[..] == from[..]
  {
    to := new int[from.Length](i requires 0 <= i < from.Length reads from => from[i]);
  }

  method CopyFile(from: FileBox?) returns (to: FileBox?)
    ensures if from == null then to == null else to != null && fresh(to) && to.file == from.file
  {
    to := null;
    if from != null {
      to := new FileBox(from.file);
    }
  }

  method CopySegments(from: array<Segment>) returns (to: array<Segment>)
    ensures fresh(to) && to[..] == from[..]
  {
    to := new Segment[from.Length](i requires 0 <= i < from.Length reads from => from[i]);
  }

  method CopySpans(from: array<Span>) returns (to: array<Span>)
    ensures fresh(to) && to[..] == from[..]
  {
    to := new Span[from.Length](i requires 0 <= i < from.Length reads from => from[i]);
  }

  method CloneGaps(from: array<Gap>) returns (to: array<Gap>)
    ensures fresh(to) && fresh(GapParts(to[..])) && to.Length == from.Length
    ensures forall i :: 0 <= i < to.Length ==> GapValueOf(to[i]) == GapValueOf(from[i])
  {
    to := new Gap[from.Length](i requires 0 <= i < from.Length reads from => from[i]);
    for k := 0 to from.Length
      invariant to.Length == from.Length && fresh(to)
      invariant forall i :: 0 <= i < k ==> fresh(to[i].tracks) && fresh(to[i].reasons)
      invariant forall i :: 0 <= i < k ==> GapValueOf(to[i]) == GapValueOf(from[i])
      modifies to
    {
      var tracks := CopyInts(from[k].tracks);
      var reasons := CopyInts(from[k].reasons);
      to[k] := Gap(from[k].span, tracks, reasons);
    }
  }

  /** A result whose parts read as those of a value reads as that value. */
  lemma ReadsAs(r: Result, v: ResultValue)
    requires v.file == if r.file == null then None else Some(r.file.file)
    requires r.requested == v.requested && r.covered == v.covered && r.complete == v.complete
    requires r.segments[..] == v.segments && r.unprocessed[..] == v.unprocessed
    requires r.gaps.Length == |v.gaps| && forall i :: 0 <= i < |v.gaps| ==> GapValueOf(r.gaps[i]) == v.gaps[i]
    ensures ValueOf(r) == v
  {
    assert ValueOf(r).gaps == v.gaps;
  }

  twostate lemma FreshParts(new r: Result)
    requires (r.file != null ==> fresh(r.file)) && fresh(r.segments) && fresh(r.gaps) && fresh(r.unprocessed)
    requires fresh(GapParts(r.gaps[..]))
    ensures fresh(Parts(r))
  {
  }

  method CloneExportResult(value: Result) returns (result: Result)
    ensures fresh(Parts(result))
    ensures ValueOf(result) == ValueOf(value)
  {
    var file := CopyFile(value.file);
    var segments := CopySegments(value.segments);
    var unprocessed := CopySpans(value.unprocessed);
    var gaps := CloneGaps(value.gaps);
    result := Result(file, value.requested, value.covered, value.complete, segments, gaps, unprocessed);
    FreshParts(result);
    ReadsAs(result, ValueOf(value));
  }

  /** The task after its terminal: a stored result that nobody else may reach. */
  class Finished {
    const stored: Result
    const err: Outcome

    constructor (stored: Result, err: Outcome)
      ensures this.stored == stored && this.err == err
    {
      this.stored, this.err := stored, err;
    }

    method Wait() returns (result: Result, err: Outcome)
      ensures fresh(Parts(result)) && ValueOf(result) == ValueOf(stored) && err == this.err
    {
      result := CloneExportResult(stored);
      err := this.err;
    }
  }

  /** Overwrites everything a caller can reach from a result. */
  method Scribble(r: Result, file: RecordingFile, segment: Segment, gap: Gap, span: Span, n: int)
    modifies Parts(r)
  {
    for i := 0 to r.gaps.Length
      invariant Parts(r) == old(Parts(r))
      invariant forall j :: 0 <= j < r.gaps.Length ==> r.gaps[j] == old(r.gaps[j])
      modifies GapParts(old(r.gaps[..]))
    {
      forall k | 0 <= k < r.gaps[i].tracks.Length { r.gaps[i].tracks[k] := n; }
      forall k | 0 <= k < r.gaps[i].reasons.Length { r.gaps[i].reasons[k] := n; }
    }
    if r.file != null {
      r.file.file := file;
    }
    forall k | 0 <= k < r.segments.Length { r.segments[k] := segment; }
    forall k | 0 <= k < r.unprocessed.Length { r.unprocessed[k] := span; }
    forall k | 0 <= k < r.gaps.Length { r.gaps[k] := gap; }
  }

  /** A stored result whose parts nobody writes reads the same. */
  twostate lemma UntouchedReadsTheSame(stored: Result)
    requires forall o :: o in old(Parts(stored)) ==> unchanged(o)
    ensures Parts(stored) == old(Parts(stored)) && ValueOf(stored) == old(ValueOf(stored))
  {
    assert stored.gaps in old(Parts(stored));
    assert stored.gaps[..] == old(stored.gaps[..]);
    assert forall i :: 0 <= i < stored.gaps.Length ==>
      stored.gaps[i].tracks in old(Parts(stored)) && stored.gaps[i].reasons in old(Parts(stored));
    assert forall i :: 0 <= i < stored.gaps.Length ==> GapValueOf(stored.gaps[i]) == old(GapValueOf(stored.gaps[i]));
    assert ValueOf(stored).gaps == old(ValueOf(stored).gaps);
  }

  lemma PartsAreAllocated(r: Result)
    ensures forall o :: o in Parts(r) ==> allocated(o)
  {
    forall o | o in Parts(r) ensures allocated(o) {
      if o in GapParts(r.gaps[..]) {
        var i :| 0 <= i < r.gaps.Length && (o == r.gaps[..][i].tracks || o == r.gaps[..][i].reasons);
        assert allocated(r.gaps[i]);
      }
    }
  }

  /** Whatever a caller does to what one Wait returned, the next Wait returns the same value. */
  method WaitsAreIsolated(task: Finished, file: RecordingFile, segment: Segment, gap: Gap, span: Span, n: int)
    returns (first: Result, second: Result)
    ensures ValueOf(second) == old(ValueOf(task.stored))
    ensures Parts(second) !! Parts(task.stored)
  {
    ghost var stored, value := Parts(task.stored), ValueOf(task.stored);
    PartsAreAllocated(task.stored);
    var err;
    first, err := task.Wait();
    assert stored !! Parts(first);
    Scribble(first, file, segment, gap, span, n);
    assert forall o :: o in stored ==> unchanged(o);
    UntouchedReadsTheSame(task.stored);
    assert ValueOf(task.stored) == value && Parts(task.stored) == stored;
    second, err := task.Wait();
    assert ValueOf(second) == value && stored !! Parts(second);
  }
}
