/** The two bounded retry loops around a native destroy that may answer "in use". */
module Backoff {
  import opened Common

  const MS: int := 1_000_000
  const DESTROY_TIMEOUT: int := 2000 * MS
  const DUMP_TIMEOUT: int := 5000 * MS

  /**
   Everything the loops see of the world, for every possible world: what each destroy call answers, and
   by how much the clock runs on at each call. The clock is monotone and a sleep lasts at least as long
   as requested.
   */
  class World {
    const codes: nat -> int
    const drift: nat -> nat
    var calls: nat
    var ticks: nat
    var now: int
    var slept: int

    constructor (codes: nat -> int, drift: nat -> nat, now: int)
      ensures this.codes == codes && this.drift == drift && this.now == now && calls == 0 && slept == 0
    {
      this.codes, this.drift, this.now, calls, ticks, slept := codes, drift, now, 0, 0, 0;
    }

    method Destroy() returns (code: int)
      modifies this
      ensures code == codes(old(calls)) && calls == old(calls) + 1
      ensures now == old(now) + drift(old(ticks)) && ticks == old(ticks) + 1 && slept == old(slept)
    {
      code := codes(calls);
      calls, now, ticks := calls + 1, now + drift(ticks), ticks + 1;
    }

    method Now() returns (t: int)
      modifies this`now, this`ticks
      ensures t == now == old(now) + drift(old(ticks)) && ticks == old(ticks) + 1
    {
      now, ticks := now + drift(ticks), ticks + 1;
      t := now;
    }

    method Sleep(d: int)
      modifies this`now, this`ticks, this`slept
      ensures slept == old(slept) + (if d > 0 then d else 0) && ticks == old(ticks) + 1
      ensures now == old(now) + (if d > 0 then d else 0) + drift(old(ticks))
    {
      var pause := if d > 0 then d else 0;
      slept, now, ticks := slept + pause, now + pause + drift(ticks), ticks + 1;
    }
  }

  /** A world in which nothing but sleeping takes time and the handle stays in use. */
  ghost predicate Stuck(world: World) {
    (forall k :: world.codes(k) == ERROR_IN_USE) && (forall k :: world.drift(k) == 0)
  }

  /**
   Delay before retry `k`: doubling from 1 ms; the destroy loop caps it at 20 ms, the dump loop stops doubling at 32
   ms.
   */
  function Delay(k: nat, cap: int): int {
    if k == 0 then MS
    else
      var d := Delay(k - 1, cap);
      if d < 20 * MS then (if 2 * d > cap then cap else 2 * d) else d
  }

  /** Total of the first `k` delays. */
  function Waited(k: nat, cap: int): int {
    if k == 0 then 0 else Waited(k - 1, cap) + Delay(k - 1, cap)
  }

  lemma FirstDelays(cap: int)
    requires cap == 20 * MS || cap == 32 * MS
    ensures Delay(0, cap) == MS && Delay(1, cap) == 2 * MS && Delay(2, cap) == 4 * MS
    ensures Delay(3, cap) == 8 * MS && Delay(4, cap) == 16 * MS && Delay(5, cap) == cap
    ensures Waited(5, cap) == 31 * MS
  {
    assert Delay(0, cap) == MS;
    assert Delay(1, cap) == 2 * MS;
    assert Delay(2, cap) == 4 * MS;
    assert Delay(3, cap) == 8 * MS;
    assert Delay(4, cap) == 16 * MS;
    assert Delay(5, cap) == cap;
    assert Waited(0, cap) == 0;
    assert Waited(1, cap) == MS;
    assert Waited(2, cap) == 3 * MS;
    assert Waited(3, cap) == 7 * MS;
    assert Waited(4, cap) == 15 * MS;
  }

  lemma {:induction false} DelaySettles(k: nat, cap: int)
    requires k >= 5 && (cap == 20 * MS || cap == 32 * MS)
    ensures Delay(k, cap) == cap && Waited(k, cap) == 31 * MS + cap * (k - 5)
  {
    if k == 5 {
      FirstDelays(cap);
    } else {
      DelaySettles(k - 1, cap);
    }
  }

  lemma {:induction false} WaitedGrows(j: nat, k: nat, cap: int)
    requires j <= k && cap > 0
    ensures Waited(j, cap) <= Waited(k, cap) && Delay(k, cap) > 0
  {
    if j < k {
      WaitedGrows(j, k - 1, cap);
    } else if k > 0 {
      WaitedGrows(k - 1, k - 1, cap);
    }
  }

  /** 103 full delays fit into two seconds and 104 do not. */
  lemma DestroyRetriesBound(k: nat)
    ensures Waited(k, 20 * MS) < DESTROY_TIMEOUT <==> k <= 103
  {
    DelaySettles(103, 20 * MS);
    DelaySettles(104, 20 * MS);
    if k <= 103 { WaitedGrows(k, 103, 20 * MS); } else { WaitedGrows(104, k, 20 * MS); }
  }

  /** 160 delays fit into five seconds and 161 do not. */
  lemma DumpRetriesBound(k: nat)
    ensures Waited(k, 32 * MS) <= DUMP_TIMEOUT <==> k <= 160
    ensures Waited(161, 32 * MS) == 5023 * MS
  {
    DelaySettles(160, 32 * MS);
    DelaySettles(161, 32 * MS);
    if k <= 160 { WaitedGrows(k, 160, 32 * MS); } else { WaitedGrows(161, k, 32 * MS); }
  }

  /** What both loops promise: only in-use answers are retried, and the last answer is the result. */
  twostate predicate AnswersWith(world: World, code: int)
    reads world
  {
    && world.calls > old(world.calls)
    && code == world.codes(world.calls - 1)
    && forall k :: old(world.calls) <= k < world.calls - 1 ==> world.codes(k) == ERROR_IN_USE
  }

  /** Sleeps for the backoff, but not past the deadline, and doubles it up to 20 ms. */
  method Pause(world: World, deadline: int, backoff: int, ghost n: nat) returns (next: int)
    requires 0 < backoff == Delay(n, 20 * MS)
    modifies world`now, world`ticks, world`slept
    ensures next == Delay(n + 1, 20 * MS)
    ensures 0 <= world.slept - old(world.slept) <= backoff
    ensures old(world.now) < deadline ==> world.slept - old(world.slept) <= deadline - old(world.now)
    ensures world.now >= old(world.now) + (world.slept - old(world.slept))
    ensures world.now >= deadline || world.now >= old(world.now) + backoff
    ensures Stuck(world) && old(world.now) < deadline ==>
              && world.now == old(world.now) + (world.slept - old(world.slept))
              && (|| world.now == old(world.now) + backoff
                  || (world.now == deadline && deadline < old(world.now) + backoff))
  {
    var read := world.Now();
    var remaining := deadline - read;
    var delay := backoff;
    if delay > remaining {
      delay := remaining;
    }
    world.Sleep(delay);
    next := backoff;
    if next < 20 * MS {
      next := next * 2;
      if next > 20 * MS {
        next := 20 * MS;
      }
    }
  }

  /** Where the clock and the sleep stand after `n` full rounds; `stuck` is when every answer is in-use, at once. */
  predicate Paced(n: nat, elapsed: int, slept: int, stuck: bool) {
    && (elapsed >= Waited(n, 20 * MS) || elapsed >= DESTROY_TIMEOUT)
    && slept <= elapsed && slept <= DESTROY_TIMEOUT
    && (stuck ==> slept == elapsed == if n <= 103 then Waited(n, 20 * MS) else DESTROY_TIMEOUT)
  }

  /** Before the deadline at most 103 rounds are over. */
  lemma StillEarly(n: nat, elapsed: int, slept: int, stuck: bool)
    requires Paced(n, elapsed, slept, stuck)
    ensures elapsed < DESTROY_TIMEOUT ==> n <= 103 && Delay(n, 20 * MS) > 0
    ensures stuck && elapsed >= DESTROY_TIMEOUT ==> n >= 104 && slept == DESTROY_TIMEOUT
  {
    DestroyRetriesBound(n);
    WaitedGrows(n, n, 20 * MS);
  }

  /** One more round: a sleep of the backoff, cut off at the deadline. */
  lemma PaceGoesOn(n: nat, elapsed: int, slept: int, stuck: bool, later: int, more: int)
    requires Paced(n, elapsed, slept, stuck) && elapsed < DESTROY_TIMEOUT
    requires 0 <= more <= Delay(n, 20 * MS) && more <= DESTROY_TIMEOUT - elapsed && later >= elapsed + more
    requires later >= DESTROY_TIMEOUT || later >= elapsed + Delay(n, 20 * MS)
    requires stuck ==> later == elapsed + more
    requires stuck ==> later == elapsed + Delay(n, 20 * MS)
                       || (later == DESTROY_TIMEOUT && DESTROY_TIMEOUT < elapsed + Delay(n, 20 * MS))
    ensures Paced(n + 1, later, slept + more, stuck)
  {
    DestroyRetriesBound(n);
    DestroyRetriesBound(n + 1);
  }

  /** One round of the loop: a destroy, and a pause when it is in use before the deadline. */
  method Round(world: World, deadline: int, backoff: int, ghost n: nat, ghost t: int, ghost before: int)
    returns (code: int, done: bool, next: int)
    requires deadline == t + DESTROY_TIMEOUT && backoff == Delay(n, 20 * MS)
    requires Paced(n, world.now - t, world.slept - before, Stuck(world))
    modifies world
    ensures world.calls == old(world.calls) + 1 && code == world.codes(old(world.calls))
    ensures if done then world.slept == old(world.slept)
            else n <= 103 && next == Delay(n + 1, 20 * MS) && code == ERROR_IN_USE
                 && Paced(n + 1, world.now - t, world.slept - before, Stuck(world))
    ensures done && code == ERROR_IN_USE ==> world.now >= deadline
    ensures done && Stuck(world) ==> n >= 104 && world.slept - before == DESTROY_TIMEOUT
  {
    next := backoff;
    code := world.Destroy();
    StillEarly(n, old(world.now) - t, world.slept - before, Stuck(world));
    if code != ERROR_IN_USE {
      return code, true, next;
    }
    var checked := world.Now();
    if checked >= deadline {
      return code, true, next;
    }
    ghost var (resumed, slept) := (world.now, world.slept);
    next := Pause(world, deadline, backoff, n);
    done := false;
    PaceGoesOn(n, resumed - t, slept - before, Stuck(world), world.now - t, world.slept - slept);
  }

  method DestroyAfterTerminal(world: World) returns (code: int)
    modifies world
    ensures AnswersWith(world, code)
    ensures world.calls - old(world.calls) <= 105
    ensures world.slept - old(world.slept) <= DESTROY_TIMEOUT
    ensures code == ERROR_IN_USE ==> world.now >= old(world.now) + DESTROY_TIMEOUT
    ensures Stuck(world) ==> world.calls - old(world.calls) == 105 && world.slept - old(world.slept) == DESTROY_TIMEOUT
  {
    var t := world.Now();
    var deadline := t + DESTROY_TIMEOUT;
    var backoff, done := MS, false;
    ghost var n := 0;
    while true
      invariant 0 <= n <= 104 && world.calls == old(world.calls) + n
      invariant backoff == Delay(n, 20 * MS)
      invariant forall k :: old(world.calls) <= k < world.calls ==> world.codes(k) == ERROR_IN_USE
      invariant Paced(n, world.now - t, world.slept - old(world.slept), Stuck(world))
      decreases 104 - n
    {
      code, done, backoff := Round(world, deadline, backoff, n, t, old(world.slept));
      if done {
        return;
      }
      n := n + 1;
    }
  }

  lemma {:induction false} DelayStaysSmall(k: nat)
    ensures Delay(k, 32 * MS) < 20 * MS ==> 2 * Delay(k, 32 * MS) <= 32 * MS
  {
    if k >= 5 {
      DelaySettles(k, 32 * MS);
    } else {
      FirstDelays(32 * MS);
    }
  }

  /** Where the clock and the sleep of a dump's close stand after `n` rounds. */
  predicate DumpPaced(n: nat, elapsed: int, slept: int, stuck: bool) {
    slept == Waited(n, 32 * MS) <= elapsed && (stuck ==> elapsed == slept)
  }

  lemma DumpBounds(n: nat, elapsed: int, slept: int, stuck: bool)
    requires DumpPaced(n, elapsed, slept, stuck)
    ensures n <= 161 ==> slept <= 5023 * MS
    ensures elapsed <= DUMP_TIMEOUT ==> n <= 160
    ensures stuck && elapsed > DUMP_TIMEOUT ==> n >= 161
    ensures Waited(161, 32 * MS) == 5023 * MS
    ensures Delay(n, 32 * MS) > 0 && (Delay(n, 32 * MS) < 20 * MS ==> 2 * Delay(n, 32 * MS) <= 32 * MS)
  {
    DumpRetriesBound(n);
    WaitedGrows(n, n, 32 * MS);
    DelayStaysSmall(n);
    if n <= 161 {
      WaitedGrows(n, 161, 32 * MS);
    }
  }

  /** One round of the loop: a destroy, and a sleep of the whole delay when it is in use before the deadline. */
  method DumpRound(world: World, deadline: int, delay: int, ghost n: nat, ghost t: int, ghost before: int)
    returns (code: int, done: bool, next: int)
    requires deadline == t + DUMP_TIMEOUT && delay == Delay(n, 32 * MS) && n <= 161
    requires DumpPaced(n, world.now - t, world.slept - before, Stuck(world))
    modifies world
    ensures world.calls == old(world.calls) + 1 && code == world.codes(old(world.calls))
    ensures if done then world.slept == old(world.slept) && world.slept - before <= 5023 * MS
            else n <= 160 && next == Delay(n + 1, 32 * MS) && code == ERROR_IN_USE
                 && DumpPaced(n + 1, world.now - t, world.slept - before, Stuck(world))
    ensures done && code == ERROR_IN_USE ==> world.now > deadline
    ensures done && Stuck(world) ==> n == 161 && world.slept - before == 5023 * MS
  {
    next := delay;
    code := world.Destroy();
    DumpBounds(n, world.now - t, world.slept - before, Stuck(world));
    if code != ERROR_IN_USE {
      return code, true, next;
    }
    var checked := world.Now();
    DumpBounds(n, world.now - t, world.slept - before, Stuck(world));
    if checked > deadline {
      return code, true, next;
    }
    world.Sleep(delay);
    done := false;
    if next < 20 * MS {
      next := next * 2;
    }
  }

  method CloseRawDumpNative(world: World) returns (code: int)
    modifies world
    ensures AnswersWith(world, code)
    ensures world.calls - old(world.calls) <= 162
    ensures world.slept - old(world.slept) <= 5023 * MS
    ensures code == ERROR_IN_USE ==> world.now > old(world.now) + DUMP_TIMEOUT
    ensures Stuck(world) ==> world.calls - old(world.calls) == 162 && world.slept - old(world.slept) == 5023 * MS
  {
    var t := world.Now();
    var deadline := t + DUMP_TIMEOUT;
    var delay, done := MS, false;
    ghost var n := 0;
    while true
      invariant 0 <= n <= 161 && world.calls == old(world.calls) + n
      invariant delay == Delay(n, 32 * MS)
      invariant forall k :: old(world.calls) <= k < world.calls ==> world.codes(k) == ERROR_IN_USE
      invariant DumpPaced(n, world.now - t, world.slept - old(world.slept), Stuck(world))
      decreases 161 - n
    {
      code, done, delay := DumpRound(world, deadline, delay, n, t, old(world.slept));
      if done {
        return;
      }
      n := n + 1;
    }
  }
}

/** A raw dump handle: its archive is fetched once and kept; its native side is destroyed at most once. */
module RawDumps {
  import opened Common
  import opened Backoff

  datatype Stopped = Archive(value: int) | Failed(error: Error)

  /** The native dump: stop answers a code and an archive; destroy answers through its world. */
  class NativeDump {
    const world: World
    const stopCodes: nat -> int
    const archives: nat -> int
    var stops: nat
    ghost var destroyed: nat

    constructor (world: World, stopCodes: nat -> int, archives: nat -> int)
      ensures this.world == world && stops == 0 && destroyed == 0
    {
      this.world, this.stopCodes, this.archives, stops, destroyed := world, stopCodes, archives, 0, 0;
    }

    method Stop() returns (archive: int, code: int)
      modifies this`stops
      ensures stops == old(stops) + 1 && code == stopCodes(old(stops)) && archive == archives(old(stops))
    {
      archive, code := archives(stops), stopCodes(stops);
      stops := stops + 1;
    }

    method Close() returns (code: int)
      modifies this`destroyed, world
      ensures destroyed == old(destroyed) + (if code == 0 then 1 else 0)
      ensures world.calls <= old(world.calls) + 162
    {
      code := CloseRawDumpNative(world);
      if code == 0 {
        destroyed := destroyed + 1;
      }
    }
  }

  class RawDump {
    var native: NativeDump?
    var archive: Option<int>
    var closed: bool
    ghost const handle: NativeDump

    ghost predicate Valid()
      reads this, handle
    {
      && native == (if closed then null else handle)
      && handle.destroyed == (if closed then 1 else 0)
    }

    constructor (native: NativeDump)
      requires native.destroyed == 0
      ensures Valid() && !closed && archive == None && handle == native
    {
      this.native, this.handle, archive, closed := native, native, None, false;
    }

    /** A successful stop is final: later stops return the same archive without a native call, even after Close. */
    method Stop() returns (result: Stopped)
      requires Valid()
      modifies this`archive, handle`stops
      ensures Valid()
      ensures old(archive).Some? ==>
                result == Archive(old(archive).value) && archive == old(archive) && handle.stops == old(handle.stops)
      ensures old(archive).None? && closed ==>
                result == Failed(Closed) && archive == None && handle.stops == old(handle.stops)
      ensures old(archive).None? && !closed ==>
        && handle.stops == old(handle.stops) + 1
        && var code, value := handle.stopCodes(old(handle.stops)), handle.archives(old(handle.stops));
           if code == 0 then result == Archive(value) && archive == Some(value)
           else result == Failed(OutcomeOf(code).error) && archive == None
    {
      if archive.Some? {
        return Archive(archive.value);
      }
      if closed || native == null {
        return Failed(Error.Closed);
      }
      var value, code := native.Stop();
      if code != 0 {
        return Failed(OutcomeOf(code).error);
      }
      archive := Some(value);
      return Archive(value);
    }

    /**
     Closing again is a no-op; a failed close leaves the handle usable; a close that releases may still report the
     failed stop.
     */
    method Close() returns (stopped: Outcome, destroyed: Outcome)
      requires Valid()
      modifies this, handle, handle.world
      ensures Valid()
      ensures old(closed) ==> closed && destroyed == Ok && stopped == Ok && unchanged(handle) && unchanged(handle.world)
      ensures old(archive).Some? ==> archive == old(archive)
      ensures !old(closed) ==> (closed <==> destroyed == Ok)
      ensures !old(closed) ==> (stopped == Ok <==> archive.Some?)
    {
      var result := Stop();
      stopped := if result.Archive? then Ok else Err(result.error);
      if closed {
        return Ok, Ok;
      }
      var code := native.Close();
      destroyed := OutcomeOf(code);
      if code == 0 {
        closed, native := true, null;
      }
    }
  }
}
