/** `wait_for_data(wait_time)`: poll STATUS_2 for data-ready, pausing 1 ms
    between polls.  The pause is where the device may post a new STATUS_2
    value; the model takes those values from the bus's `feed`, one per
    pause.  The unbounded loop (`wait_time == 0`) may poll for ever, so it is
    given `fuel`, a number of polls, and reports `Pending` when that runs
    out. */
module Polling {
  import opened Registers
  import opened Fields
  import opened Bus
  import opened Transfers
  import opened Config

  /** `FreeRtos::delay_ms(1)`: no transfer; the device posts the next status
      byte of the feed into STATUS_2, or nothing once the feed is spent. */
  function Tick(b: Bus): (b': Bus)
    ensures b'.trace == b.trace
    ensures b'.regs == if b.feed == [] then b.regs else b.regs[REG_STATUS_2 := b.feed[0]]
  {
    if b.feed == [] then b else b.(regs := b.regs[REG_STATUS_2 := b.feed[0]], feed := b.feed[1..])
  }

  /** The STATUS_2 value the poll numbered `j` (from 0) reads, when STATUS_2
      holds `s0` and the device has `feed` still to post. */
  function StatusAt(s0: Byte, feed: seq<Byte>, j: nat): Byte
    decreases j
  {
    if j == 0 || feed == [] then s0 else StatusAt(feed[0], feed[1..], j - 1)
  }

  /** The first `k` polls from attempt `n` on all go through and find no data ready. */
  predicate Quiet(f: set<nat>, n: nat, s0: Byte, feed: seq<Byte>, k: nat)
  {
    forall j: nat :: j < k ==> QuietAt(f, n, s0, feed, j)
  }

  /** Poll `j` of a run starting at attempt `n` goes through and finds no data ready. */
  predicate QuietAt(f: set<nat>, n: nat, s0: Byte, feed: seq<Byte>, j: nat)
  {
    n + j !in f && !DataReady(StatusAt(s0, feed, j))
  }

  /** The state in which the next poll starts after a poll that found no data. */
  function AfterPoll(b: Bus): Bus
  {
    Tick(b.(trace := b.trace + [Read(REG_STATUS_2, 1)]))
  }

  /** Poll `j + 1` from `b` reads what poll `j` reads from the state after the first poll. */
  lemma StatusShift(b: Bus, j: nat)
    ensures StatusAt(b.regs[REG_STATUS_2], b.feed, j + 1)
         == StatusAt(AfterPoll(b).regs[REG_STATUS_2], AfterPoll(b).feed, j)
  {
    var b' := AfterPoll(b);
    if b.feed == [] {
      assert b'.regs[REG_STATUS_2] == b.regs[REG_STATUS_2] && b'.feed == [];
      assert StatusAt(b.regs[REG_STATUS_2], b.feed, j + 1) == b.regs[REG_STATUS_2];
      assert StatusAt(b'.regs[REG_STATUS_2], b'.feed, j) == b.regs[REG_STATUS_2];
    } else {
      assert b'.regs[REG_STATUS_2] == b.feed[0] && b'.feed == b.feed[1..];
    }
  }

  lemma QuietAfterPoll(b: Bus, f: set<nat>, k: nat)
    requires Quiet(f, |b.trace|, b.regs[REG_STATUS_2], b.feed, k + 1)
    ensures var b' := AfterPoll(b);
            Quiet(f, |b'.trace|, b'.regs[REG_STATUS_2], b'.feed, k)
  {
    var b' := AfterPoll(b);
    var n := |b.trace|;
    assert |b'.trace| == n + 1;
    forall j: nat | j < k
      ensures QuietAt(f, |b'.trace|, b'.regs[REG_STATUS_2], b'.feed, j)
    {
      var j1: nat := j + 1;
      assert QuietAt(f, n, b.regs[REG_STATUS_2], b.feed, j1);
      StatusShift(b, j);
    }
  }

  /** The first of a run of quiet polls. */
  lemma QuietFirst(f: set<nat>, n: nat, s0: Byte, feed: seq<Byte>, k: nat)
    requires k > 0 && Quiet(f, n, s0, feed, k)
    ensures n !in f && !DataReady(s0)
  {
    assert QuietAt(f, n, s0, feed, 0);
  }

  /** The `wait_time == 0` loop with `fuel` polls. */
  function PollForever(b: Bus, f: set<nat>, fuel: nat): Outcome<Wait<bool>>
    decreases fuel
  {
    if fuel == 0 then Outcome(b, Pending) else
    var o := IsDataReadySpec(b, f);
    if o.result.Err? then Outcome(o.bus, Done(Err(o.result.error)))
    else if o.result.value then Outcome(o.bus, Done(Ok(true)))
    else PollForever(Tick(o.bus), f, fuel - 1)
  }

  /** The `wait_time > 0` loop as written: `let count = count + 1` binds a
      new `count` each time round from the outer one, which stays 0, so the
      count compared with `wait_time` is always 1. */
  function PollShadowed(b: Bus, f: set<nat>, waitTime: nat, fuel: nat): Outcome<Wait<bool>>
    decreases fuel
  {
    if fuel == 0 then Outcome(b, Pending) else
    var o := IsDataReadySpec(b, f);
    if o.result.Err? then Outcome(o.bus, Done(Err(o.result.error)))
    else if o.result.value then Outcome(o.bus, Done(Ok(true)))
    else
      var count := 1;
      if count > waitTime then Outcome(Tick(o.bus), Done(Ok(false)))
      else PollShadowed(Tick(o.bus), f, waitTime, fuel - 1)
  }

  /** The `wait_time > 0` loop with one counter carried round the loop: it
      gives up after the poll that brings the count past `wait_time`. */
  function PollBounded(b: Bus, f: set<nat>, waitTime: nat, count: nat): Outcome<Result<bool>>
    requires count <= waitTime
    decreases waitTime - count
  {
    var o := IsDataReadySpec(b, f);
    if o.result.Err? then Outcome(o.bus, Err(o.result.error))
    else if o.result.value then Outcome(o.bus, Ok(true))
    else if count + 1 > waitTime then Outcome(Tick(o.bus), Ok(false))
    else PollBounded(Tick(o.bus), f, waitTime, count + 1)
  }

  /** `wait_for_data(wait_time)` as written. */
  function WaitForDataAsWrittenSpec(b: Bus, f: set<nat>, waitTime: nat, fuel: nat): Outcome<Wait<bool>>
  {
    if waitTime == 0 then PollForever(b, f, fuel) else PollShadowed(b, f, waitTime, fuel)
  }

  /** `wait_for_data(wait_time)` with the counter carried round the loop. */
  function WaitForDataSpec(b: Bus, f: set<nat>, waitTime: nat, fuel: nat): Outcome<Wait<bool>>
  {
    if waitTime == 0 then PollForever(b, f, fuel)
    else var o := PollBounded(b, f, waitTime, 0); Outcome(o.bus, Done(o.result))
  }

  /** The unbounded loop stops at the first poll that fails or finds data
      ready: with an error in the first case, with true in the second, after
      exactly that many polls. */
  lemma {:induction false} PollForeverFirstReady(b: Bus, f: set<nat>, fuel: nat, k: nat)
    requires k < fuel
    requires Quiet(f, |b.trace|, b.regs[REG_STATUS_2], b.feed, k)
    requires |b.trace| + k in f || DataReady(StatusAt(b.regs[REG_STATUS_2], b.feed, k))
    ensures var o := PollForever(b, f, fuel);
            && o.result == Done(if |b.trace| + k in f then Err(BusError) else Ok(true))
            && |o.bus.trace| == |b.trace| + k + 1
    decreases k
  {
    ReadFieldEffect(b, f, REG_STATUS_2, DataReady);
    if k > 0 {
      QuietFirst(f, |b.trace|, b.regs[REG_STATUS_2], b.feed, k);
      var b' := AfterPoll(b);
      QuietAfterPoll(b, f, k - 1);
      assert StatusAt(b.regs[REG_STATUS_2], b.feed, k) == StatusAt(b'.regs[REG_STATUS_2], b'.feed, k - 1);
      PollForeverFirstReady(b', f, fuel - 1, k - 1);
    }
  }

  /** When none of the `fuel` polls fails or finds data, the unbounded loop
      is still waiting after all of them. */
  lemma {:induction false} PollForeverPending(b: Bus, f: set<nat>, fuel: nat)
    requires Quiet(f, |b.trace|, b.regs[REG_STATUS_2], b.feed, fuel)
    ensures var o := PollForever(b, f, fuel);
            o.result == Pending && |o.bus.trace| == |b.trace| + fuel
    decreases fuel
  {
    if fuel > 0 {
      ReadFieldEffect(b, f, REG_STATUS_2, DataReady);
      QuietFirst(f, |b.trace|, b.regs[REG_STATUS_2], b.feed, fuel);
      QuietAfterPoll(b, f, fuel - 1);
      PollForeverPending(AfterPoll(b), f, fuel - 1);
    }
  }

  /** When the unbounded loop answers true, its last transfer is a read of
      STATUS_2 that went through, and the byte it found (still in STATUS_2,
      as no pause follows it) has data-ready set. */
  lemma {:induction false} PollForeverReadyLast(b: Bus, f: set<nat>, fuel: nat)
    ensures var o := PollForever(b, f, fuel);
            o.result.Done? && o.result.result.Ok? ==>
              && o.result.result.value
              && |b.trace| < |o.bus.trace|
              && o.bus.trace[|o.bus.trace| - 1] == Read(REG_STATUS_2, 1)
              && |o.bus.trace| - 1 !in f
              && DataReady(o.bus.regs[REG_STATUS_2])
    decreases fuel
  {
    if fuel > 0 {
      ReadFieldEffect(b, f, REG_STATUS_2, DataReady);
      var o := IsDataReadySpec(b, f);
      if o.result.Ok? && !o.result.value {
        PollForeverReadyLast(Tick(o.bus), f, fuel - 1);
      }
    }
  }

  /** The unbounded loop never answers false. */
  lemma {:induction false} PollForeverNeverFalse(b: Bus, f: set<nat>, fuel: nat)
    ensures PollForever(b, f, fuel).result != Done(Ok(false))
    decreases fuel
  {
    if fuel > 0 {
      var o := IsDataReadySpec(b, f);
      if o.result.Ok? && !o.result.value {
        PollForeverNeverFalse(Tick(o.bus), f, fuel - 1);
      }
    }
  }

  /** As written, for every `wait_time > 0` the bounded loop is the unbounded loop. */
  lemma {:induction false} ShadowedIsForever(b: Bus, f: set<nat>, waitTime: nat, fuel: nat)
    requires waitTime > 0
    ensures PollShadowed(b, f, waitTime, fuel) == PollForever(b, f, fuel)
    decreases fuel
  {
    if fuel > 0 {
      var o := IsDataReadySpec(b, f);
      if o.result.Ok? && !o.result.value {
        ShadowedIsForever(Tick(o.bus), f, waitTime, fuel - 1);
      }
    }
  }

  /** So `wait_for_data` as written never times out: whatever the wait time
      and however many polls it is given, it never returns false. */
  lemma WaitForDataAsWrittenNeverTimesOut(b: Bus, f: set<nat>, waitTime: nat, fuel: nat)
    ensures WaitForDataAsWrittenSpec(b, f, waitTime, fuel).result != Done(Ok(false))
  {
    if waitTime > 0 {
      ShadowedIsForever(b, f, waitTime, fuel);
    }
    PollForeverNeverFalse(b, f, fuel);
  }

  /** The bounded loop stops at the first poll that fails or finds data ready,
      as the unbounded loop does, while that poll is within the bound. */
  lemma {:induction false} PollBoundedFirstReady(b: Bus, f: set<nat>, waitTime: nat, count: nat, k: nat)
    requires count <= waitTime && k <= waitTime - count
    requires Quiet(f, |b.trace|, b.regs[REG_STATUS_2], b.feed, k)
    requires |b.trace| + k in f || DataReady(StatusAt(b.regs[REG_STATUS_2], b.feed, k))
    ensures var o := PollBounded(b, f, waitTime, count);
            && o.result == (if |b.trace| + k in f then Err(BusError) else Ok(true))
            && |o.bus.trace| == |b.trace| + k + 1
    decreases k
  {
    ReadFieldEffect(b, f, REG_STATUS_2, DataReady);
    if k > 0 {
      QuietFirst(f, |b.trace|, b.regs[REG_STATUS_2], b.feed, k);
      var b' := AfterPoll(b);
      QuietAfterPoll(b, f, k - 1);
      assert StatusAt(b.regs[REG_STATUS_2], b.feed, k) == StatusAt(b'.regs[REG_STATUS_2], b'.feed, k - 1);
      PollBoundedFirstReady(b', f, waitTime, count + 1, k - 1);
    }
  }

  /** The bounded loop answers false when `wait_time - count + 1` polls in a
      row go through without data, after exactly those polls. */
  lemma {:induction false} PollBoundedTimesOut(b: Bus, f: set<nat>, waitTime: nat, count: nat)
    requires count <= waitTime
    requires Quiet(f, |b.trace|, b.regs[REG_STATUS_2], b.feed, waitTime - count + 1)
    ensures var o := PollBounded(b, f, waitTime, count);
            o.result == Ok(false) && |o.bus.trace| == |b.trace| + waitTime - count + 1
    decreases waitTime - count
  {
    ReadFieldEffect(b, f, REG_STATUS_2, DataReady);
    QuietFirst(f, |b.trace|, b.regs[REG_STATUS_2], b.feed, waitTime - count + 1);
    if count < waitTime {
      QuietAfterPoll(b, f, waitTime - count);
      PollBoundedTimesOut(AfterPoll(b), f, waitTime, count + 1);
    }
  }

  /** `wait_for_data(n)` with `n > 0` returns false after `n + 1` polls that
      went through without data, and returns as the unbounded wait does
      when a poll within those fails or finds data. */
  lemma WaitForDataBounded(b: Bus, f: set<nat>, waitTime: nat, fuel: nat)
    requires waitTime > 0
    ensures var o := WaitForDataSpec(b, f, waitTime, fuel);
            Quiet(f, |b.trace|, b.regs[REG_STATUS_2], b.feed, waitTime + 1) ==>
              o.result == Done(Ok(false)) && |o.bus.trace| == |b.trace| + waitTime + 1
    ensures forall k: nat {:trigger StatusAt(b.regs[REG_STATUS_2], b.feed, k)} ::
              && k <= waitTime
              && Quiet(f, |b.trace|, b.regs[REG_STATUS_2], b.feed, k)
              && (|b.trace| + k in f || DataReady(StatusAt(b.regs[REG_STATUS_2], b.feed, k)))
              ==> WaitForDataSpec(b, f, waitTime, fuel).result
                  == Done(if |b.trace| + k in f then Err(BusError) else Ok(true))
  {
    if Quiet(f, |b.trace|, b.regs[REG_STATUS_2], b.feed, waitTime + 1) {
      PollBoundedTimesOut(b, f, waitTime, 0);
    }
    forall k: nat | k <= waitTime
               && Quiet(f, |b.trace|, b.regs[REG_STATUS_2], b.feed, k)
               && (|b.trace| + k in f || DataReady(StatusAt(b.regs[REG_STATUS_2], b.feed, k)))
      ensures WaitForDataSpec(b, f, waitTime, fuel).result
              == Done(if |b.trace| + k in f then Err(BusError) else Ok(true))
    {
      PollBoundedFirstReady(b, f, waitTime, 0, k);
    }
  }

  /** The smallest input that shows the difference: a one-poll wait on a
      device whose data never becomes ready.  As written the wait is still
      polling after any number of polls; with the counter carried it gives
      up with false after two. */
  lemma TimeoutCounterexample(regs: RegFile, fuel: nat)
    requires !DataReady(regs[REG_STATUS_2])
    ensures var b := Bus(regs, [], []);
            && WaitForDataAsWrittenSpec(b, {}, 1, fuel).result == Pending
            && WaitForDataSpec(b, {}, 1, fuel).result == Done(Ok(false))
  {
    var b := Bus(regs, [], []);
    forall j | 0 <= j
      ensures StatusAt(regs[REG_STATUS_2], [], j) == regs[REG_STATUS_2]
    {
    }
    assert Quiet({}, 0, regs[REG_STATUS_2], [], fuel);
    assert Quiet({}, 0, regs[REG_STATUS_2], [], 2);
    ShadowedIsForever(b, {}, 1, fuel);
    PollForeverPending(b, {}, fuel);
    PollBoundedTimesOut(b, {}, 1, 0);
  }

  /** Polling reads only STATUS_2 and it is the only register the device
      changes meanwhile: every other register is as it was. */
  lemma {:induction false} PollForeverKeeps(b: Bus, f: set<nat>, fuel: nat, a: Addr)
    requires a != REG_STATUS_2
    ensures var o := PollForever(b, f, fuel);
            && o.bus.regs[a] == b.regs[a]
            && |b.trace| <= |o.bus.trace|
            && o.bus.trace[..|b.trace|] == b.trace
    decreases fuel
  {
    if fuel > 0 {
      var o := IsDataReadySpec(b, f);
      ReadFieldEffect(b, f, REG_STATUS_2, DataReady);
      if o.result.Ok? && !o.result.value {
        var b' := Tick(o.bus);
        PollForeverKeeps(b', f, fuel - 1, a);
        var o' := PollForever(b', f, fuel - 1);
        assert o'.bus.trace[..|b.trace|] == o'.bus.trace[..|b'.trace|][..|b.trace|];
      }
    }
  }
}
