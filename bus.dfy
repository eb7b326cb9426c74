/** The register bus as the driver sees it: a file of 256 byte registers,
    the log of transfers attempted so far, and the status bytes the device
    will post while the driver waits.  A failure oracle, a set of attempt
    numbers, decides which transfers fail: attempt `n` (counting from 0
    over the device's whole life) fails iff `n` is in it.

    `Exec` runs a fixed sequence of transfers the way the driver's `?`
    chains do: in order, stopping at the first failed transfer.  A failed
    write leaves the register file as it was. */
module Bus {
  import opened Registers
  import opened Fields

  datatype Error = BusError | InvalidGain

  datatype Result<T> = Ok(value: T) | Err(error: Error)
  {
    predicate IsFailure() { Err? }

    function PropagateFailure<U>(): Result<U>
      requires Err?
    {
      Err(error)
    }

    function Extract(): T
      requires Ok?
    {
      value
    }
  }

  /** Outcome of something that may still be polling when its fuel runs out. */
  datatype Wait<T> = Done(result: Result<T>) | Pending

  type RegFile = s: seq<Byte> | |s| == 256 witness seq(256, _ => 0)

  /** One addressed bus transaction: a read of `len` consecutive registers
      starting at `reg`, or a single-register write. */
  datatype Transfer = Read(reg: Addr, len: nat) | Write(reg: Addr, value: Byte)

  datatype Bus = Bus(regs: RegFile, trace: seq<Transfer>, feed: seq<Byte>)

  datatype Run = Run(bus: Bus, ok: bool)

  /** The state after a transfer that went through. */
  function Perform(b: Bus, t: Transfer): (b': Bus)
    ensures b'.trace == b.trace + [t] && b'.feed == b.feed
    ensures b'.regs == if t.Write? then b.regs[t.reg := t.value] else b.regs
  {
    match t
    case Read(_, _) => b.(trace := b.trace + [t])
    case Write(a, v) => b.(regs := b.regs[a := v], trace := b.trace + [t])
  }

  function Exec(b: Bus, faults: set<nat>, s: seq<Transfer>): Run
    decreases |s|
  {
    if s == [] then Run(b, true)
    else if |b.trace| in faults then Run(b.(trace := b.trace + [s[0]]), false)
    else Exec(Perform(b, s[0]), faults, s[1..])
  }

  /** The register file after the writes of `s` land, in order. */
  function Applied(regs: RegFile, s: seq<Transfer>): RegFile
    decreases |s|
  {
    if s == [] then regs
    else Applied(if s[0].Write? then regs[s[0].reg := s[0].value] else regs, s[1..])
  }

  /** How many of `len` consecutive transfers, the first being attempt
      number `n`, go through before one fails. */
  function Completed(faults: set<nat>, n: nat, len: nat): (k: nat)
    ensures k <= len
    ensures forall i :: n <= i < n + k ==> i !in faults
    ensures k < len ==> n + k in faults
    decreases len
  {
    if len == 0 || n in faults then 0 else 1 + Completed(faults, n + 1, len - 1)
  }

  /** How many of the transfers are attempted: those that went through and the one that failed. */
  function Attempted(k: nat, len: nat): nat
  {
    if k < len then k + 1 else len
  }

  /** `Exec` against a reference description: with `k` transfers going
      through, the run succeeds iff `k` is all of them, the first `k + 1`
      are attempted (all of them when none fails), and the writes among
      the first `k` land. */
  lemma ExecPrefix(b: Bus, faults: set<nat>, s: seq<Transfer>)
    ensures var k := Completed(faults, |b.trace|, |s|);
            var run := Exec(b, faults, s);
            && run.ok == (k == |s|)
            && run.bus.trace == b.trace + s[..Attempted(k, |s|)]
            && run.bus.regs == Applied(b.regs, s[..k])
            && run.bus.feed == b.feed
  {
    ExecOk(b, faults, s);
    ExecTrace(b, faults, s);
    ExecRegs(b, faults, s);
  }

  lemma {:induction false} ExecOk(b: Bus, faults: set<nat>, s: seq<Transfer>)
    ensures Exec(b, faults, s).ok == (Completed(faults, |b.trace|, |s|) == |s|)
    decreases |s|
  {
    if s != [] && |b.trace| !in faults {
      ExecOk(Perform(b, s[0]), faults, s[1..]);
    }
  }

  lemma {:induction false} ExecTrace(b: Bus, faults: set<nat>, s: seq<Transfer>)
    ensures var run := Exec(b, faults, s);
            && run.bus.trace == b.trace + s[..Attempted(Completed(faults, |b.trace|, |s|), |s|)]
            && run.bus.feed == b.feed
    decreases |s|
  {
    if s == [] {
    } else if |b.trace| in faults {
      assert Completed(faults, |b.trace|, |s|) == 0;
      assert s[..1] == [s[0]];
    } else {
      var b1 := Perform(b, s[0]);
      assert Exec(b, faults, s) == Exec(b1, faults, s[1..]);
      ExecTrace(b1, faults, s[1..]);
      var k1 := Completed(faults, |b1.trace|, |s| - 1);
      var m1 := Attempted(k1, |s| - 1);
      assert Completed(faults, |b.trace|, |s|) == k1 + 1;
      assert Attempted(k1 + 1, |s|) == m1 + 1;
      PrefixCons(s, m1);
      ConsAssoc(b.trace, s[0], s[1..][..m1]);
    }
  }

  lemma ConsAssoc(t: seq<Transfer>, x: Transfer, u: seq<Transfer>)
    ensures (t + [x]) + u == t + ([x] + u)
  {
  }

  lemma {:induction false} ExecRegs(b: Bus, faults: set<nat>, s: seq<Transfer>)
    ensures Exec(b, faults, s).bus.regs == Applied(b.regs, s[..Completed(faults, |b.trace|, |s|)])
    decreases |s|
  {
    if s == [] {
    } else if |b.trace| in faults {
    } else {
      var b1 := Perform(b, s[0]);
      ExecRegs(b1, faults, s[1..]);
      var k1 := Completed(faults, |b1.trace|, |s| - 1);
      assert Completed(faults, |b.trace|, |s|) == k1 + 1;
      PrefixCons(s, k1);
      AppliedCons(b.regs, s[0], s[1..][..k1]);
    }
  }

  lemma PrefixCons(s: seq<Transfer>, m: nat)
    requires m < |s|
    ensures s[..m + 1] == [s[0]] + s[1..][..m]
  {
  }

  lemma AppliedCons(regs: RegFile, t: Transfer, rest: seq<Transfer>)
    ensures Applied(regs, [t] + rest)
         == Applied(if t.Write? then regs[t.reg := t.value] else regs, rest)
  {
    assert ([t] + rest)[0] == t;
    assert ([t] + rest)[1..] == rest;
  }

  /** Running two scripts one after the other is running their concatenation. */
  lemma {:induction false} ExecAppend(b: Bus, faults: set<nat>, s1: seq<Transfer>, s2: seq<Transfer>)
    ensures var r1 := Exec(b, faults, s1);
            Exec(b, faults, s1 + s2) == if r1.ok then Exec(r1.bus, faults, s2) else r1
    decreases |s1|
  {
    if s1 == [] {
      assert s1 + s2 == s2;
    } else {
      assert (s1 + s2)[0] == s1[0];
      assert (s1 + s2)[1..] == s1[1..] + s2;
      if |b.trace| !in faults {
        ExecAppend(Perform(b, s1[0]), faults, s1[1..], s2);
      }
    }
  }

  /** A register that no transfer of `s` writes is the same after any run of `s`. */
  lemma {:induction false} ExecKeeps(b: Bus, faults: set<nat>, s: seq<Transfer>, a: Addr)
    requires forall i :: 0 <= i < |s| ==> !(s[i].Write? && s[i].reg == a)
    ensures Exec(b, faults, s).bus.regs[a] == b.regs[a]
    ensures Exec(b, faults, s).bus.feed == b.feed
    decreases |s|
  {
    if s != [] && |b.trace| !in faults {
      ExecKeeps(Perform(b, s[0]), faults, s[1..], a);
    }
  }

  /** A read-modify-write of register `a`: read it, write back `written`. */
  function Rmw(a: Addr, written: Byte): seq<Transfer>
  {
    [Read(a, 1), Write(a, written)]
  }

  /** A read-modify-write lands its byte and nothing else when both
      transfers go through, and changes no register otherwise. */
  lemma RmwEffect(b: Bus, faults: set<nat>, a: Addr, written: Byte)
    ensures var run := Exec(b, faults, Rmw(a, written));
            && run.ok == (|b.trace| !in faults && |b.trace| + 1 !in faults)
            && run.bus.regs == (if run.ok then b.regs[a := written] else b.regs)
            && run.bus.feed == b.feed
  {
    var s := Rmw(a, written);
    assert s[1..] == [Write(a, written)];
    if |b.trace| !in faults {
      assert Exec(b, faults, s) == Exec(Perform(b, s[0]), faults, [Write(a, written)]);
    }
  }
}
