/** The driver's three bus primitives (`i2c_read_bytes`, `i2c_write_read_cmd`
    and `i2c_write_cmd`) as functions of the bus state, and the two shapes
    every register accessor is built from: read one register and return a
    function of it, or read one register and write back a function of it.

    An `Outcome` is the bus after an operation together with what the
    operation returned.  Each specification here is what the matching
    method of the driver class is proved to compute. */
module Transfers {
  import opened Registers
  import opened Bus

  datatype Outcome<R> = Outcome(bus: Bus, result: R)

  /** The early return of `?`: the state so far, and the error. */
  function Propagate<T, U>(o: Outcome<Result<T>>): (p: Outcome<Result<U>>)
    requires o.result.Err?
    ensures p.bus == o.bus && p.result == Err(o.result.error)
  {
    Outcome(o.bus, Err(o.result.error))
  }

  /** No attempt numbered `n` to `n + k - 1` fails. */
  predicate NoFaults(f: set<nat>, n: nat, k: nat)
  {
    forall i :: n <= i < n + k ==> i !in f
  }

  lemma NoFaultsSplit(f: set<nat>, n: nat, k1: nat, k2: nat)
    ensures NoFaults(f, n, k1 + k2) <==> NoFaults(f, n, k1) && NoFaults(f, n + k1, k2)
  {
    if NoFaults(f, n, k1) && NoFaults(f, n + k1, k2) {
      forall i | n <= i < n + k1 + k2
        ensures i !in f
      {
        if i >= n + k1 {
          assert n + k1 <= i < n + k1 + k2;
        }
      }
    }
  }

  /** Whatever an operation does in between, it only ever adds attempts to
      the log, reports an error only for a bus failure or a rejected gain,
      and reports success only when none of its attempts failed. */
  predicate ReportsFaults<T>(b: Bus, f: set<nat>, o: Outcome<Result<T>>)
  {
    && |b.trace| <= |o.bus.trace|
    && o.bus.trace[..|b.trace|] == b.trace
    && o.bus.feed == b.feed
    && (o.result.Err? && o.result.error == BusError <==> !NoFaults(f, |b.trace|, |o.bus.trace| - |b.trace|))
  }

  /** Reporting faults is preserved by running one operation after another
      (from where the first one left the bus) and returning a result that is
      a bus error iff either of theirs is. */
  lemma ReportsFaultsThen<T, U, V>(b: Bus, f: set<nat>, o1: Outcome<Result<T>>, o2: Outcome<Result<U>>, r: Result<V>)
    requires ReportsFaults(b, f, o1)
    requires ReportsFaults(o1.bus, f, o2)
    requires (r.Err? && r.error == BusError)
         <==> (o1.result.Err? && o1.result.error == BusError) || (o2.result.Err? && o2.result.error == BusError)
    ensures ReportsFaults(b, f, Outcome(o2.bus, r))
  {
    var n := |b.trace|;
    var k1 := |o1.bus.trace| - n;
    var k2 := |o2.bus.trace| - |o1.bus.trace|;
    NoFaultsSplit(f, n, k1, k2);
    assert o2.bus.trace[..n] == o1.bus.trace[..|o1.bus.trace|][..n];
  }

  /** `i2c_read_bytes(a, buf)` with `buf` of length `len`: one transfer
      reading `len` consecutive registers from `a`. */
  function ReadSpec(b: Bus, f: set<nat>, a: Addr, len: nat): (o: Outcome<Result<seq<Byte>>>)
    requires a + len <= 256
    ensures var run := Exec(b, f, [Read(a, len)]);
            o.bus == run.bus && o.result.Ok? == run.ok
    ensures o.result.Ok? ==> o.result.value == b.regs[a..a + len]
  {
    var b' := b.(trace := b.trace + [Read(a, len)]);
    if |b.trace| in f then Outcome(b', Err(BusError)) else Outcome(b', Ok(b.regs[a..a + len]))
  }

  /** A read into a one-byte buffer, returning `buf[0]`. */
  function ReadByteSpec(b: Bus, f: set<nat>, a: Addr): (o: Outcome<Result<Byte>>)
    ensures o.bus == b.(trace := b.trace + [Read(a, 1)])
    ensures o.result == if |b.trace| in f then Err(BusError) else Ok(b.regs[a])
  {
    var o := ReadSpec(b, f, a, 1);
    if o.result.Err? then Propagate(o) else Outcome(o.bus, Ok(o.result.value[0]))
  }

  /** `i2c_write_cmd(a, v)`: one transfer writing `v` to register `a`.  A
      failed write leaves the register as it was. */
  function WriteSpec(b: Bus, f: set<nat>, a: Addr, v: Byte): (o: Outcome<Result<()>>)
    ensures var run := Exec(b, f, [Write(a, v)]);
            o.bus == run.bus && o.result.Ok? == run.ok
    ensures o.result.Err? ==> o.result.error == BusError
  {
    if |b.trace| in f then Outcome(b.(trace := b.trace + [Write(a, v)]), Err(BusError))
    else Outcome(b.(regs := b.regs[a := v], trace := b.trace + [Write(a, v)]), Ok(()))
  }

  /** A getter: read register `a` and return `g` of the byte read. */
  function ReadFieldSpec<T>(b: Bus, f: set<nat>, a: Addr, g: Byte -> T): Outcome<Result<T>>
  {
    var o := ReadByteSpec(b, f, a);
    if o.result.Err? then Propagate(o) else Outcome(o.bus, Ok(g(o.result.value)))
  }

  /** A getter changes no register; it returns `g` of the register's
      current value unless its one transfer fails. */
  lemma ReadFieldEffect<T>(b: Bus, f: set<nat>, a: Addr, g: Byte -> T)
    ensures var o := ReadFieldSpec(b, f, a, g);
            && o.bus == b.(trace := b.trace + [Read(a, 1)])
            && o.result == (if |b.trace| in f then Err(BusError) else Ok(g(b.regs[a])))
            && ReportsFaults(b, f, o)
  {
  }

  /** A setter: read register `a`, write back `g` of the byte read. */
  function UpdateSpec(b: Bus, f: set<nat>, a: Addr, g: Byte -> Byte): Outcome<Result<()>>
  {
    var o := ReadByteSpec(b, f, a);
    if o.result.Err? then Propagate(o) else WriteSpec(o.bus, f, a, g(o.result.value))
  }

  /** A setter issues the read-modify-write of `a` and stops at its first
      failed transfer: it succeeds iff both transfers go through, and then
      register `a` holds `g` of its old value and no other register changes;
      otherwise no register changes. */
  lemma UpdateEffect(b: Bus, f: set<nat>, a: Addr, g: Byte -> Byte)
    ensures var o := UpdateSpec(b, f, a, g);
            && o.bus == Exec(b, f, Rmw(a, g(b.regs[a]))).bus
            && (o.result.Ok? <==> NoFaults(f, |b.trace|, 2))
            && o.bus.regs == (if o.result.Ok? then b.regs[a := g(b.regs[a])] else b.regs)
            && ReportsFaults(b, f, o)
  {
    var v := g(b.regs[a]);
    RmwEffect(b, f, a, v);
    var s := Rmw(a, v);
    assert s[1..] == [Write(a, v)];
    var o := UpdateSpec(b, f, a, g);
    if |b.trace| !in f {
      var b1 := Perform(b, s[0]);
      assert Exec(b, f, s) == Exec(b1, f, [Write(a, v)]);
      assert o.bus.trace[..|b.trace|] == b.trace;
    } else {
      assert o.bus.trace[..|b.trace|] == b.trace;
    }
  }
}
