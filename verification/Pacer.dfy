/** The UDP sender's token bucket: each gate call accounts its bits against a
    virtual start time, pulls that start forward after a stall, and sleeps when it
    is ahead of schedule. Time is exact; every clock reading is a parameter. */
module Pacing {
  import opened Wire

  /** Seconds. */
  const BURST_CAP: real := 0.1
  const MIN_SLEEP: real := 0.001

  /** The time at which `bits` bits are due at `rate` bits a second. */
  function Ideal(bits: nat, rate: nat): real
    requires rate > 0
  {
    bits as real / rate as real
  }

  /** The standard clock's checked subtraction: it fails before the clock's origin. */
  function CheckedSub(instant: real, d: real): Option<real> {
    if instant - d >= 0.0 then Some(instant - d) else None
  }

  /** The virtual start after the drift check: t0 is the reading of the check, t1 the
      reading taken for the new start. */
  function Rebased(start: real, ideal: real, t0: real, t1: real): real {
    if t0 - start > ideal + BURST_CAP then
      match CheckedSub(t1, ideal)
      case None => start
      case Some(t) => (match CheckedSub(t, BURST_CAP) case None => start case Some(u) => u)
    else start
  }

  /** When the call may return, given the second reading t2. */
  function Earliest(start: real, ideal: real, t2: real): real {
    if ideal - (t2 - start) > MIN_SLEEP then t2 + (ideal - (t2 - start)) else t2
  }

  datatype Bucket = Bucket(rate: nat, start: real, bits: nat)

  /** One gate call: its bits, its three clock readings and its return time. */
  datatype Call = Call(bits: nat, t0: real, t1: real, t2: real, back: real)

  function Gate(b: Bucket, c: Call): Bucket {
    if b.rate == 0 then b.(bits := b.bits + c.bits)
    else b.(bits := b.bits + c.bits, start := Rebased(b.start, Ideal(b.bits + c.bits, b.rate), c.t0, c.t1))
  }

  /** The earliest return of a call on bucket b. */
  function Due(b: Bucket, c: Call): real {
    if b.rate == 0 then c.t0
    else Earliest(Gate(b, c).start, Ideal(b.bits + c.bits, b.rate), c.t2)
  }

  function Calls(b: Bucket, cs: seq<Call>): Bucket
    decreases |cs|
  {
    if cs == [] then b else Calls(Gate(b, cs[0]), cs[1..])
  }

  /** A monotone clock, and no call returning before it is due. */
  ghost predicate Timed(b: Bucket, now: real, cs: seq<Call>)
    decreases |cs|
  {
    cs != [] ==>
      var c := cs[0];
      now <= c.t0 <= c.t1 <= c.t2 <= c.back && Due(b, c) <= c.back && Timed(Gate(b, c), c.back, cs[1..])
  }

  function LastReturn(now: real, cs: seq<Call>): real {
    if cs == [] then now else cs[|cs| - 1].back
  }

  // ----- one call -----

  /** A rebase subtracts to a point after the old start, so the checked
      subtraction cannot fail and the virtual start only moves forward. */
  lemma RebaseMovesForward(start: real, ideal: real, t0: real, t1: real)
    requires 0.0 <= start && 0.0 <= ideal && t0 <= t1
    ensures Rebased(start, ideal, t0, t1) == (if t0 - start > ideal + BURST_CAP then t1 - ideal - BURST_CAP else start)
    ensures start <= Rebased(start, ideal, t0, t1)
    ensures t0 - start > ideal + BURST_CAP ==> Rebased(start, ideal, t0, t1) <= t1
  {
  }

  lemma IdealNonNegative(bits: nat, rate: nat)
    requires rate > 0
    ensures 0.0 <= Ideal(bits, rate)
  {
  }

  lemma IdealAdds(a: nat, b: nat, rate: nat)
    requires rate > 0
    ensures Ideal(a + b, rate) == Ideal(a, rate) + Ideal(b, rate)
  {
  }

  /** No more than `rate` bits for each second of `span`. */
  predicate Within(bits: nat, rate: nat, span: real) { bits as real <= rate as real * span }

  lemma IdealToBits(bits: nat, rate: nat, span: real)
    requires rate > 0 && Ideal(bits, rate) <= span
    ensures Within(bits, rate, span)
  {
    var r, i := rate as real, Ideal(bits, rate);
    assert r * i == bits as real;
    assert r * (span - i) >= 0.0;
  }

  /** What every call leaves: all bits so far were due by its return, give or take the minimum sleep. */
  lemma GateOnSchedule(b: Bucket, c: Call)
    requires b.rate > 0 && 0.0 <= b.start <= c.t0 <= c.t1 <= c.t2 <= c.back && Due(b, c) <= c.back
    ensures var b1 := Gate(b, c);
            && b.start <= b1.start <= c.back
            && Ideal(b1.bits, b.rate) <= c.back - b1.start + MIN_SLEEP
  {
    IdealNonNegative(b.bits + c.bits, b.rate);
    RebaseMovesForward(b.start, Ideal(b.bits + c.bits, b.rate), c.t0, c.t1);
  }

  // ----- every run of calls -----

  lemma {:induction false} RunOnSchedule(b: Bucket, now: real, cs: seq<Call>)
    requires b.rate > 0 && 0.0 <= b.start <= now && Timed(b, now, cs)
    requires Ideal(b.bits, b.rate) <= now - b.start + MIN_SLEEP
    ensures var b1 := Calls(b, cs); var end := LastReturn(now, cs);
            && b1.rate == b.rate
            && b.start <= b1.start <= end && now <= end
            && Ideal(b1.bits, b.rate) <= end - b1.start + MIN_SLEEP
            && b.bits <= b1.bits
    decreases |cs|
  {
    if cs != [] {
      GateOnSchedule(b, cs[0]);
      RunOnSchedule(Gate(b, cs[0]), cs[0].back, cs[1..]);
      assert LastReturn(now, cs) == LastReturn(cs[0].back, cs[1..]);
    }
  }

  function Fresh(rate: nat, made: real): Bucket { Bucket(rate, made, 0) }

  /** For any clock and any calls: at each return the bits admitted since the pacer
      was made are at most rate times the elapsed time plus one millisecond. */
  lemma LongRunBound(rate: nat, made: real, cs: seq<Call>)
    requires rate > 0 && 0.0 <= made && Timed(Fresh(rate, made), made, cs)
    ensures Within(Calls(Fresh(rate, made), cs).bits, rate, LastReturn(made, cs) - made + MIN_SLEEP)
  {
    var b1 := Calls(Fresh(rate, made), cs);
    assert Ideal(0, rate) == 0.0;
    RunOnSchedule(Fresh(rate, made), made, cs);
    IdealToBits(b1.bits, rate, LastReturn(made, cs) - made + MIN_SLEEP);
  }

  /** When a call looked at the clock: the reading that decided its virtual start. */
  function CheckedAt(b: Bucket, c: Call): real
    requires b.rate > 0
  {
    if c.t0 - b.start > Ideal(b.bits + c.bits, b.rate) + BURST_CAP then c.t1 else c.t0
  }

  lemma BurstSchedule(b: Bucket, now: real, c: Call, later: seq<Call>)
    requires b.rate > 0 && 0.0 <= b.start <= now && Timed(b, now, [c] + later)
    requires Ideal(b.bits, b.rate) <= now - b.start + MIN_SLEEP
    ensures var b1 := Gate(b, c); var b2 := Calls(b1, later);
            && b1.bits <= b2.bits
            && Ideal(b2.bits - b1.bits, b.rate) <= LastReturn(c.back, later) - CheckedAt(b, c) + BURST_CAP + MIN_SLEEP
  {
    assert ([c] + later)[1..] == later;
    var b1 := Gate(b, c);
    var b2 := Calls(b1, later);
    GateOnSchedule(b, c);
    RunOnSchedule(b1, c.back, later);
    IdealNonNegative(b1.bits, b.rate);
    RebaseMovesForward(b.start, Ideal(b1.bits, b.rate), c.t0, c.t1);
    IdealAdds(b1.bits, b2.bits - b1.bits, b.rate);
  }

  lemma BurstBits(b: Bucket, now: real, c: Call, later: seq<Call>)
    requires b.rate > 0 && 0.0 <= b.start <= now && Timed(b, now, [c] + later)
    requires Ideal(b.bits, b.rate) <= now - b.start + MIN_SLEEP
    ensures var b1 := Gate(b, c); var b2 := Calls(b1, later);
            && b1.bits <= b2.bits
            && Within(b2.bits - b1.bits, b.rate, LastReturn(c.back, later) - CheckedAt(b, c) + BURST_CAP + MIN_SLEEP)
  {
    BurstSchedule(b, now, c, later);
    var b1 := Gate(b, c);
    var span := LastReturn(c.back, later) - CheckedAt(b, c) + BURST_CAP + MIN_SLEEP;
    IdealToBits(Calls(b1, later).bits - b1.bits, b.rate, span);
  }

  /** After any call of any history, the bits admitted by later calls are at most rate
      times the time since that call's check plus the burst cap plus one
      millisecond: a stall, however long, buys at most 100 ms of catch-up. */
  lemma WindowBound(rate: nat, made: real, earlier: seq<Call>, c: Call, later: seq<Call>)
    requires rate > 0 && 0.0 <= made && Timed(Fresh(rate, made), made, earlier)
    requires Timed(Calls(Fresh(rate, made), earlier), LastReturn(made, earlier), [c] + later)
    ensures var b := Calls(Fresh(rate, made), earlier); var b1 := Gate(b, c); var b2 := Calls(b1, later);
            && b.rate == rate && b1.bits <= b2.bits
            && Within(b2.bits - b1.bits, rate, LastReturn(c.back, later) - CheckedAt(b, c) + BURST_CAP + MIN_SLEEP)
  {
    var b := Calls(Fresh(rate, made), earlier);
    assert Ideal(0, rate) == 0.0;
    RunOnSchedule(Fresh(rate, made), made, earlier);
    BurstBits(b, LastReturn(made, earlier), c, later);
  }

  /** The millisecond is needed: one bit at 1000 bits a second may return at once. */
  lemma SlackIsNeeded()
    ensures var c := Call(1, 0.0, 0.0, 0.0, 0.0);
            Timed(Fresh(1000, 0.0), 0.0, [c]) && !Within(Calls(Fresh(1000, 0.0), [c]).bits, 1000, c.back - 0.0)
  {
    var c := Call(1, 0.0, 0.0, 0.0, 0.0);
    assert [c][1..] == [];
    var b := Fresh(1000, 0.0);
    assert Ideal(1, 1000) == 0.001;
    assert Gate(b, c) == Bucket(1000, 0.0, 1);
    assert Calls(Gate(b, c), []) == Gate(b, c);
  }

  /** A call is never held longer than its schedule asks: it may return once all
      bits so far are due, or at once when they are due within the minimum sleep. */
  lemma NeverHeldTooLong(b: Bucket, c: Call)
    requires b.rate > 0 && 0.0 <= b.start <= c.t0 <= c.t1 <= c.t2
    ensures var b1 := Gate(b, c); var owed := b1.start + Ideal(b1.bits, b.rate);
            Due(b, c) == if owed > c.t2 + MIN_SLEEP then owed else c.t2
  {
  }

  /** The pacer object. */
  class Pacer {
    const rate: nat
    var start: real
    var bitsSent: nat

    function State(): Bucket
      reads this
    {
      Bucket(rate, start, bitsSent)
    }

    constructor (bitsPerSecond: nat, now: real)
      ensures State() == Fresh(bitsPerSecond, now)
    {
      rate, start, bitsSent := bitsPerSecond, now, 0;
    }

    /** Accounts `bits`; the caller is let go at `due` or later. */
    method GateAt(bits: nat, t0: real, t1: real, t2: real) returns (due: real)
      requires 0.0 <= start <= t0 <= t1 <= t2
      modifies this
      ensures State() == Gate(old(State()), Call(bits, t0, t1, t2, t2))
      ensures due == Due(old(State()), Call(bits, t0, t1, t2, t2))
      ensures rate > 0 ==> old(start) <= start <= t2
    {
      bitsSent := bitsSent + bits;
      if rate == 0 {
        return t0;
      }
      var ideal := bitsSent as real / rate as real;
      IdealNonNegative(bitsSent, rate);
      var elapsed := t0 - start;
      if elapsed > ideal + BURST_CAP {
        var shifted := CheckedSub(t1, ideal);
        if shifted.Some? {
          var newStart := CheckedSub(shifted.value, BURST_CAP);
          if newStart.Some? {
            start := newStart.value;
          }
        }
      }
      elapsed := t2 - start;
      if ideal > elapsed {
        var ahead := ideal - elapsed;
        if ahead > MIN_SLEEP {
          return t2 + ahead;
        }
      }
      due := t2;
    }
  }
}
