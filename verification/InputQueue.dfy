/** The demo's bounded input queue. Pointer moves may be merged or dropped; key and
    button transitions may only be refused, never lost. */
module Input {
  import opened Sequences
  import opened Wire

  /** A pointer move or a transition; `tag` stands for everything else an event carries. */
  datatype Event = Move(tag: int) | Transition(tag: int)

  /** Place of the first pointer move, or |q|. */
  function FirstMove(q: seq<Event>): (i: nat)
    ensures i <= |q|
    ensures i < |q| ==> q[i].Move?
    ensures forall j :: 0 <= j < i ==> q[j].Transition?
  {
    if q == [] || q[0].Move? then 0 else 1 + FirstMove(q[1..])
  }

  function Push(q: seq<Event>, capacity: nat, e: Event): (seq<Event>, bool) {
    if e.Move? && q != [] && q[|q| - 1].Move? then (q[..|q| - 1] + [e], true)
    else if |q| == capacity then
      var i := FirstMove(q);
      if i < |q| then (q[..i] + q[i + 1..] + [e], true)
      else if e.Move? then (q, true)
      else (q, false)
    else (q + [e], true)
  }

  datatype Op = PushOp(e: Event) | PopOp

  /** The queue after an operation, what it popped, and what it was accepted to push. */
  function Next(q: seq<Event>, capacity: nat, op: Op): (seq<Event>, seq<Event>, seq<Event>) {
    match op
    case PopOp => if q == [] then (q, [], []) else (q[1..], [q[0]], [])
    case PushOp(e) => var (q1, ok) := Push(q, capacity, e); (q1, [], if ok then [e] else [])
  }

  function Run(q: seq<Event>, capacity: nat, ops: seq<Op>): seq<Event>
    decreases |ops|
  {
    if ops == [] then q else Run(Next(q, capacity, ops[0]).0, capacity, ops[1..])
  }

  function Popped(q: seq<Event>, capacity: nat, ops: seq<Op>): seq<Event>
    decreases |ops|
  {
    if ops == [] then [] else Next(q, capacity, ops[0]).1 + Popped(Next(q, capacity, ops[0]).0, capacity, ops[1..])
  }

  /** Events pushed with success, in order. */
  function Pushed(q: seq<Event>, capacity: nat, ops: seq<Op>): seq<Event>
    decreases |ops|
  {
    if ops == [] then [] else Next(q, capacity, ops[0]).2 + Pushed(Next(q, capacity, ops[0]).0, capacity, ops[1..])
  }

  function Transitions(q: seq<Event>): seq<Event> {
    if q == [] then [] else (if q[0].Transition? then [q[0]] else []) + Transitions(q[1..])
  }

  ghost predicate NoAdjacentMoves(q: seq<Event>) {
    forall i :: 0 < i < |q| ==> !(q[i - 1].Move? && q[i].Move?)
  }

  lemma {:induction false} TransitionsConcat(a: seq<Event>, b: seq<Event>)
    ensures Transitions(a + b) == Transitions(a) + Transitions(b)
  {
    if a == [] {
      assert a + b == b;
      assert [] + Transitions(b) == Transitions(b);
    } else {
      var head := if a[0].Transition? then [a[0]] else [];
      assert (a + b)[0] == a[0] && (a + b)[1..] == a[1..] + b;
      assert Transitions(a + b) == head + Transitions(a[1..] + b);
      TransitionsConcat(a[1..], b);
      assert head + (Transitions(a[1..]) + Transitions(b)) == (head + Transitions(a[1..])) + Transitions(b);
    }
  }

  lemma TransitionsOne(e: Event)
    ensures Transitions([e]) == if e.Transition? then [e] else []
  {
    assert [e][1..] == [];
  }

  /** Dropping a move from anywhere leaves the transitions alone. */
  lemma DropMove(q: seq<Event>, i: nat)
    requires i < |q| && q[i].Move?
    ensures Transitions(q[..i] + q[i + 1..]) == Transitions(q)
  {
    assert q == q[..i] + ([q[i]] + q[i + 1..]);
    TransitionsConcat(q[..i], [q[i]] + q[i + 1..]);
    TransitionsConcat([q[i]], q[i + 1..]);
    TransitionsOne(q[i]);
    TransitionsConcat(q[..i], q[i + 1..]);
  }

  /** A push adds its transition at the back or, when it is refused, changes nothing. */
  lemma PushKeepsTransitions(q: seq<Event>, capacity: nat, e: Event)
    ensures var (q1, ok) := Push(q, capacity, e);
            Transitions(q1) == Transitions(q) + (if ok && e.Transition? then [e] else [])
  {
    var (q1, ok) := Push(q, capacity, e);
    TransitionsOne(e);
    TransitionsConcat(q, [e]);
    var i := FirstMove(q);
    if e.Move? && q != [] && q[|q| - 1].Move? {
      var k := |q| - 1;
      assert q[..k] + q[k + 1..] == q[..k];
      DropMove(q, k);
      TransitionsConcat(q[..k], [e]);
    } else if |q| == capacity && i < |q| {
      DropMove(q, i);
      TransitionsConcat(q[..i] + q[i + 1..], [e]);
    }
  }

  /** A push is refused exactly when a transition meets a queue full of transitions. */
  lemma RefusedExactlyWhen(q: seq<Event>, capacity: nat, e: Event)
    ensures !Push(q, capacity, e).1 <==>
              e.Transition? && |q| == capacity && forall i :: 0 <= i < |q| ==> q[i].Transition?
    ensures !Push(q, capacity, e).1 ==> Push(q, capacity, e).0 == q
  {
    assert FirstMove(q) < |q| ==> q[FirstMove(q)].Move?;
  }

  lemma PushKeepsShape(q: seq<Event>, capacity: nat, e: Event)
    requires capacity > 0 && |q| <= capacity && NoAdjacentMoves(q)
    ensures |Push(q, capacity, e).0| <= capacity && NoAdjacentMoves(Push(q, capacity, e).0)
  {
    var (q1, ok) := Push(q, capacity, e);
    var i := FirstMove(q);
    if e.Move? && q != [] && q[|q| - 1].Move? {
      assert forall j :: 0 <= j < |q| - 1 ==> q1[j] == q[j];
    } else if |q| == capacity && i < |q| {
      var cut := q[..i] + q[i + 1..];
      CutKeepsShape(q, i);
      assert e.Move? && cut != [] ==> cut[|cut| - 1].Transition? by {
        if i == |q| - 1 && i > 0 {
          assert cut[|cut| - 1] == q[i - 1];
        }
      }
      assert q1 == cut + [e];
    }
  }

  lemma CutKeepsShape(q: seq<Event>, i: nat)
    requires i < |q| && q[i].Move? && NoAdjacentMoves(q)
    ensures NoAdjacentMoves(q[..i] + q[i + 1..])
  {
    var cut := q[..i] + q[i + 1..];
    forall j | 0 < j < |cut|
      ensures !(cut[j - 1].Move? && cut[j].Move?)
    {
      if j < i {
        assert cut[j - 1] == q[j - 1] && cut[j] == q[j];
      } else if j == i {
        assert cut[j - 1] == q[i - 1] && q[i - 1].Transition?;
      } else {
        assert cut[j - 1] == q[j] && cut[j] == q[j + 1];
      }
    }
  }

  /** For any pushes and pops: the transitions popped, then those still queued, are
      those queued at the start and those accepted since, in order; the queue never
      outgrows its capacity and never holds two moves side by side. */
  lemma {:induction false} NoTransitionLost(q: seq<Event>, capacity: nat, ops: seq<Op>)
    requires capacity > 0 && |q| <= capacity && NoAdjacentMoves(q)
    ensures Transitions(Popped(q, capacity, ops)) + Transitions(Run(q, capacity, ops))
         == Transitions(q) + Transitions(Pushed(q, capacity, ops))
    ensures |Run(q, capacity, ops)| <= capacity && NoAdjacentMoves(Run(q, capacity, ops))
    decreases |ops|
  {
    if ops != [] {
      var (q1, out, accepted) := Next(q, capacity, ops[0]);
      StepConserves(q, capacity, ops[0]);
      NoTransitionLost(q1, capacity, ops[1..]);
      TransitionsConcat(out, Popped(q1, capacity, ops[1..]));
      TransitionsConcat(accepted, Pushed(q1, capacity, ops[1..]));
      Shuffle(Transitions(out), Transitions(Popped(q1, capacity, ops[1..])), Transitions(Run(q, capacity, ops)),
              Transitions(q1), Transitions(Pushed(q1, capacity, ops[1..])), Transitions(q), Transitions(accepted));
    }
  }

  lemma PopConserves(q: seq<Event>, capacity: nat)
    requires q != []
    ensures Transitions([q[0]]) + Transitions(q[1..]) == Transitions(q)
  {
    assert q == [q[0]] + q[1..];
    TransitionsConcat([q[0]], q[1..]);
  }

  lemma PushConserves(q: seq<Event>, capacity: nat, e: Event)
    ensures var (q1, ok) := Push(q, capacity, e);
            [] + Transitions(q1) == Transitions(q) + Transitions(if ok then [e] else [])
  {
    PushKeepsTransitions(q, capacity, e);
    TransitionsOne(e);
  }

  lemma StepConserves(q: seq<Event>, capacity: nat, op: Op)
    requires capacity > 0 && |q| <= capacity && NoAdjacentMoves(q)
    ensures var (q1, out, accepted) := Next(q, capacity, op);
            && Transitions(out) + Transitions(q1) == Transitions(q) + Transitions(accepted)
            && |q1| <= capacity && NoAdjacentMoves(q1)
  {
    match op
    case PopOp =>
      if q != [] {
        PopConserves(q, capacity);
        assert Transitions(q) + [] == Transitions(q);
      }
    case PushOp(e) =>
      PushConserves(q, capacity, e);
      PushKeepsShape(q, capacity, e);
  }

  /** The latest position is what a reader sees: after a push of a move that was not
      dropped for lack of room, that move is at the back. */
  lemma LatestMoveKept(q: seq<Event>, capacity: nat, e: Event)
    requires e.Move? && (|q| < capacity || exists i :: 0 <= i < |q| && q[i].Move?)
    ensures var q1 := Push(q, capacity, e).0; q1 != [] && q1[|q1| - 1] == e
  {
  }

  // ----- order -----

  /** a is b with some events left out. */
  ghost predicate Within(a: seq<Event>, b: seq<Event>)
    decreases |b|
  {
    if a == [] then true
    else if b == [] then false
    else (a[|a| - 1] == b[|b| - 1] && Within(a[..|a| - 1], b[..|b| - 1])) || Within(a, b[..|b| - 1])
  }

  lemma WithinAppend(a: seq<Event>, b: seq<Event>, e: Event)
    requires Within(a, b)
    ensures Within(a + [e], b + [e]) && Within(a, b + [e])
  {
    assert (a + [e])[..|a|] == a && (b + [e])[..|b|] == b;
  }

  lemma {:induction false} WithinWithout(a: seq<Event>, b: seq<Event>, i: nat)
    requires Within(a, b) && i < |a|
    ensures Within(a[..i] + a[i + 1..], b)
    decreases |b|
  {
    var n, m := |a| - 1, |b| - 1;
    var cut := a[..i] + a[i + 1..];
    assert b == b[..m] + [b[m]];
    if a[n] == b[m] && Within(a[..n], b[..m]) {
      if i == n {
        assert cut == a[..n];
        WithinAppend(cut, b[..m], b[m]);
      } else {
        WithinWithout(a[..n], b[..m], i);
        var front := a[..n][..i] + a[..n][i + 1..];
        assert cut == front + [a[n]];
        WithinAppend(front, b[..m], b[m]);
      }
    } else {
      WithinWithout(a, b[..m], i);
      WithinAppend(cut, b[..m], b[m]);
    }
  }

  /** Leaving one queued event out and adding one at the back. */
  lemma WithinReplace(past: seq<Event>, q: seq<Event>, pushed: seq<Event>, i: nat, e: Event)
    requires Within(past + q, pushed) && i < |q|
    ensures Within(past + (q[..i] + q[i + 1..] + [e]), pushed + [e])
  {
    var all, k := past + q, |past| + i;
    var cut := q[..i] + q[i + 1..];
    WithinWithout(all, pushed, k);
    assert all[..k] + all[k + 1..] == past + cut;
    WithinAppend(past + cut, pushed, e);
    assert past + (cut + [e]) == past + cut + [e];
  }

  lemma WithinBoth(past: seq<Event>, q: seq<Event>, pushed: seq<Event>, e: Event)
    requires Within(past + q, pushed)
    ensures Within(past + (q + [e]), pushed + [e]) && Within(past + q, pushed + [e])
  {
    WithinAppend(past + q, pushed, e);
    assert past + (q + [e]) == past + q + [e];
  }

  /** The three ways a push can change the queue. */
  lemma PushShape(q: seq<Event>, capacity: nat, e: Event)
    ensures var (q1, ok) := Push(q, capacity, e);
            || q1 == q
            || (ok && q1 == q + [e])
            || (ok && exists i: nat :: i < |q| && q1 == q[..i] + q[i + 1..] + [e])
  {
    if e.Move? && q != [] && q[|q| - 1].Move? {
      var k := |q| - 1;
      assert q[..k] + q[k + 1..] + [e] == q[..k] + [e];
    }
  }

  lemma PushKeepsOrder(past: seq<Event>, q: seq<Event>, pushed: seq<Event>, capacity: nat, e: Event)
    requires Within(past + q, pushed)
    ensures var (q1, ok) := Push(q, capacity, e); Within(past + q1, if ok then pushed + [e] else pushed)
  {
    var q1 := Push(q, capacity, e).0;
    PushShape(q, capacity, e);
    WithinBoth(past, q, pushed, e);
    if q1 != q && q1 != q + [e] {
      var i: nat :| i < |q| && q1 == q[..i] + q[i + 1..] + [e];
      WithinReplace(past, q, pushed, i, e);
    }
  }

  lemma StepKeepsOrder(past: seq<Event>, q: seq<Event>, pushed: seq<Event>, capacity: nat, op: Op)
    requires Within(past + q, pushed)
    ensures var (q1, out, accepted) := Next(q, capacity, op); Within(past + out + q1, pushed + accepted)
  {
    var (q1, out, accepted) := Next(q, capacity, op);
    if op.PopOp? {
      assert past + out + q1 == past + q;
      assert pushed + accepted == pushed;
    } else {
      PushKeepsOrder(past, q, pushed, capacity, op.e);
      assert past + out == past;
      assert pushed + accepted == if Push(q, capacity, op.e).1 then pushed + [op.e] else pushed;
    }
  }

  lemma Regroup(a: seq<Event>, b: seq<Event>, c: seq<Event>)
    ensures a + b + c == a + (b + c)
  {
  }

  /** Over any run, the events popped, then those still queued, come from the accepted
      pushes in the order they were made: nothing is invented, doubled or overtaken. */
  lemma {:induction false} OrderKept(past: seq<Event>, q: seq<Event>, pushed: seq<Event>, capacity: nat, ops: seq<Op>)
    requires Within(past + q, pushed)
    ensures Within(past + Popped(q, capacity, ops) + Run(q, capacity, ops), pushed + Pushed(q, capacity, ops))
    decreases |ops|
  {
    if ops == [] {
      assert past + [] + q == past + q && pushed + [] == pushed;
    } else {
      var (q1, out, accepted) := Next(q, capacity, ops[0]);
      StepKeepsOrder(past, q, pushed, capacity, ops[0]);
      OrderKept(past + out, q1, pushed + accepted, capacity, ops[1..]);
      Regroup(past, out, Popped(q1, capacity, ops[1..]));
      Regroup(pushed, accepted, Pushed(q1, capacity, ops[1..]));
    }
  }

  /** A queue needs room for at least one event. */
  method NewQueue(capacity: nat) returns (q: Option<InputQueue>)
    ensures q.Some? <==> capacity > 0
    ensures q.Some? ==> fresh(q.value) && q.value.Valid() && q.value.capacity == capacity && q.value.events == []
  {
    if capacity == 0 {
      return None;
    }
    var made := new InputQueue(capacity);
    return Some(made);
  }

  class InputQueue {
    const capacity: nat
    var events: seq<Event>

    ghost predicate Valid()
      reads this
    {
      capacity > 0 && |events| <= capacity && NoAdjacentMoves(events)
    }

    constructor (capacity: nat)
      requires capacity > 0
      ensures Valid() && this.capacity == capacity && events == []
    {
      this.capacity, events := capacity, [];
    }

    method PushEvent(e: Event) returns (ok: bool)
      requires Valid()
      modifies this
      ensures Valid() && (events, ok) == Push(old(events), capacity, e)
    {
      PushKeepsShape(events, capacity, e);
      var n := |events|;
      if e.Move? && n > 0 && events[n - 1].Move? {
        events := events[..n - 1] + [e];
        return true;
      }
      if n == capacity {
        var i := 0;
        while i < n && !events[i].Move?
          invariant 0 <= i <= n
          invariant forall j :: 0 <= j < i ==> events[j].Transition?
        {
          i := i + 1;
        }
        FirstMoveIs(events, i);
        if i < n {
          events := events[..i] + events[i + 1..];
        } else if e.Move? {
          return true;
        } else {
          return false;
        }
      }
      events := events + [e];
      return true;
    }

    method PopEvent() returns (e: Option<Event>)
      requires Valid()
      modifies this
      ensures Valid()
      ensures events == Next(old(events), capacity, PopOp).0
      ensures e == if old(events) == [] then None else Some(old(events)[0])
    {
      if |events| == 0 {
        return None;
      }
      e := Some(events[0]);
      events := events[1..];
    }
  }

  lemma FirstMoveIs(q: seq<Event>, i: nat)
    requires i <= |q| && (i < |q| ==> q[i].Move?) && forall j :: 0 <= j < i ==> q[j].Transition?
    ensures FirstMove(q) == i
  {
  }
}
