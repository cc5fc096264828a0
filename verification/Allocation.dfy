/** Allocating a signaling room: pick a code, ask its room to initialize with a secret's
    hash, and ask the same room once more when the call fails, because a failed call may
    have committed. Many allocations run at once, and calls fail in every way they can. */
module Allocation {
  import opened Wire

  const MAX_CODE_ATTEMPTS := 5

  /** The hash each initialized room stores, by code. */
  type Rooms = map<string, string>

  /** A room keeps the first hash it is given. */
  function Initialized(rooms: Rooms, code: string, hash: string): Rooms {
    if code in rooms then rooms else rooms[code := hash]
  }

  /** What the call reports: created here, or already there with this hash. */
  predicate Owned(rooms: Rooms, code: string, hash: string) {
    code !in rooms || rooms[code] == hash
  }

  /** How a call ends. LostBefore never reaches the room. LostAfter commits and then
      fails. LostLate fails first; its commit may still happen at any later time. */
  datatype Reply = Answered | LostBefore | LostAfter | LostLate

  datatype Pc = Pick | First(code: string) | Second(code: string) | Returned(code: string) | GaveUp

  datatype Allocator = Allocator(hash: string, pc: Pc, attempt: nat, calls: nat)

  /** late: calls reported as failed whose commit is still on its way. */
  datatype State = State(rooms: Rooms, allocators: seq<Allocator>, late: set<(string, string)>)

  function Init(): State { State(map[], [], {}) }

  datatype Event =
    | Begin(hash: string)
    | PickCode(a: nat, code: string)
    | Call(a: nat, reply: Reply)
    | CommitLate(code: string, hash: string)

  function NextAttempt(x: Allocator): Allocator {
    x.(pc := if x.attempt + 1 < MAX_CODE_ATTEMPTS then Pick else GaveUp, attempt := x.attempt + 1, calls := x.calls + 1)
  }

  /** After a failed call: the same room once more, then the next attempt. */
  function AfterFailure(x: Allocator): Allocator {
    match x.pc
    case First(code) => x.(pc := Second(code), calls := x.calls + 1)
    case _ => NextAttempt(x)
  }

  function AfterAnswer(x: Allocator, code: string, owned: bool): Allocator {
    if owned then x.(pc := Returned(code), calls := x.calls + 1)
    else NextAttempt(x)
  }

  function CallNext(st: State, a: nat, reply: Reply): Option<State> {
    if a >= |st.allocators| || !(st.allocators[a].pc.First? || st.allocators[a].pc.Second?) then None
    else
      var x := st.allocators[a];
      var code := x.pc.code;
      var rooms := Initialized(st.rooms, code, x.hash);
      match reply
      case Answered =>
        Some(st.(rooms := rooms, allocators := st.allocators[a := AfterAnswer(x, code, Owned(st.rooms, code, x.hash))]))
      case LostBefore => Some(st.(allocators := st.allocators[a := AfterFailure(x)]))
      case LostAfter => Some(st.(rooms := rooms, allocators := st.allocators[a := AfterFailure(x)]))
      case LostLate => Some(st.(late := st.late + {(code, x.hash)}, allocators := st.allocators[a := AfterFailure(x)]))
  }

  function Next(st: State, e: Event): Option<State> {
    match e
    case Begin(hash) => Some(st.(allocators := st.allocators + [Allocator(hash, Pick, 0, 0)]))
    case PickCode(a, code) =>
      if a < |st.allocators| && st.allocators[a].pc.Pick? then
        Some(st.(allocators := st.allocators[a := st.allocators[a].(pc := First(code))]))
      else None
    case Call(a, reply) => CallNext(st, a, reply)
    case CommitLate(code, hash) =>
      if (code, hash) in st.late then
        Some(st.(rooms := Initialized(st.rooms, code, hash), late := st.late - {(code, hash)}))
      else None
  }

  function Run(st: State, es: seq<Event>): Option<State>
    decreases |es|
  {
    if es == [] then Some(st)
    else
      var st1 := Next(st, es[0]);
      if st1.Some? then Run(st1.value, es[1..]) else None
  }

  // ----- what every step keeps -----

  /** Rooms are added and never change hands. */
  ghost predicate Grows(before: Rooms, after: Rooms) {
    forall code :: code in before ==> code in after && after[code] == before[code]
  }

  ghost predicate AllocatorInv(rooms: Rooms, x: Allocator) {
    && x.attempt <= MAX_CODE_ATTEMPTS
    && x.calls <= 2 * x.attempt + (if x.pc.Second? then 1 else if x.pc.Returned? then 2 else 0)
    && (x.pc.GaveUp? <==> x.attempt == MAX_CODE_ATTEMPTS)
    && (x.pc.Returned? ==> x.pc.code in rooms && rooms[x.pc.code] == x.hash)
  }

  /** Every stored hash was brought by an allocation. */
  ghost predicate Accounted(st: State) {
    && (forall code :: code in st.rooms ==>
          exists a :: 0 <= a < |st.allocators| && st.allocators[a].hash == st.rooms[code])
    && (forall c, h :: (c, h) in st.late ==> exists a :: 0 <= a < |st.allocators| && st.allocators[a].hash == h)
  }

  ghost predicate Inv(st: State) {
    && (forall a :: 0 <= a < |st.allocators| ==> AllocatorInv(st.rooms, st.allocators[a]))
    && Accounted(st)
  }

  lemma GrownInv(before: Rooms, after: Rooms, x: Allocator)
    requires Grows(before, after) && AllocatorInv(before, x)
    ensures AllocatorInv(after, x)
  {
  }

  lemma StepGrows(st: State, e: Event)
    requires Next(st, e).Some?
    ensures Grows(st.rooms, Next(st, e).value.rooms)
    ensures |st.allocators| <= |Next(st, e).value.allocators|
    ensures forall a :: 0 <= a < |st.allocators| ==> Next(st, e).value.allocators[a].hash == st.allocators[a].hash
  {
  }

  lemma CallKeeps(st: State, a: nat, reply: Reply)
    requires CallNext(st, a, reply).Some? && AllocatorInv(st.rooms, st.allocators[a])
    ensures AllocatorInv(CallNext(st, a, reply).value.rooms, CallNext(st, a, reply).value.allocators[a])
  {
  }

  lemma StepAccounts(st: State, e: Event)
    requires Accounted(st) && Next(st, e).Some?
    ensures Accounted(Next(st, e).value)
  {
    var st1 := Next(st, e).value;
    StepGrows(st, e);
    forall code | code in st1.rooms
      ensures exists a :: 0 <= a < |st1.allocators| && st1.allocators[a].hash == st1.rooms[code]
    {
      if code in st.rooms {
        var a :| 0 <= a < |st.allocators| && st.allocators[a].hash == st.rooms[code];
        assert st1.allocators[a].hash == st1.rooms[code];
      } else if e.Call? {
        assert st1.allocators[e.a].hash == st1.rooms[code];
      } else {
        var a :| 0 <= a < |st.allocators| && st.allocators[a].hash == e.hash;
        assert st1.allocators[a].hash == st1.rooms[code];
      }
    }
    forall c, h | (c, h) in st1.late
      ensures exists a :: 0 <= a < |st1.allocators| && st1.allocators[a].hash == h
    {
      if (c, h) in st.late {
        var a :| 0 <= a < |st.allocators| && st.allocators[a].hash == h;
        assert st1.allocators[a].hash == h;
      } else {
        assert st1.allocators[e.a].hash == h;
      }
    }
  }

  lemma NextKeepsInv(st: State, e: Event)
    requires Inv(st) && Next(st, e).Some?
    ensures Inv(Next(st, e).value)
  {
    var st1 := Next(st, e).value;
    StepGrows(st, e);
    StepAccounts(st, e);
    forall a | 0 <= a < |st1.allocators|
      ensures AllocatorInv(st1.rooms, st1.allocators[a])
    {
      if e.Call? && e.a == a {
        CallKeeps(st, a, e.reply);
      } else if a < |st.allocators| {
        GrownInv(st.rooms, st1.rooms, st.allocators[a]);
      }
    }
  }

  lemma {:induction false} RunKeepsInv(st: State, es: seq<Event>)
    requires Inv(st) && Run(st, es).Some?
    ensures Inv(Run(st, es).value) && Grows(st.rooms, Run(st, es).value.rooms)
    decreases |es|
  {
    if es != [] {
      NextKeepsInv(st, es[0]);
      StepGrows(st, es[0]);
      RunKeepsInv(Next(st, es[0]).value, es[1..]);
    }
  }

  // ----- every interleaving -----

  /** A returned code's room stores that allocation's hash, in this state and in every
      later one, and an allocation makes at most ten calls. */
  lemma ReturnedRoomIsOwned(es: seq<Event>, rest: seq<Event>, a: nat)
    requires Run(Init(), es).Some? && a < |Run(Init(), es).value.allocators|
    requires Run(Run(Init(), es).value, rest).Some?
    ensures var x := Run(Init(), es).value.allocators[a];
            var rooms := Run(Run(Init(), es).value, rest).value.rooms;
            && x.calls <= 10
            && (x.pc.Returned? ==> x.pc.code in rooms && rooms[x.pc.code] == x.hash)
  {
    RunKeepsInv(Init(), es);
    RunKeepsInv(Run(Init(), es).value, rest);
    assert AllocatorInv(Run(Init(), es).value.rooms, Run(Init(), es).value.allocators[a]);
  }

  /** Allocations with different secrets never return the same code. */
  lemma CodesNeverShared(es: seq<Event>, a: nat, b: nat)
    requires Run(Init(), es).Some?
    requires a < |Run(Init(), es).value.allocators| && b < |Run(Init(), es).value.allocators|
    ensures var x := Run(Init(), es).value.allocators[a]; var y := Run(Init(), es).value.allocators[b];
            x.pc.Returned? && y.pc.Returned? && x.hash != y.hash ==> x.pc.code != y.pc.code
  {
    RunKeepsInv(Init(), es);
    var st := Run(Init(), es).value;
    assert AllocatorInv(st.rooms, st.allocators[a]) && AllocatorInv(st.rooms, st.allocators[b]);
  }

  /** Retrying the same room is what makes a call that committed and then failed harmless:
      if nobody took the room before, the retry reports it as owned. */
  lemma RetryRecognisesOwnCommit(st: State, a: nat, between: seq<Event>)
    requires CallNext(st, a, LostAfter).Some? && st.allocators[a].pc.First?
    requires Owned(st.rooms, st.allocators[a].pc.code, st.allocators[a].hash)
    requires Run(CallNext(st, a, LostAfter).value, between).Some?
    ensures var st1 := CallNext(st, a, LostAfter).value; var st2 := Run(st1, between).value;
            Owned(st2.rooms, st.allocators[a].pc.code, st.allocators[a].hash)
  {
    GrowsOverRuns(CallNext(st, a, LostAfter).value, between);
  }

  lemma {:induction false} GrowsOverRuns(st: State, es: seq<Event>)
    requires Run(st, es).Some?
    ensures Grows(st.rooms, Run(st, es).value.rooms)
    decreases |es|
  {
    if es != [] {
      StepGrows(st, es[0]);
      GrowsOverRuns(Next(st, es[0]).value, es[1..]);
    }
  }

  // ----- the allocation loop -----

  /** All rooms. Other allocations add rooms between the calls of this one. */
  class SignalRooms {
    var rooms: Rooms

    /** One initialize call, after the rooms that others created meanwhile. */
    method InitializeRoom(code: string, hash: string, reply: Reply, others: Rooms) returns (owned: Option<bool>)
      modifies this
      ensures Grows(old(rooms), rooms)
      ensures owned == Some(true) ==> code in rooms && rooms[code] == hash
      ensures owned == Some(false) ==> code in rooms && rooms[code] != hash
      ensures owned.Some? <==> reply.Answered?
    {
      rooms := others + rooms;
      if reply.LostBefore? || reply.LostLate? {
        return None;
      }
      var mine := code !in rooms || rooms[code] == hash;
      if code !in rooms {
        rooms := rooms[code := hash];
      }
      return if reply.Answered? then Some(mine) else None;
    }

    /** Returns a code whose room stores `hash`, or nothing after five attempts; `codes`,
        `replies` and `others` are what the generator, the calls and the world do. */
    method Allocate(hash: string, codes: seq<string>, replies: seq<Reply>, others: seq<Rooms>)
      returns (code: Option<string>, calls: nat)
      requires |codes| == MAX_CODE_ATTEMPTS && |replies| == |others| == 2 * MAX_CODE_ATTEMPTS
      modifies this
      ensures Grows(old(rooms), rooms)
      ensures code.Some? ==> code.value in codes && code.value in rooms && rooms[code.value] == hash
      ensures calls <= 2 * MAX_CODE_ATTEMPTS
      ensures code.None? ==> forall i :: 0 <= i < MAX_CODE_ATTEMPTS ==>
                || (codes[i] in rooms && rooms[codes[i]] != hash)
                || (!replies[2 * i].Answered? && !replies[2 * i + 1].Answered?)
    {
      calls := 0;
      for attempt := 0 to MAX_CODE_ATTEMPTS
        invariant Grows(old(rooms), rooms) && calls <= 2 * attempt
        invariant forall i :: 0 <= i < attempt ==>
                    || (codes[i] in rooms && rooms[codes[i]] != hash)
                    || (!replies[2 * i].Answered? && !replies[2 * i + 1].Answered?)
      {
        var owned := InitializeRoom(codes[attempt], hash, replies[2 * attempt], others[2 * attempt]);
        calls := calls + 1;
        if owned.None? {
          owned := InitializeRoom(codes[attempt], hash, replies[2 * attempt + 1], others[2 * attempt + 1]);
          calls := calls + 1;
          if owned.None? {
            continue;
          }
        }
        if owned.value {
          return Some(codes[attempt]), calls;
        }
      }
      return None, calls;
    }
  }
}
