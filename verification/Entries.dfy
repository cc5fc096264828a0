/** Temporary entries: a value that may be claimed a limited number of times before it
    expires. Rows are inserted under a unique code, claimed by an update and a select in
    one transaction, and removed by a clean-up that may run at any time. */
module Entries {
  import opened Wire

  const MAX_READS := 100

  datatype Row = Row(value: string, expires: nat, maxReads: nat, remaining: nat, lastClaim: Option<nat>)

  type Store = map<string, Row>

  datatype Event =
    | Create(code: string, value: string, now: nat, expires: nat, maxReads: nat)
    | Claim(code: string, now: nat, id: nat)
    | Cleanup(now: nat)

  /** Created and Refused answer a create; Claimed and Nothing answer a claim. */
  datatype Answer = Created | Refused | Claimed(value: string, left: nat, expires: nat) | Nothing | Cleaned

  predicate Live(row: Row, now: nat) { row.expires > now && row.remaining > 0 }

  /** The insert fails on a taken code or a read budget outside the column's range. */
  function DoCreate(s: Store, e: Event): (Store, Answer)
    requires e.Create?
  {
    if e.code in s || !(1 <= e.maxReads <= MAX_READS) then (s, Refused)
    else (s[e.code := Row(e.value, e.expires, e.maxReads, e.maxReads, None)], Created)
  }

  function Updated(s: Store, code: string, now: nat, id: nat): Store {
    if code in s && Live(s[code], now) then
      s[code := s[code].(remaining := s[code].remaining - 1, lastClaim := Some(id))]
    else s
  }

  /** The update, then the select of the row that carries this claim's id. */
  function DoClaim(s: Store, code: string, now: nat, id: nat): (Store, Answer) {
    var s1 := Updated(s, code, now, id);
    if code in s1 && s1[code].lastClaim == Some(id) then
      (s1, Claimed(s1[code].value, s1[code].remaining, s1[code].expires))
    else (s1, Nothing)
  }

  function DoCleanup(s: Store, now: nat): Store {
    map code | code in s && !(s[code].expires <= now || s[code].remaining <= 0) :: s[code]
  }

  function Next(s: Store, e: Event): (Store, Answer) {
    match e
    case Create(_, _, _, _, _) => DoCreate(s, e)
    case Claim(code, now, id) => DoClaim(s, code, now, id)
    case Cleanup(now) => (DoCleanup(s, now), Cleaned)
  }

  /** A claim is answered with the value exactly when the row is live, or when the row's
      last successful claim already carried this id. */
  lemma AnsweredExactlyWhen(s: Store, code: string, now: nat, id: nat)
    ensures DoClaim(s, code, now, id).1.Claimed? <==>
              code in s && (Live(s[code], now) || s[code].lastClaim == Some(id))
    ensures DoClaim(s, code, now, id).1.Claimed? && !Live(s[code], now) ==>
              DoClaim(s, code, now, id).0 == s
  {
  }

  /** So a reused id reads a spent and expired entry once more: create, claim, and the same claim after expiry. */
  lemma ReusedIdReadsDeadRow()
    ensures var s0 := Next(map[], Create("c", "v", 0, 10, 1)).0;
            var (s1, first) := Next(s0, Claim("c", 5, 7));
            && first == Claimed("v", 0, 10)
            && "c" in s1 && !Live(s1["c"], 99)
            && Next(s1, Claim("c", 99, 7)) == (s1, Claimed("v", 0, 10))
  {
  }

  // ----- histories with fresh ids and a clock that does not go back -----

  ghost predicate FreshIds(es: seq<Event>, used: set<nat>)
    decreases |es|
  {
    es != [] ==> (es[0].Claim? ==> es[0].id !in used) && FreshIds(es[1..], UsedAfter(es[0], used))
  }

  function UsedAfter(e: Event, used: set<nat>): set<nat> { if e.Claim? then used + {e.id} else used }

  ghost predicate Clocked(es: seq<Event>, now: nat)
    decreases |es|
  {
    es != [] ==> now <= es[0].now && Clocked(es[1..], es[0].now)
  }

  ghost predicate IdsKnown(s: Store, used: set<nat>) {
    forall code :: code in s && s[code].lastClaim.Some? ==> s[code].lastClaim.value in used
  }

  lemma IdsStayKnown(s: Store, e: Event, used: set<nat>)
    requires IdsKnown(s, used)
    ensures IdsKnown(Next(s, e).0, UsedAfter(e, used))
  {
  }

  // ----- the read budget -----

  /** Successful claims of each code since it was last created, and the budget it was created with. */
  datatype Account = Account(taken: nat, budget: nat)

  type Ledger = map<string, Account>

  function Booked(l: Ledger, e: Event, a: Answer): Ledger {
    match a
    case Created => if e.Create? then l[e.code := Account(0, e.maxReads)] else l
    case Claimed(_, _, _) =>
      if e.Claim? && e.code in l then l[e.code := l[e.code].(taken := l[e.code].taken + 1)] else l
    case _ => l
  }

  function Run(s: Store, l: Ledger, es: seq<Event>): (Store, Ledger)
    decreases |es|
  {
    if es == [] then (s, l)
    else
      var (s1, a) := Next(s, es[0]);
      Run(s1, Booked(l, es[0], a), es[1..])
  }

  ghost predicate BudgetOk(s: Store, l: Ledger) {
    && (forall code :: code in s ==>
          code in l && l[code].budget == s[code].maxReads && l[code].taken + s[code].remaining == s[code].maxReads)
    && (forall code :: code in l ==> l[code].taken <= l[code].budget <= MAX_READS)
  }

  lemma StepKeepsBudget(s: Store, l: Ledger, e: Event, used: set<nat>)
    requires BudgetOk(s, l) && IdsKnown(s, used) && (e.Claim? ==> e.id !in used)
    ensures var (s1, a) := Next(s, e);
            && BudgetOk(s1, Booked(l, e, a))
            && (a.Claimed? ==> e.Claim? && e.code in s && s[e.code].expires > e.now && a.expires == s[e.code].expires
                               && a.value == s[e.code].value && a.left == s[e.code].remaining - 1)
  {
  }

  /** In every history each entry's successful claims are its budget less its
      remaining reads, and never more than its budget, also once its row is gone. */
  lemma {:induction false} ClaimsMatchBudget(s: Store, l: Ledger, es: seq<Event>, used: set<nat>)
    requires BudgetOk(s, l) && IdsKnown(s, used) && FreshIds(es, used)
    ensures BudgetOk(Run(s, l, es).0, Run(s, l, es).1)
    decreases |es|
  {
    if es != [] {
      var (s1, a) := Next(s, es[0]);
      StepKeepsBudget(s, l, es[0], used);
      IdsStayKnown(s, es[0], used);
      ClaimsMatchBudget(s1, Booked(l, es[0], a), es[1..], UsedAfter(es[0], used));
    }
  }

  /** Every answer given in a history. */
  function Answers(s: Store, es: seq<Event>): seq<Answer>
    decreases |es|
  {
    if es == [] then [] else [Next(s, es[0]).1] + Answers(Next(s, es[0]).0, es[1..])
  }

  /** No claim of any history succeeds at or after its entry's expiry. */
  lemma {:induction false} NeverClaimedAfterExpiry(s: Store, es: seq<Event>, used: set<nat>, i: nat)
    requires IdsKnown(s, used) && FreshIds(es, used) && i < |es|
    ensures |Answers(s, es)| == |es|
    ensures Answers(s, es)[i].Claimed? ==> es[i].now < Answers(s, es)[i].expires
    decreases |es|
  {
    var (s1, a) := Next(s, es[0]);
    IdsStayKnown(s, es[0], used);
    if |es| > 1 {
      NeverClaimedAfterExpiry(s1, es[1..], UsedAfter(es[0], used), if i == 0 then 0 else i - 1);
    }
  }

  // ----- clean-up changes nothing -----

  /** A store that never deletes and may, or may not, let a create replace a dead row. */
  datatype Kept = KeptCreate(create: Event, replace: bool) | KeptClaim(claim: Event)

  function KeptNext(s: Store, k: Kept): (Store, Answer) {
    match k
    case KeptClaim(e) => Next(s, e)
    case KeptCreate(e, replace) =>
      if !e.Create? then (s, Refused)
      else if e.code in s && replace && !Live(s[e.code], e.now) then DoCreate(s - {e.code}, e)
      else DoCreate(s, e)
  }

  function KeptAnswers(s: Store, ks: seq<Kept>): seq<Answer>
    decreases |ks|
  {
    if ks == [] then [] else [KeptNext(s, ks[0]).1] + KeptAnswers(KeptNext(s, ks[0]).0, ks[1..])
  }

  /** Creates and claims only, with the answers they got. */
  function Visible(es: seq<Event>): seq<Event> {
    if es == [] then [] else (if es[0].Cleanup? then [] else [es[0]]) + Visible(es[1..])
  }

  function VisibleAnswers(s: Store, es: seq<Event>): seq<Answer>
    decreases |es|
  {
    if es == [] then []
    else (if es[0].Cleanup? then [] else [Next(s, es[0]).1]) + VisibleAnswers(Next(s, es[0]).0, es[1..])
  }

  function Asked(ks: seq<Kept>): seq<Event> {
    if ks == [] then [] else [if ks[0].KeptCreate? then ks[0].create else ks[0].claim] + Asked(ks[1..])
  }

  /** s is t without some rows that are dead at `now`. */
  ghost predicate Pruned(s: Store, t: Store, now: nat) {
    && (forall code :: code in s ==> code in t && s[code] == t[code])
    && (forall code :: code in t && code !in s ==> !Live(t[code], now))
  }

  function Mirror(s: Store, e: Event): Kept {
    if e.Create? then KeptCreate(e, e.code !in s) else KeptClaim(e)
  }

  lemma CreateMirrored(s: Store, t: Store, e: Event, now: nat)
    requires Pruned(s, t, now) && e.Create? && now <= e.now
    ensures KeptNext(t, Mirror(s, e)).1 == Next(s, e).1
    ensures Pruned(Next(s, e).0, KeptNext(t, Mirror(s, e)).0, e.now)
  {
  }

  lemma ClaimMirrored(s: Store, t: Store, e: Event, now: nat, used: set<nat>)
    requires Pruned(s, t, now) && e.Claim? && now <= e.now && IdsKnown(t, used) && e.id !in used
    ensures KeptNext(t, Mirror(s, e)).1 == Next(s, e).1
    ensures Pruned(Next(s, e).0, KeptNext(t, Mirror(s, e)).0, e.now)
  {
  }

  lemma KeptIdsStayKnown(s: Store, t: Store, e: Event, used: set<nat>)
    requires IdsKnown(t, used) && !e.Cleanup?
    ensures IdsKnown(KeptNext(t, Mirror(s, e)).0, UsedAfter(e, used))
  {
  }

  /** Whatever clean-ups a history contains, a store that never deletes anything can give
      the same creates and claims the same answers. */
  lemma {:induction false} CleanupIsInvisible(s: Store, t: Store, es: seq<Event>, now: nat, used: set<nat>)
    returns (ks: seq<Kept>)
    requires Pruned(s, t, now) && Clocked(es, now) && IdsKnown(t, used) && FreshIds(es, used)
    ensures Asked(ks) == Visible(es)
    ensures KeptAnswers(t, ks) == VisibleAnswers(s, es)
    decreases |es|
  {
    if es == [] {
      ks := [];
    } else {
      var e := es[0];
      var s1 := Next(s, e).0;
      if e.Cleanup? {
        ks := CleanupIsInvisible(s1, t, es[1..], e.now, used);
      } else {
        var k := Mirror(s, e);
        if e.Create? {
          CreateMirrored(s, t, e, now);
        } else {
          ClaimMirrored(s, t, e, now, used);
        }
        KeptIdsStayKnown(s, t, e, used);
        var rest := CleanupIsInvisible(s1, KeptNext(t, k).0, es[1..], e.now, UsedAfter(e, used));
        ks := [k] + rest;
        assert ks[1..] == rest;
      }
    }
  }

  // ----- the repository -----

  /** ledger: what was claimed of each code. used: the claim ids seen so far. */
  class EntryStore {
    var rows: Store
    ghost var ledger: Ledger
    ghost var used: set<nat>

    /** Claims within budget, and every stored claim id seen before. */
    ghost predicate Valid()
      reads this
    {
      BudgetOk(rows, ledger) && IdsKnown(rows, used)
    }

    constructor ()
      ensures rows == map[] && ledger == map[] && used == {} && Valid()
    {
      rows, ledger, used := map[], map[], {};
    }

    method CreateEntry(code: string, value: string, now: nat, expires: nat, maxReads: nat) returns (a: Answer)
      requires Valid()
      modifies this
      ensures (rows, a) == Next(old(rows), Create(code, value, now, expires, maxReads))
      ensures Valid() && used == old(used)
      ensures ledger == Booked(old(ledger), Create(code, value, now, expires, maxReads), a)
    {
      StepKeepsBudget(rows, ledger, Create(code, value, now, expires, maxReads), used);
      IdsStayKnown(rows, Create(code, value, now, expires, maxReads), used);
      if code in rows || maxReads < 1 || maxReads > MAX_READS {
        return Refused;
      }
      rows := rows[code := Row(value, expires, maxReads, maxReads, None)];
      ledger := ledger[code := Account(0, maxReads)];
      return Created;
    }

    /** With a fresh id the store stays within its budgets, and a claim succeeds only
        before expiry and within its entry's own budget. */
    method ClaimEntry(code: string, now: nat, claimId: nat) returns (a: Answer)
      requires Valid()
      modifies this
      ensures (rows, a) == Next(old(rows), Claim(code, now, claimId))
      ensures used == old(used) + {claimId} && ledger == Booked(old(ledger), Claim(code, now, claimId), a)
      ensures claimId !in old(used) ==> Valid()
      ensures claimId !in old(used) && a.Claimed? ==>
                now < a.expires && code in ledger && ledger[code].taken + a.left == ledger[code].budget
    {
      ghost var e := Claim(code, now, claimId);
      if claimId !in used {
        StepKeepsBudget(rows, ledger, e, used);
      }
      IdsStayKnown(rows, e, used);
      ledger, used := Booked(ledger, e, Next(rows, e).1), used + {claimId};
      if code in rows && rows[code].expires > now && rows[code].remaining > 0 {
        var row := rows[code];
        rows := rows[code := row.(remaining := row.remaining - 1, lastClaim := Some(claimId))];
      }
      if code in rows && rows[code].lastClaim == Some(claimId) {
        return Claimed(rows[code].value, rows[code].remaining, rows[code].expires);
      }
      return Nothing;
    }

    /** Deletes every stale row; returns how many went. */
    method CleanupEntries(now: nat) returns (deleted: nat)
      requires Valid()
      modifies this`rows
      ensures rows == Next(old(rows), Cleanup(now)).0
      ensures Valid()
      ensures deleted == |old(rows)| - |rows|
      ensures forall code :: code in old(rows) ==> (code !in rows <==> !Live(old(rows)[code], now))
    {
      var before := rows;
      rows := map code | code in before && !(before[code].expires <= now || before[code].remaining <= 0)
                :: before[code];
      assert rows.Keys <= before.Keys;
      Smaller(rows.Keys, before.Keys);
      deleted := |before| - |rows|;
    }
  }

  lemma Smaller(a: set<string>, b: set<string>)
    requires a <= b
    ensures |a| <= |b|
  {
    assert |b| == |a| + |b - a| by {
      assert b == a + (b - a);
    }
  }
}
