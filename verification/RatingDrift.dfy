/**
 How far ratings drift as a whole. Unrounded, every contest takes from some what it gives to others;
 the only leak is rounding. Over any run of overlapping rating transactions the sum of all ratings
 stays within half a point per rated entry of where it started.
 */
module RatingDrift {
  import opened Elo
  import opened Ratings
  import opened RatingLedger

  // ---------------------------------------------------------------- sums over a set of users

  ghost function SumBy(f: int -> int, us: set<int>): int {
    if !exists u :: u in us then 0 else
    var u :| u in us;
    f(u) + SumBy(f, us - {u})
  }

  lemma {:induction false} SumAnyOrder(f: int -> int, us: set<int>, u: int)
    requires u in us
    ensures SumBy(f, us) == f(u) + SumBy(f, us - {u})
    decreases |us|
  {
    var v :| v in us && SumBy(f, us) == f(v) + SumBy(f, us - {v});
    if v != u {
      SumAnyOrder(f, us - {v}, u);
      SumAnyOrder(f, us - {u}, v);
      assert us - {v} - {u} == us - {u} - {v};
    }
  }

  lemma {:induction false} SumAdd(f: int -> int, g: int -> int, h: int -> int, us: set<int>)
    requires forall u :: u in us ==> f(u) == g(u) + h(u)
    ensures SumBy(f, us) == SumBy(g, us) + SumBy(h, us)
    decreases |us|
  {
    if u :| u in us {
      SumAnyOrder(f, us, u);
      SumAnyOrder(g, us, u);
      SumAnyOrder(h, us, u);
      SumAdd(f, g, h, us - {u});
    }
  }

  lemma {:induction false} SumEqual(f: int -> int, g: int -> int, us: set<int>)
    requires forall u :: u in us ==> f(u) == g(u)
    ensures SumBy(f, us) == SumBy(g, us)
    decreases |us|
  {
    if u :| u in us {
      SumAnyOrder(f, us, u);
      SumAnyOrder(g, us, u);
      SumEqual(f, g, us - {u});
    }
  }

  /** Users whose value is zero can be left out. */
  lemma {:induction false} SumIgnoresZeros(f: int -> int, us: set<int>, more: set<int>)
    requires us <= more && forall u :: u in more - us ==> f(u) == 0
    ensures SumBy(f, more) == SumBy(f, us)
    decreases |more|
  {
    if u :| u in more - us {
      SumAnyOrder(f, more, u);
      SumIgnoresZeros(f, us, more - {u});
    } else {
      forall u | u in more ensures u in us {
        assert u in more - us || u in us;
      }
      assert us == more;
    }
  }

  // ---------------------------------------------------------------- one contest

  /** The rated entries of a contest: its score rows that carry a delta. */
  function RatedEntries(contest: Contest): set<int> {
    set u | u in contest.rows && contest.rows[u].delta.Some?
  }

  ghost function DeltasTotal(contest: Contest, us: set<int>): int {
    SumBy(u => DeltaOf(contest, u), us)
  }

  /** The deltas of a contest cancel out but for half a point per entry. */
  ghost predicate Leaks(contest: Contest) {
    var entries := RatedEntries(contest);
    -|entries| <= 2 * DeltasTotal(contest, entries) <= |entries|
  }

  lemma {:induction false} FirstsGrow(order: seq<int>, i: nat)
    requires AllDifferent(order) && i <= |order|
    ensures |Firsts(order, i)| == i
  {
    if i > 0 {
      FirstsGrow(order, i - 1);
      assert order[i - 1] !in Firsts(order, i - 1);
      assert Firsts(order, i) == Firsts(order, i - 1) + {order[i - 1]};
    } else {
      assert Firsts(order, 0) == {};
    }
  }

  ghost predicate AllDifferent(order: seq<int>) {
    forall i, j :: 0 <= i < j < |order| ==> order[i] != order[j]
  }

  /** What the first i contestants are paid is the sum of their computed deltas. */
  lemma {:induction false} PaidInOrder(curve: int -> real, ps: seq<Participant>, order: seq<int>, f: int -> int, i: nat)
    requires IsCurve(curve) && |ps| == |order| >= 2 && AllDifferent(order) && i <= |order|
    requires forall k :: 0 <= k < |order| ==> f(order[k]) == Delta(curve, ps[k], ps)
    ensures SumBy(f, Firsts(order, i)) == SumDeltas(curve, ps[..i], ps)
  {
    if i > 0 {
      PaidInOrder(curve, ps, order, f, i - 1);
      var u := order[i - 1];
      assert u !in Firsts(order, i - 1);
      assert Firsts(order, i) == Firsts(order, i - 1) + {u};
      SumAnyOrder(f, Firsts(order, i), u);
      assert Firsts(order, i) - {u} == Firsts(order, i - 1);
      assert ps[..i][..i - 1] == ps[..i - 1];
    } else {
      assert Firsts(order, 0) == {};
    }
  }

  /** The committed contest: everyone in the set paid their delta, everyone else as before. */
  lemma CommitPays(curve: int -> real, db: Db, p: Phase)
    requires IsCurve(curve) && p.Locked? && p.c < |db.contests|
    requires Lists(p.order, Members(p)) && |p.order| >= 2 && Members(p) <= p.snapshot.Keys
    ensures var ps, after := Entries(p.keys, Elos(p.snapshot), p.order), Committed(curve, db, p);
      && p.c < |after.contests| && |ps| == |p.order|
      && RatedEntries(after.contests[p.c]) == RatedEntries(db.contests[p.c]) + Members(p)
      && (forall u :: u !in Members(p) ==> DeltaOf(after.contests[p.c], u) == DeltaOf(db.contests[p.c], u))
      && (forall k :: 0 <= k < |p.order| ==> DeltaOf(after.contests[p.c], p.order[k]) == Delta(curve, ps[k], ps))
  {
    DeltasCoverSet(curve, p.keys, Elos(p.snapshot), p.order, Members(p));
    ComputedInOrder(curve, p.keys, Elos(p.snapshot), p.order, Members(p));
    var deltas := EloDeltas(curve, Entries(p.keys, Elos(p.snapshot), p.order));
    hide EloDeltas, Entries, Delta, IsCurve, Lists, PaidRows, PaidUsers, RatedEntries, DeltaOf;
    PayingMarksRows(db.contests[p.c], Members(p), p.snapshot, deltas);
  }

  lemma ComputedInOrder(curve: int -> real, keys: map<int, PlaceKey>, ratings: map<int, int>,
                        order: seq<int>, paid: set<int>)
    requires IsCurve(curve) && Lists(order, paid) && paid <= ratings.Keys && |order| >= 2
    ensures var ps := Entries(keys, ratings, order);
      forall k :: 0 <= k < |order| ==>
        order[k] in EloDeltas(curve, ps) && EloDeltas(curve, ps)[order[k]] == Delta(curve, ps[k], ps)
  {
    var ps := Entries(keys, ratings, order);
    DeltasAt(curve, ps, ps);
    hide Deltas, Delta, IsCurve;
    assert forall k :: 0 <= k < |order| ==> ps[k].userId == order[k];
  }

  lemma PayingMarksRows(was: Contest, paid: set<int>, snapshot: map<int, User>, deltas: map<int, int>)
    requires paid <= snapshot.Keys && paid <= deltas.Keys
    ensures var now := was.(rated := true, rows := PaidRows(was.rows, paid, snapshot, deltas));
      && RatedEntries(now) == RatedEntries(was) + paid
      && (forall u :: DeltaOf(now, u) == if u in paid then deltas[u] else DeltaOf(was, u))
  {
  }

  lemma RoundingLeaks(curve: int -> real, before: Contest, after: Contest, ps: seq<Participant>, order: seq<int>)
    requires IsCurve(curve) && |ps| == |order| >= 2 && AllDifferent(order)
    requires forall u :: DeltaOf(before, u) == 0
    requires RatedEntries(after) == RatedEntries(before) + Firsts(order, |order|)
    requires forall u :: u !in Firsts(order, |order|) ==> DeltaOf(after, u) == DeltaOf(before, u)
    requires forall k :: 0 <= k < |order| ==> DeltaOf(after, order[k]) == Delta(curve, ps[k], ps)
    ensures Leaks(after)
  {
    hide Delta, IsCurve, RatedEntries, DeltaOf;
    var f := u => DeltaOf(after, u);
    var paid, entries := Firsts(order, |order|), RatedEntries(after);
    PaidInOrder(curve, ps, order, f, |order|);
    assert ps[..|order|] == ps;
    RatingDriftIsBounded(curve, ps);
    FirstsGrow(order, |order|);
    SumIgnoresZeros(f, paid, entries);
    assert entries == paid + (entries - paid);
  }

  /** Rounding is all that a commit leaks: the deltas it stores sum to at most half a point per rated entry. */
  lemma CommitLeaks(curve: int -> real, db: Db, p: Phase)
    requires IsCurve(curve) && p.Locked? && p.c < |db.contests| && !db.contests[p.c].rated && OnlyRatedPay(db)
    requires Lists(p.order, Members(p)) && |p.order| >= 2 && Members(p) <= p.snapshot.Keys
    ensures var after := Committed(curve, db, p);
      && p.c < |after.contests| && Leaks(after.contests[p.c])
      && RatedEntries(after.contests[p.c]) == RatedEntries(db.contests[p.c]) + Members(p)
  {
    CommitPays(curve, db, p);
    MembersAreFirsts(p);
    var ps := Entries(p.keys, Elos(p.snapshot), p.order);
    hide Committed, Leaks, RatedEntries, Entries, IsCurve;
    RoundingLeaks(curve, db.contests[p.c], Committed(curve, db, p).contests[p.c], ps, p.order);
  }

  lemma MembersAreFirsts(p: Phase)
    requires p.Locked?
    ensures Firsts(p.order, |p.order|) == Members(p)
  {
    forall u | u in p.order ensures u in Firsts(p.order, |p.order|) {
      var k :| 0 <= k < |p.order| && p.order[k] == u;
    }
  }

  // ---------------------------------------------------------------- every step

  /** Every contest leaks at most its half points, and only known users have entries. */
  ghost predicate Tight(db: Db) {
    forall c :: 0 <= c < |db.contests| ==> Leaks(db.contests[c]) && RatedEntries(db.contests[c]) <= db.users.Keys
  }

  lemma LeaksCarryOver(a: Contest, b: Contest)
    requires RatedEntries(a) == RatedEntries(b) && forall u :: DeltaOf(a, u) == DeltaOf(b, u)
    ensures Leaks(a) ==> Leaks(b)
  {
    SumEqual(u => DeltaOf(a, u), u => DeltaOf(b, u), RatedEntries(a));
  }

  lemma QuietKeepsEntries(curve: int -> real, s: State, e: Event, c: nat)
    requires IsCurve(curve) && !e.Commit? && c < |s.db.contests|
    ensures var t := Next(curve, s, e);
      c < |t.db.contests| && RatedEntries(t.db.contests[c]) == RatedEntries(s.db.contests[c])
  {
    hide Lists;
    if Can(s, e) && e.LateScore? {
      assert RatedEntries(Stamped(s.db.contests[e.c], e.u, e.key)) == RatedEntries(s.db.contests[e.c]);
    }
  }

  lemma CommitKeepsTightAt(curve: int -> real, s: State, r: nat, c: nat)
    requires IsCurve(curve) && LocksHold(s) && OnlyRatedPay(s.db) && Tight(s.db) && Can(s, Commit(r))
    requires c < |s.db.contests|
    ensures var t := Next(curve, s, Commit(r));
      c < |t.db.contests| && Leaks(t.db.contests[c]) && RatedEntries(t.db.contests[c]) <= t.db.users.Keys
  {
    var t, p := Next(curve, s, Commit(r)), s.runs[r];
    assert LockAt(s, r);
    CommitStep(curve, s, r);
    hide Committed, Leaks, RatedEntries;
    if p.Locked? && t.db != s.db && c == p.c {
      CommitLeaks(curve, s.db, p);
    } else if p.Collected? && c == p.c {
      MarkingLeavesEntries(s.db.contests[c]);
    }
  }

  lemma MarkingLeavesEntries(contest: Contest)
    ensures RatedEntries(contest.(rated := true)) == RatedEntries(contest)
    ensures Leaks(contest) ==> Leaks(contest.(rated := true))
  {
    LeaksCarryOver(contest, contest.(rated := true));
  }

  lemma StepKeepsTight(curve: int -> real, s: State, e: Event)
    requires IsCurve(curve) && LocksHold(s) && OnlyRatedPay(s.db) && RatedAreAnnounced(s.db) && Tight(s.db)
    ensures Tight(Next(curve, s, e).db)
  {
    var t := Next(curve, s, e);
    StepKeepsFlags(curve, s, e);
    if e.Commit? && Can(s, e) {
      CommitStep(curve, s, e.r);
    } else if !e.Commit? {
      QuietStep(curve, s, e);
    }
    assert |t.db.contests| == |s.db.contests|;
    forall c | 0 <= c < |t.db.contests|
      ensures Leaks(t.db.contests[c]) && RatedEntries(t.db.contests[c]) <= t.db.users.Keys
    {
      if !e.Commit? {
        QuietKeepsEntries(curve, s, e, c);
        assert SameResults(s.db.contests[c], t.db.contests[c]);
        LeaksCarryOver(s.db.contests[c], t.db.contests[c]);
      } else if Can(s, e) {
        CommitKeepsTightAt(curve, s, e.r, c);
      }
    }
  }

  lemma {:induction false} RunKeepsTight(curve: int -> real, s: State, es: seq<Event>, start: map<int, int>)
    requires IsCurve(curve) && Sound(s, start) && Tight(s.db)
    ensures Sound(Run(curve, s, es), start) && Tight(Run(curve, s, es).db)
    decreases |es|
  {
    if es != [] {
      StepKeepsSound(curve, s, es[0], start);
      StepKeepsTight(curve, s, es[0]);
      RunKeepsTight(curve, Next(curve, s, es[0]), es[1..], start);
    }
  }

  // ---------------------------------------------------------------- the whole platform

  function EntryCount(contests: seq<Contest>): int {
    if contests == [] then 0 else EntryCount(contests[..|contests| - 1]) + |RatedEntries(contests[|contests| - 1])|
  }

  /** Summed over users, or summed over contests: the stored deltas are the same. */
  lemma {:induction false} DeltasLeak(contests: seq<Contest>, us: set<int>)
    requires forall c :: 0 <= c < |contests| ==> Leaks(contests[c]) && RatedEntries(contests[c]) <= us
    ensures -EntryCount(contests) <= 2 * SumBy(u => DeltaSum(contests, u), us) <= EntryCount(contests)
  {
    if contests == [] {
      SumIgnoresZeros(u => DeltaSum(contests, u), {}, us);
    } else {
      var n := |contests| - 1;
      DeltasLeak(contests[..n], us);
      SumAdd(u => DeltaSum(contests, u), u => DeltaSum(contests[..n], u), u => DeltaOf(contests[n], u), us);
      SumIgnoresZeros(u => DeltaOf(contests[n], u), RatedEntries(contests[n]), us);
      assert Leaks(contests[n]);
    }
  }

  ghost function Gained(db: Db, start: map<int, int>): int {
    SumBy(u => if u in db.users && u in start then db.users[u].elo - start[u] else 0, db.users.Keys)
  }

  /** Total drift over a run: after any schedule of overlapping rating runs, rollbacks and late scores, all
      ratings together have moved by at most half a point per rated entry. */
  lemma DriftIsBounded(curve: int -> real, s: State, es: seq<Event>, start: map<int, int>)
    requires IsCurve(curve) && Sound(s, start) && Tight(s.db)
    ensures var db := Run(curve, s, es).db;
      -EntryCount(db.contests) <= 2 * Gained(db, start) <= EntryCount(db.contests)
  {
    RunKeepsTight(curve, s, es, start);
    var db := Run(curve, s, es).db;
    hide Run;
    DeltasLeak(db.contests, db.users.Keys);
    SumEqual(u => if u in db.users && u in start then db.users[u].elo - start[u] else 0,
             u => DeltaSum(db.contests, u), db.users.Keys);
  }

  /** And a database nobody was rated in starts without drift. */
  lemma FreshDatabaseIsTight(users: map<int, User>, contests: seq<Contest>)
    requires forall c :: 0 <= c < |contests| ==> RatedEntries(contests[c]) == {}
    ensures Tight(Db(users, contests, {}))
  {
  }
}
