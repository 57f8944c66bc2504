/**
 Rating runs that overlap. Each run is a transaction in steps: wait for the contest row's lock,
 re-check the flag, read the rating set, lock the users and snapshot them, commit or roll back.
 In between anything may happen: other runs, late submissions, late score computations. The ledger
 between ratings, histories and stored deltas balances after every step of every schedule.
 */
module RatingLedger {
  import opened Bounds
  import opened Wrappers
  import opened Elo
  import opened Ratings

  /** How far one run of apply_contest_ratings is. From Holding on it has the contest row's lock. */
  datatype Phase =
    | Waiting(c: nat)
    | Holding(c: nat)
    | Read(c: nat, submitters: set<int>)
    | Collected(c: nat, keys: map<int, PlaceKey>, order: seq<int>)
    | Locked(c: nat, keys: map<int, PlaceKey>, order: seq<int>, snapshot: map<int, User>)
    | Finished

  datatype State = State(db: Db, runs: seq<Phase>)

  datatype Event =
    | Begin(c: nat)
    | LockContest(r: nat)
    | ReadSubmitters(r: nat)
    | ReadScores(r: nat, order: seq<int>)
    | LockUsers(r: nat)
    | Commit(r: nat)
    | Rollback(r: nat)
    | LateScore(c: nat, u: int, key: PlaceKey) // calculate_score on a verdict that comes in now
    | Submit(c: nat, u: int)

  predicate Holds(p: Phase, c: nat) {
    (p.Holding? || p.Read? || p.Collected? || p.Locked?) && p.c == c
  }

  ghost predicate ContestFree(s: State, c: nat) {
    forall r :: 0 <= r < |s.runs| ==> !Holds(s.runs[r], c)
  }

  /** Nobody listed is locked by another run. */
  ghost predicate UsersFree(s: State, order: seq<int>) {
    forall r, u :: 0 <= r < |s.runs| && s.runs[r].Locked? && u in order ==> u !in s.runs[r].order
  }

  ghost predicate Can(s: State, e: Event) {
    match e
    case Begin(c) => c < |s.db.contests|
    case LockContest(r) =>
      r < |s.runs| && s.runs[r].Waiting? && s.runs[r].c < |s.db.contests| && ContestFree(s, s.runs[r].c)
    case ReadSubmitters(r) => r < |s.runs| && s.runs[r].Holding? && s.runs[r].c < |s.db.contests|
    case ReadScores(r, order) =>
      && r < |s.runs| && s.runs[r].Read? && s.runs[r].c < |s.db.contests|
      && Lists(order, s.db.contests[s.runs[r].c].rows.Keys + s.runs[r].submitters)
    case LockUsers(r) =>
      && r < |s.runs| && s.runs[r].Collected? && |s.runs[r].order| >= 2
      && UsersFree(s, s.runs[r].order) && (forall u :: u in s.runs[r].order ==> u in s.db.users)
    case Commit(r) => r < |s.runs| && (s.runs[r].Locked? || (s.runs[r].Collected? && |s.runs[r].order| < 2))
    case Rollback(r) => r < |s.runs|
    case LateScore(c, u, _) => c < |s.db.contests| && u in s.db.users
    case Submit(c, u) => c < |s.db.contests| && u in s.db.users
  }

  function Stamped(contest: Contest, u: int, key: PlaceKey): Contest {
    contest.(rows := contest.rows[u :=
      if u in contest.rows then contest.rows[u].(key := key) else ScoreRow(key, None, None)])
  }

  /** A score row appeared for someone the run took for unscored: the insert fails and the run rolls back. */
  predicate InsertConflicts(db: Db, p: Phase)
    requires p.Locked? && p.c < |db.contests|
  {
    exists u :: u in p.order && u !in p.keys && u in db.contests[p.c].rows
  }

  ghost predicate Committable(p: Phase, s: State) {
    && p.Locked? && p.c < |s.db.contests| && Lists(p.order, Members(p))
    && |p.order| >= 2 && Members(p) <= p.snapshot.Keys
  }

  function Members(p: Phase): set<int>
    requires p.Locked?
  {
    set u | u in p.order
  }

  ghost function Committed(curve: int -> real, db: Db, p: Phase): Db
    requires IsCurve(curve) && p.Locked? && p.c < |db.contests|
    requires Lists(p.order, Members(p)) && |p.order| >= 2 && Members(p) <= p.snapshot.Keys
  {
    DeltasCoverSet(curve, p.keys, Elos(p.snapshot), p.order, Members(p));
    var deltas := EloDeltas(curve, Entries(p.keys, Elos(p.snapshot), p.order));
    Announced(Award(db, p.c, Members(p), p.snapshot, deltas), p.c)
  }

  ghost function Next(curve: int -> real, s: State, e: Event): State
    requires IsCurve(curve)
  {
    if !Can(s, e) then s else
    match e
    case Begin(c) => s.(runs := s.runs + [Waiting(c)])
    case LockContest(r) =>
      var c := s.runs[r].c;
      if s.db.contests[c].rated then State(Announced(s.db, c), s.runs[r := Finished])
      else s.(runs := s.runs[r := Holding(c)])
    case ReadSubmitters(r) => s.(runs := s.runs[r := Read(s.runs[r].c, s.db.contests[s.runs[r].c].submitters)])
    case ReadScores(r, order) =>
      s.(runs := s.runs[r := Collected(s.runs[r].c, Keys(s.db.contests[s.runs[r].c]), order)])
    case LockUsers(r) =>
      var p := s.runs[r];
      s.(runs := s.runs[r := Locked(p.c, p.keys, p.order, s.db.users)])
    case Commit(r) =>
      var p, runs := s.runs[r], s.runs[r := Finished];
      if p.Collected? then
        if p.c < |s.db.contests| then State(Announced(MarkRated(s.db, p.c), p.c), runs) else s.(runs := runs)
      else if Committable(p, s) && !InsertConflicts(s.db, p) then State(Committed(curve, s.db, p), runs)
      else s.(runs := runs)
    case Rollback(r) => s.(runs := s.runs[r := Finished])
    case LateScore(c, u, key) => s.(db := s.db.(contests := s.db.contests[c := Stamped(s.db.contests[c], u, key)]))
    case Submit(c, u) =>
      var contest := s.db.contests[c];
      s.(db := s.db.(contests := s.db.contests[c := contest.(submitters := contest.submitters + {u})]))
  }

  ghost function Run(curve: int -> real, s: State, es: seq<Event>): State
    requires IsCurve(curve)
    decreases |es|
  {
    if es == [] then s else Run(curve, Next(curve, s, es[0]), es[1..])
  }

  // ---------------------------------------------------------------- what the locks protect

  /** A run holding a contest holds it alone and unrated; a run holding users holds them alone and unchanged. */
  ghost predicate LockAt(s: State, r: nat) {
    r < |s.runs| && !s.runs[r].Waiting? && !s.runs[r].Finished? ==>
      var p := s.runs[r];
      && p.c < |s.db.contests| && !s.db.contests[p.c].rated
      && (p.Collected? ==> Lists(p.order, set u | u in p.order))
      && (p.Locked? ==>
            && |p.order| >= 2 && Lists(p.order, Members(p)) && Members(p) <= p.snapshot.Keys * s.db.users.Keys
            && forall u :: u in p.order ==>
                 s.db.users[u].elo == p.snapshot[u].elo && s.db.users[u].maxRating == p.snapshot[u].maxRating)
  }

  ghost predicate Apart(s: State, r: nat, q: nat) {
    r < q < |s.runs| ==>
      && (forall c :: Holds(s.runs[r], c) ==> !Holds(s.runs[q], c))
      && (s.runs[r].Locked? && s.runs[q].Locked? ==> forall u :: u in s.runs[r].order ==> u !in s.runs[q].order)
  }

  ghost predicate LocksHold(s: State) {
    && (forall r: nat :: LockAt(s, r))
    && (forall r: nat, q: nat :: Apart(s, r, q))
  }

  // ---------------------------------------------------------------- the ledger

  function DeltaOf(contest: Contest, u: int): int {
    if u in contest.rows && contest.rows[u].delta.Some? then contest.rows[u].delta.value else 0
  }

  /** The sum of the user's stored deltas over all contests. */
  function DeltaSum(contests: seq<Contest>, u: int): int {
    if contests == [] then 0
    else DeltaSum(contests[..|contests| - 1], u) + DeltaOf(contests[|contests| - 1], u)
  }

  function PeakOf(start: int, history: seq<int>): int {
    if history == [] then start else Max(PeakOf(start, history[..|history| - 1]), history[|history| - 1])
  }

  /** start is the rating and peak of a user before any contest. */
  predicate Balanced(db: Db, start: int, u: int) {
    u in db.users ==>
      var user := db.users[u];
      && user.elo == start + DeltaSum(db.contests, u)
      && user.elo == (if user.history == [] then start else user.history[|user.history| - 1])
      && user.maxRating == PeakOf(start, user.history)
  }

  ghost predicate OnlyRatedPay(db: Db) {
    forall c, u :: 0 <= c < |db.contests| && !db.contests[c].rated ==> DeltaOf(db.contests[c], u) == 0
  }

  ghost predicate RatedAreAnnounced(db: Db) {
    forall c: nat, u ::
      c < |db.contests| && db.contests[c].rated && u in db.contests[c].participants ==> (c, u) in db.ended
  }

  lemma {:induction false} DeltaSumSet(contests: seq<Contest>, c: nat, contest: Contest, u: int)
    requires c < |contests|
    ensures DeltaSum(contests[c := contest], u) == DeltaSum(contests, u) - DeltaOf(contests[c], u) + DeltaOf(contest, u)
  {
    var n := |contests| - 1;
    if c == n {
      assert contests[c := contest][..n] == contests[..n];
    } else {
      DeltaSumSet(contests[..n], c, contest, u);
      assert contests[c := contest][..n] == contests[..n][c := contest];
    }
  }

  lemma CommitKeepsBalance(curve: int -> real, db: Db, p: Phase, start: int, u: int)
    requires IsCurve(curve) && p.Locked? && p.c < |db.contests| && !db.contests[p.c].rated && OnlyRatedPay(db)
    requires Lists(p.order, Members(p)) && |p.order| >= 2 && Members(p) <= p.snapshot.Keys * db.users.Keys
    requires u in p.order ==> db.users[u].elo == p.snapshot[u].elo && db.users[u].maxRating == p.snapshot[u].maxRating
    requires Balanced(db, start, u)
    ensures Balanced(Committed(curve, db, p), start, u)
  {
    DeltasCoverSet(curve, p.keys, Elos(p.snapshot), p.order, Members(p));
    var deltas := EloDeltas(curve, Entries(p.keys, Elos(p.snapshot), p.order));
    var after := Committed(curve, db, p);
    hide EloDeltas, Entries, Lists, DeltaSum;
    if u in db.users {
      DeltaSumSet(db.contests, p.c, after.contests[p.c], u);
      assert DeltaOf(db.contests[p.c], u) == 0;
      if u in p.order {
        var was := db.users[u].history;
        assert (was + [p.snapshot[u].elo + deltas[u]])[..|was|] == was;
      }
    }
  }

  /** Nothing the ledger looks at differs, and no notification is taken back. */
  ghost predicate SameLedger(a: Db, b: Db) {
    && a.users == b.users && |a.contests| == |b.contests| && a.ended <= b.ended
    && forall c :: 0 <= c < |a.contests| ==> SameResults(a.contests[c], b.contests[c])
  }

  ghost predicate SameResults(a: Contest, b: Contest) {
    a.rated == b.rated && a.participants == b.participants && forall u :: DeltaOf(a, u) == DeltaOf(b, u)
  }

  /** Every step but a commit leaves ratings and stored deltas alone; a late score keeps the delta columns. */
  lemma QuietStep(curve: int -> real, s: State, e: Event)
    requires IsCurve(curve) && !e.Commit?
    ensures SameLedger(s.db, Next(curve, s, e).db)
  {
    hide Lists;
    if Can(s, e) && e.LateScore? {
      assert SameResults(s.db.contests[e.c], Stamped(s.db.contests[e.c], e.u, e.key));
    }
  }

  lemma {:induction false} SameSums(a: seq<Contest>, b: seq<Contest>, u: int)
    requires |a| == |b| && forall c :: 0 <= c < |a| ==> SameResults(a[c], b[c])
    ensures DeltaSum(a, u) == DeltaSum(b, u)
  {
    if a != [] {
      SameSums(a[..|a| - 1], b[..|b| - 1], u);
      assert SameResults(a[|a| - 1], b[|a| - 1]);
    }
  }

  lemma StepKeepsBalance(curve: int -> real, s: State, e: Event, start: int, u: int)
    requires IsCurve(curve) && LocksHold(s) && OnlyRatedPay(s.db) && Balanced(s.db, start, u)
    ensures Balanced(Next(curve, s, e).db, start, u)
  {
    hide DeltaSum, Committed, Lists;
    if !e.Commit? {
      QuietStep(curve, s, e);
      SameSums(s.db.contests, Next(curve, s, e).db.contests, u);
    } else if Can(s, e) {
      assert LockAt(s, e.r);
      var p := s.runs[e.r];
      if p.Collected? {
        DeltaSumSet(s.db.contests, p.c, s.db.contests[p.c].(rated := true), u);
      } else if Committable(p, s) && !InsertConflicts(s.db, p) {
        CommitKeepsBalance(curve, s.db, p, start, u);
      }
    }
  }

  // ---------------------------------------------------------------- every step keeps the locks' promise

  /** What a commit changes: its contest becomes rated and announced, and only its members' user rows move. */
  ghost predicate CommitTouches(db: Db, p: Phase, after: Db)
    requires p.Locked? || p.Collected?
  {
    && p.c < |db.contests| == |after.contests| && after.users.Keys == db.users.Keys
    && (forall u :: u in db.users && (p.Collected? || u !in p.order) ==> after.users[u] == db.users[u])
    && (forall c :: 0 <= c < |db.contests| && c != p.c ==> after.contests[c] == db.contests[c])
    && after.contests[p.c].rated && after.contests[p.c].participants == db.contests[p.c].participants
    && after.ended == db.ended + set u | u in db.contests[p.c].participants :: (p.c, u)
  }

  lemma CommitStep(curve: int -> real, s: State, r: nat)
    requires IsCurve(curve) && LocksHold(s) && Can(s, Commit(r))
    ensures var t := Next(curve, s, Commit(r));
      && t.runs == s.runs[r := Finished]
      && (t.db == s.db || CommitTouches(s.db, s.runs[r], t.db))
  {
    assert LockAt(s, r);
    hide EloDeltas, Entries, Lists;
  }

  lemma CommitKeepsLockAt(curve: int -> real, s: State, r: nat, x: nat)
    requires IsCurve(curve) && LocksHold(s) && Can(s, Commit(r))
    ensures LockAt(Next(curve, s, Commit(r)), x)
  {
    CommitStep(curve, s, r);
    hide Next, Lists;
    var p := s.runs[r];
    assert LockAt(s, x) && Apart(s, r, x) && Apart(s, x, r);
    assert Holds(p, p.c);
    if x < |s.runs| && x != r {
      assert !Holds(s.runs[x], p.c);
      if s.runs[x].Locked? && p.Locked? {
        assert forall u :: u in s.runs[x].order ==> u !in p.order;
      }
    }
  }

  /** Events that only move a run along leave every other run as it was. */
  lemma QuietKeepsLockAt(curve: int -> real, s: State, e: Event, x: nat)
    requires IsCurve(curve) && LocksHold(s) && !e.Commit?
    ensures LockAt(Next(curve, s, e), x)
  {
    QuietStep(curve, s, e);
    assert LockAt(s, x);
    if Can(s, e) && e.LockUsers? {
      assert LockAt(s, e.r);
      assert Members(Next(curve, s, e).runs[e.r]) == set u | u in s.runs[e.r].order;
    }
    hide Announced, Stamped, SameResults, Keys;
  }

  lemma ApartStep(curve: int -> real, s: State, e: Event, x: nat, y: nat)
    requires IsCurve(curve) && LocksHold(s)
    ensures Apart(Next(curve, s, e), x, y)
  {
    hide Committed, Lists, LockAt, Announced, MarkRated, Keys;
    assert Apart(s, x, y);
  }

  lemma StepKeepsLocks(curve: int -> real, s: State, e: Event)
    requires IsCurve(curve) && LocksHold(s)
    ensures LocksHold(Next(curve, s, e))
  {
    forall r: nat ensures LockAt(Next(curve, s, e), r) {
      if !e.Commit? {
        QuietKeepsLockAt(curve, s, e, r);
      } else if Can(s, e) {
        CommitKeepsLockAt(curve, s, e.r, r);
      } else {
        assert LockAt(s, r);
      }
    }
    forall r: nat, q: nat ensures Apart(Next(curve, s, e), r, q) { ApartStep(curve, s, e, r, q); }
  }

  lemma StepKeepsFlags(curve: int -> real, s: State, e: Event)
    requires IsCurve(curve) && LocksHold(s) && OnlyRatedPay(s.db) && RatedAreAnnounced(s.db)
    ensures OnlyRatedPay(Next(curve, s, e).db) && RatedAreAnnounced(Next(curve, s, e).db)
    ensures Next(curve, s, e).db.users.Keys == s.db.users.Keys
  {
    if !e.Commit? {
      QuietStep(curve, s, e);
      hide Next;
      assert forall c :: 0 <= c < |s.db.contests| ==> SameResults(s.db.contests[c], Next(curve, s, e).db.contests[c]);
    } else if Can(s, e) {
      CommitStep(curve, s, e.r);
      hide Next;
    }
  }

  // ---------------------------------------------------------------- whole runs

  ghost predicate Sound(s: State, start: map<int, int>) {
    && LocksHold(s) && OnlyRatedPay(s.db) && RatedAreAnnounced(s.db)
    && s.db.users.Keys <= start.Keys
    && forall u :: u in s.db.users ==> Balanced(s.db, start[u], u)
  }

  lemma StepKeepsSound(curve: int -> real, s: State, e: Event, start: map<int, int>)
    requires IsCurve(curve) && Sound(s, start)
    ensures Sound(Next(curve, s, e), start)
  {
    StepKeepsLocks(curve, s, e);
    StepKeepsFlags(curve, s, e);
    forall u | u in s.db.users ensures Balanced(Next(curve, s, e).db, start[u], u) {
      StepKeepsBalance(curve, s, e, start[u], u);
    }
  }

  /** The ledger over whole runs: after any schedule of overlapping rating runs, rollbacks and late scores, each
      rating is the starting rating plus the stored deltas, the newest history point is the rating, the peak is
      the maximum of the start and the history, and a rated contest has told every participant. */
  lemma {:induction false} LedgerBalances(curve: int -> real, s: State, es: seq<Event>, start: map<int, int>)
    requires IsCurve(curve) && Sound(s, start)
    ensures Sound(Run(curve, s, es), start)
    decreases |es|
  {
    if es != [] {
      StepKeepsSound(curve, s, es[0], start);
      LedgerBalances(curve, Next(curve, s, es[0]), es[1..], start);
    }
  }

  /** Everyone starts in balance: nobody rated yet, nothing paid, no run under way. */
  lemma FreshDatabaseIsSound(users: map<int, User>, contests: seq<Contest>, start: map<int, int>)
    requires users.Keys <= start.Keys
    requires forall u :: u in users ==> users[u] == User(start[u], start[u], [])
    requires forall c :: 0 <= c < |contests| ==> !contests[c].rated && forall u :: DeltaOf(contests[c], u) == 0
    ensures Sound(State(Db(users, contests, {}), []), start)
  {
    forall u ensures DeltaSum(contests, u) == 0 { NothingPaid(contests, u); }
  }

  lemma {:induction false} NothingPaid(contests: seq<Contest>, u: int)
    requires forall c :: 0 <= c < |contests| ==> DeltaOf(contests[c], u) == 0
    ensures DeltaSum(contests, u) == 0
  {
    if contests != [] {
      NothingPaid(contests[..|contests| - 1], u);
    }
  }

  /** Each contest contributes at most once: once rated it stays rated, and no delta of it changes again. */
  lemma {:induction false} RatedOnceForAll(curve: int -> real, s: State, es: seq<Event>, c: nat, u: int)
    requires IsCurve(curve) && LocksHold(s) && c < |s.db.contests| && s.db.contests[c].rated
    ensures var t := Run(curve, s, es);
      c < |t.db.contests| && t.db.contests[c].rated && DeltaOf(t.db.contests[c], u) == DeltaOf(s.db.contests[c], u)
    decreases |es|
  {
    if es != [] {
      RatedStaysRated(curve, s, es[0], c, u);
      StepKeepsLocks(curve, s, es[0]);
      RatedOnceForAll(curve, Next(curve, s, es[0]), es[1..], c, u);
    }
  }

  lemma RatedStaysRated(curve: int -> real, s: State, e: Event, c: nat, u: int)
    requires IsCurve(curve) && LocksHold(s) && c < |s.db.contests| && s.db.contests[c].rated
    ensures var t := Next(curve, s, e);
      c < |t.db.contests| && t.db.contests[c].rated && DeltaOf(t.db.contests[c], u) == DeltaOf(s.db.contests[c], u)
  {
    if !e.Commit? {
      QuietStep(curve, s, e);
      assert SameResults(s.db.contests[c], Next(curve, s, e).db.contests[c]);
    } else if Can(s, e) {
      assert LockAt(s, e.r);
      CommitStep(curve, s, e.r);
      hide Next;
    }
  }

  /** An undisturbed run of the transaction is the sequential award followed by the announcement. */
  lemma CommitIsTheAward(curve: int -> real, db: Db, c: nat, order: seq<int>)
    requires IsCurve(curve) && c < |db.contests| && !db.contests[c].rated && |order| >= 2
    requires Lists(order, RatingSet(db.contests[c])) && RatingSet(db.contests[c]) <= db.users.Keys
    ensures var p := Locked(c, Keys(db.contests[c]), order, db.users);
      Members(p) == RatingSet(db.contests[c]) && Committed(curve, db, p) == Announced(Rated(curve, db, c, order), c)
  {
    var p := Locked(c, Keys(db.contests[c]), order, db.users);
    assert forall u :: u in Members(p) <==> u in RatingSet(db.contests[c]);
  }

  /** A run of the transaction from start to commit with nobody in between: the database is then the one the
      sequential code leaves, the rating set being everyone with a score row or a submission. */
  lemma UndisturbedRun(curve: int -> real, s: State, c: nat, order: seq<int>)
    requires IsCurve(curve) && c < |s.db.contests| && !s.db.contests[c].rated
    requires Lists(order, s.db.contests[c].rows.Keys + s.db.contests[c].submitters)
    requires s.db.contests[c].rows.Keys + s.db.contests[c].submitters <= s.db.users.Keys
    requires ContestFree(s, c) && UsersFree(s, order)
    ensures var r := |s.runs|;
      var es := [Begin(c), LockContest(r), ReadSubmitters(r), ReadScores(r, order), LockUsers(r), Commit(r)];
      Run(curve, s, es).db == RatedAndTold(curve, s.db, c, order)
  {
    var r := |s.runs|;
    var s4 := CollectsAlone(curve, s, c, order);
    CommitsAlone(curve, s, s4, c, order);
    SixSteps(curve, s, Begin(c), LockContest(r), ReadSubmitters(r), ReadScores(r, order), LockUsers(r), Commit(r));
  }

  /** From the start up to having read who is to be rated. */
  lemma CollectsAlone(curve: int -> real, s: State, c: nat, order: seq<int>) returns (t: State)
    requires IsCurve(curve) && c < |s.db.contests| && !s.db.contests[c].rated && ContestFree(s, c)
    requires Lists(order, s.db.contests[c].rows.Keys + s.db.contests[c].submitters)
    ensures var r := |s.runs|;
      t == Next(curve, Next(curve, Next(curve, Next(curve, s, Begin(c)), LockContest(r)), ReadSubmitters(r)),
                ReadScores(r, order))
    ensures t == State(s.db, s.runs + [Collected(c, Keys(s.db.contests[c]), order)])
  {
    hide Lists, Keys, Announced, Committed;
    var r, contest := |s.runs|, s.db.contests[c];
    var s1 := Next(curve, s, Begin(c));
    assert s1 == State(s.db, s.runs + [Waiting(c)]);
    assert ContestFree(s1, c);
    var s2 := Next(curve, s1, LockContest(r));
    assert s2.runs == s.runs + [Holding(c)];
    var s3 := Next(curve, s2, ReadSubmitters(r));
    assert s3.runs == s.runs + [Read(c, contest.submitters)];
    t := Next(curve, s3, ReadScores(r, order));
    assert t.runs == s.runs + [Collected(c, Keys(contest), order)];
  }

  /** From there to the commit; a field under two is not locked but only marked. */
  lemma CommitsAlone(curve: int -> real, s: State, t: State, c: nat, order: seq<int>)
    requires IsCurve(curve) && c < |s.db.contests| && !s.db.contests[c].rated && UsersFree(s, order)
    requires Lists(order, RatingSet(s.db.contests[c])) && RatingSet(s.db.contests[c]) <= s.db.users.Keys
    requires t == State(s.db, s.runs + [Collected(c, Keys(s.db.contests[c]), order)])
    ensures var r := |s.runs|;
      Next(curve, Next(curve, t, LockUsers(r)), Commit(r)).db == RatedAndTold(curve, s.db, c, order)
  {
    var r, contest := |s.runs|, s.db.contests[c];
    var u := Next(curve, t, LockUsers(r));
    if |order| < 2 {
      assert u == t;
    } else {
      assert UsersFree(t, order);
      forall x | x in order ensures x in s.db.users {
        assert x in RatingSet(contest);
      }
      var p := Locked(c, Keys(contest), order, s.db.users);
      assert u == State(s.db, s.runs + [p]) by { hide Lists, Keys; }
      CommitIsTheAward(curve, s.db, c, order);
      assert Members(p) == RatingSet(contest);
      assert !InsertConflicts(s.db, p);
      hide Committed, Rated, Lists;
    }
  }

  lemma SixSteps(curve: int -> real, s: State, a: Event, b: Event, c: Event, d: Event, e: Event, f: Event)
    requires IsCurve(curve)
    ensures Run(curve, s, [a, b, c, d, e, f])
         == Next(curve, Next(curve, Next(curve, Next(curve, Next(curve, Next(curve, s, a), b), c), d), e), f)
  {
    hide Next;
    assert [a, b, c, d, e, f] == [a, b, c] + [d, e, f] && [d, e, f] == [d, e, f] + [];
    var t := Next(curve, Next(curve, Next(curve, s, a), b), c);
    ThreeSteps(curve, s, a, b, c, [d, e, f]);
    ThreeSteps(curve, t, d, e, f, []);
  }

  lemma ThreeSteps(curve: int -> real, s: State, a: Event, b: Event, c: Event, rest: seq<Event>)
    requires IsCurve(curve)
    ensures Run(curve, s, [a, b, c] + rest) == Run(curve, Next(curve, Next(curve, Next(curve, s, a), b), c), rest)
  {
    hide Next;
    var es := [a, b, c] + rest;
    assert es[1..] == [b, c] + rest && ([b, c] + rest)[1..] == [c] + rest && ([c] + rest)[1..] == rest;
    assert Run(curve, s, es) == Run(curve, Next(curve, s, a), [b, c] + rest);
    assert Run(curve, Next(curve, s, a), [b, c] + rest) == Run(curve, Next(curve, Next(curve, s, a), b), [c] + rest);
  }

  /** A submission makes its author one to be rated, and nothing else. */
  lemma SubmissionJoins(curve: int -> real, s: State, c: nat, u: int)
    requires IsCurve(curve) && Can(s, Submit(c, u))
    ensures var after := Next(curve, s, Submit(c, u)).db.contests[c];
      after == s.db.contests[c].(submitters := s.db.contests[c].submitters + {u})
  {
  }

  /** A score computed while a rating is under way replaces the result and keeps the stored delta. */
  lemma LateScoreKeepsTheDelta(curve: int -> real, s: State, c: nat, u: int, key: PlaceKey)
    requires IsCurve(curve) && Can(s, LateScore(c, u, key))
    ensures var after := Next(curve, s, LateScore(c, u, key)).db.contests[c];
      && u in after.rows && after.rows[u].key == key
      && DeltaOf(after, u) == DeltaOf(s.db.contests[c], u)
      && after.submitters == s.db.contests[c].submitters
      && forall x :: x != u && x in s.db.contests[c].rows ==>
           x in after.rows && after.rows[x] == s.db.contests[c].rows[x]
  {
  }
}
