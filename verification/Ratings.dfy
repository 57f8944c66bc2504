/**
 Awarding ratings for a finished contest: the rating set, the entries built from it, the award
 itself as one transaction body, and the read-only prediction that must come out the same.
 */
module Ratings {
  import opened Bounds
  import opened Wrappers
  import opened Elo

  /** `history` is the user's EloHistory, oldest point first. */
  datatype User = User(elo: int, maxRating: int, history: seq<int>)

  datatype ScoreRow = ScoreRow(key: PlaceKey, delta: Option<int>, after: Option<int>)

  datatype Contest = Contest(rated: bool, participants: set<int>, submitters: set<int>, rows: map<int, ScoreRow>)

  /** `ended` holds the contest-ended notifications: contest and recipient. */
  datatype Db = Db(users: map<int, User>, contests: seq<Contest>, ended: set<(nat, int)>)

  const NOTHING_SOLVED := PlaceKey(0, 0, None)

  // ---------------------------------------------------------------- the rating set and its entries

  function RatingSet(contest: Contest): set<int> {
    contest.rows.Keys + contest.submitters
  }

  /** The list names every element of the set once, in whatever order the query or the set iteration gave it. */
  ghost predicate Lists(order: seq<int>, s: set<int>) {
    && (forall u :: u in order <==> u in s)
    && (forall i, j :: 0 <= i < j < |order| ==> order[i] != order[j])
  }

  function Keys(contest: Contest): map<int, PlaceKey> {
    map u | u in contest.rows :: contest.rows[u].key
  }

  function EntryOf(keys: map<int, PlaceKey>, ratings: map<int, int>, u: int): Participant
    requires u in ratings
  {
    Participant(u, ratings[u], if u in keys then keys[u] else NOTHING_SOLVED)
  }

  function Entries(keys: map<int, PlaceKey>, ratings: map<int, int>, order: seq<int>): seq<Participant>
    requires forall u :: u in order ==> u in ratings
  {
    seq(|order|, i requires 0 <= i < |order| => EntryOf(keys, ratings, order[i]))
  }

  lemma MembersHaveRatings(order: seq<int>, s: set<int>, users: map<int, User>)
    requires Lists(order, s) && s <= users.Keys
    ensures forall u :: u in order ==> u in Elos(users)
  {
  }

  lemma ListsConcat(a: seq<int>, b: seq<int>, s: set<int>, t: set<int>)
    requires Lists(a, s) && Lists(b, t) && s !! t
    ensures Lists(a + b, s + t)
  {
    forall i, j | 0 <= i < j < |a + b| ensures (a + b)[i] != (a + b)[j] {
      if i < |a| <= j {
        assert a[i] in a && b[j - |a|] in b;
      }
    }
  }

  lemma {:induction false} OnceEach<T>(a: seq<T>, x: T)
    requires forall i, j :: 0 <= i < j < |a| ==> a[i] != a[j]
    ensures multiset(a)[x] == if x in a then 1 else 0
  {
    if a != [] {
      OnceEach(a[1..], x);
      assert a == [a[0]] + a[1..];
    }
  }

  /** Two listings of one rating set make the same entries, up to order. */
  lemma EntriesPermute(keys: map<int, PlaceKey>, ratings: map<int, int>, a: seq<int>, b: seq<int>, s: set<int>)
    requires Lists(a, s) && Lists(b, s) && s <= ratings.Keys
    ensures multiset(Entries(keys, ratings, a)) == multiset(Entries(keys, ratings, b))
    ensures DistinctUsers(Entries(keys, ratings, a)) && DistinctUsers(Entries(keys, ratings, b))
  {
    var p, q := Entries(keys, ratings, a), Entries(keys, ratings, b);
    forall x ensures multiset(p)[x] == multiset(q)[x] {
      OnceEach(p, x);
      OnceEach(q, x);
      if i :| 0 <= i < |p| && p[i] == x {
        assert a[i] in b;
        var j :| 0 <= j < |b| && b[j] == a[i];
        assert q[j] == x;
      }
      if j :| 0 <= j < |q| && q[j] == x {
        assert b[j] in a;
        var i :| 0 <= i < |a| && a[i] == b[j];
        assert p[i] == x;
      }
    }
  }

  lemma DeltasCoverSet(curve: int -> real, keys: map<int, PlaceKey>, ratings: map<int, int>, order: seq<int>,
                       s: set<int>)
    requires IsCurve(curve) && Lists(order, s) && s <= ratings.Keys && |order| >= 2
    ensures EloDeltas(curve, Entries(keys, ratings, order)).Keys == s
  {
    var ps := Entries(keys, ratings, order);
    DeltasAt(curve, ps, ps);
    hide Deltas;
    forall u ensures u in EloDeltas(curve, ps) <==> u in s {
      if u in s {
        var i :| 0 <= i < |order| && order[i] == u;
        assert ps[i].userId == u;
      }
    }
  }

  // ---------------------------------------------------------------- the award

  /** The user row as saved from the locked snapshot, and one more point of history. */
  function Paid(current: User, snapshot: User, delta: int): User {
    var rating := snapshot.elo + delta;
    User(rating, Max(snapshot.maxRating, rating), current.history + [rating])
  }

  function PaidRow(rows: map<int, ScoreRow>, u: int, delta: int, rating: int): ScoreRow {
    if u in rows then rows[u].(delta := Some(delta), after := Some(rating))
    else ScoreRow(NOTHING_SOLVED, Some(delta), Some(rating))
  }

  function PaidRows(rows: map<int, ScoreRow>, paid: set<int>, snapshot: map<int, User>, deltas: map<int, int>)
    : map<int, ScoreRow>
    requires paid <= snapshot.Keys && paid <= deltas.Keys
  {
    map u | u in rows.Keys + paid ::
      if u in paid then PaidRow(rows, u, deltas[u], snapshot[u].elo + deltas[u]) else rows[u]
  }

  function PaidUsers(users: map<int, User>, paid: set<int>, snapshot: map<int, User>, deltas: map<int, int>)
    : map<int, User>
    requires paid <= snapshot.Keys && paid <= deltas.Keys
  {
    map u | u in users :: if u in paid then Paid(users[u], snapshot[u], deltas[u]) else users[u]
  }

  /** Paying one more user of the set is one write to each table. */
  lemma PayOneMore(users: map<int, User>, rows: map<int, ScoreRow>, paid: set<int>, u: int, deltas: map<int, int>)
    requires paid + {u} <= users.Keys && paid + {u} <= deltas.Keys && u !in paid
    ensures var before, rating := PaidUsers(users, paid, users, deltas), users[u].elo + deltas[u];
      && u in before && before[u] == users[u]
      && PaidUsers(users, paid + {u}, users, deltas)
           == before[u := User(rating, Max(before[u].maxRating, rating), before[u].history + [rating])]
    ensures var before, rating := PaidRows(rows, paid, users, deltas), users[u].elo + deltas[u];
      && (u in before <==> u in rows)
      && PaidRows(rows, paid + {u}, users, deltas)
           == before[u := if u in before then before[u].(delta := Some(deltas[u]), after := Some(rating))
                          else ScoreRow(NOTHING_SOLVED, Some(deltas[u]), Some(rating))]
  {
  }

  lemma PayNone(users: map<int, User>, rows: map<int, ScoreRow>, deltas: map<int, int>)
    ensures PaidUsers(users, {}, users, deltas) == users && PaidRows(rows, {}, users, deltas) == rows
  {
  }

  function Elos(users: map<int, User>): map<int, int> {
    map u | u in users :: users[u].elo
  }

  /** Steps 6 and 7 of apply_contest_ratings: everyone in the set paid, the contest marked. */
  function Award(db: Db, c: nat, paid: set<int>, snapshot: map<int, User>, deltas: map<int, int>): Db
    requires c < |db.contests| && paid <= snapshot.Keys && paid <= deltas.Keys
  {
    var contest := db.contests[c];
    Db(PaidUsers(db.users, paid, snapshot, deltas),
       db.contests[c := contest.(rated := true, rows := PaidRows(contest.rows, paid, snapshot, deltas))],
       db.ended)
  }

  function MarkRated(db: Db, c: nat): Db
    requires c < |db.contests|
  {
    db.(contests := db.contests[c := db.contests[c].(rated := true)])
  }

  /** The contest-ended row for every participant who lacks it. */
  function Announced(db: Db, c: nat): Db
    requires c < |db.contests|
  {
    db.(ended := db.ended + set u | u in db.contests[c].participants :: (c, u))
  }

  /** What one undisturbed run of the transaction does to the database. */
  ghost function Rated(curve: int -> real, db: Db, c: nat, order: seq<int>): Db
    requires IsCurve(curve) && c < |db.contests|
    requires Lists(order, RatingSet(db.contests[c])) && RatingSet(db.contests[c]) <= db.users.Keys
  {
    var contest := db.contests[c];
    if contest.rated then db
    else if |order| < 2 then MarkRated(db, c)
    else
      DeltasCoverSet(curve, Keys(contest), Elos(db.users), order, RatingSet(contest));
      Award(db, c, RatingSet(contest), db.users, EloDeltas(curve, Entries(Keys(contest), Elos(db.users), order)))
  }

  /** One contest of the task: the award and the announcement, in one transaction. */
  ghost function RatedAndTold(curve: int -> real, db: Db, c: nat, order: seq<int>): Db
    requires IsCurve(curve)
  {
    if c < |db.contests| && Lists(order, RatingSet(db.contests[c])) && RatingSet(db.contests[c]) <= db.users.Keys then
      Announced(Rated(curve, db, c, order), c)
    else
      db
  }

  /** The contests of one run in order, those that raise left out. */
  ghost function RatedAll(curve: int -> real, db: Db, due: seq<nat>, orders: seq<seq<int>>, raises: set<nat>): Db
    requires IsCurve(curve) && |orders| == |due|
  {
    if due == [] then db else
    var n := |due| - 1;
    var before := RatedAll(curve, db, due[..n], orders[..n], raises);
    if due[n] in raises then before else RatedAndTold(curve, before, due[n], orders[n])
  }

  /** An unrated contest of known users, and its rating set in place order. */
  ghost predicate Payable(db: Db, c: nat, order: seq<int>)
    requires c < |db.contests|
  {
    && !db.contests[c].rated
    && Lists(order, RatingSet(db.contests[c])) && RatingSet(db.contests[c]) <= db.users.Keys
  }

  /** One run of the task rates and announces exactly the due contests whose transaction holds; one that fails
      is left just as it was, for the next run, and does not keep the others from being rated. */
  lemma {:induction false} TaskRatesTheDue(curve: int -> real, db: Db, due: seq<nat>, orders: seq<seq<int>>,
                                           raises: set<nat>, x: nat)
    requires IsCurve(curve) && AllDistinct(due) && |orders| == |due| && x < |db.contests|
    requires forall i :: 0 <= i < |due| ==> due[i] < |db.contests| && Payable(db, due[i], orders[i])
    ensures var after := RatedAll(curve, db, due, orders, raises);
      && |after.contests| == |db.contests| && after.users.Keys == db.users.Keys && db.ended <= after.ended
      && (x in due && x !in raises ==>
            after.contests[x].rated && forall u :: u in db.contests[x].participants ==> (x, u) in after.ended)
      && (x !in due || x in raises ==> after.contests[x] == db.contests[x])
  {
    if due != [] {
      var n := |due| - 1;
      var before := RatedAll(curve, db, due[..n], orders[..n], raises);
      hide IsCurve, Lists, RatedAndTold;
      TaskRatesTheDue(curve, db, due[..n], orders[..n], raises, x);
      TaskRatesTheDue(curve, db, due[..n], orders[..n], raises, due[n]);
      assert due[n] !in due[..n];
      assert x in due <==> x in due[..n] || x == due[n];
      if due[n] !in raises {
        RatingLeavesTheRest(curve, before, due[n], orders[n]);
        RatingMarksAndTells(curve, before, due[n], orders[n]);
      }
    }
  }

  lemma RatingMarksAndTells(curve: int -> real, db: Db, c: nat, order: seq<int>)
    requires IsCurve(curve) && c < |db.contests| && Payable(db, c, order)
    ensures var after := RatedAndTold(curve, db, c, order);
      && c < |after.contests| && after.contests[c].rated
      && forall u :: u in db.contests[c].participants ==> (c, u) in after.ended
  {
    hide EloDeltas, Entries, Lists;
  }

  /** The contests of the list whose transaction held. */
  function Committing(due: seq<nat>, raises: set<nat>): set<nat> {
    set c | c in due && c !in raises
  }

  /** They are counted as processed, each once. */
  lemma {:induction false} CountsTheCommitted(due: seq<nat>, raises: set<nat>)
    requires AllDistinct(due)
    ensures CountOutside(due, raises) == |Committing(due, raises)|
  {
    if due == [] {
      assert Committing(due, raises) == {};
    } else {
      var n := |due| - 1;
      var before := Committing(due[..n], raises);
      CountsTheCommitted(due[..n], raises);
      forall i | 0 <= i < n ensures due[..n][i] != due[n] {
        assert due[i] != due[n];
      }
      assert due[n] !in before;
      assert forall c :: c in due <==> c in due[..n] || c == due[n];
      if due[n] in raises {
        assert Committing(due, raises) == before;
      } else {
        assert Committing(due, raises) == before + {due[n]};
      }
    }
  }

  lemma RatedNone(curve: int -> real, db: Db, due: seq<nat>, orders: seq<seq<int>>, raises: set<nat>)
    requires IsCurve(curve) && |orders| == |due|
    ensures RatedAll(curve, db, due[..0], orders[..0], raises) == db && CountOutside(due[..0], raises) == 0
    ensures CountPaid(due[..0], orders[..0], raises) == 0
  {
  }

  lemma RatedOneMore(curve: int -> real, db: Db, due: seq<nat>, orders: seq<seq<int>>, raises: set<nat>, i: nat)
    requires IsCurve(curve) && |orders| == |due| && i < |due|
    ensures var before := RatedAll(curve, db, due[..i], orders[..i], raises);
      RatedAll(curve, db, due[..i + 1], orders[..i + 1], raises)
        == if due[i] in raises then before else RatedAndTold(curve, before, due[i], orders[i])
    ensures CountOutside(due[..i + 1], raises) == CountOutside(due[..i], raises) + if due[i] in raises then 0 else 1
    ensures CountPaid(due[..i + 1], orders[..i + 1], raises)
         == CountPaid(due[..i], orders[..i], raises) + if due[i] in raises || |orders[i]| < 2 then 0 else |orders[i]|
  {
    hide RatedAndTold;
    assert due[..i + 1][..i] == due[..i] && orders[..i + 1][..i] == orders[..i];
  }

  /** Who has a row among these. */
  function Told(rows: set<(nat, int)>): set<int> {
    set n | n in rows :: n.1
  }

  lemma ToldAre(rows: set<(nat, int)>)
    ensures forall u :: u in Told(rows) <==> exists c :: (c, u) in rows
  {
    forall u ensures u in Told(rows) <==> exists c :: (c, u) in rows {
      if u in Told(rows) {
        var n :| n in rows && n.1 == u;
        assert (n.0, u) in rows;
      }
    }
  }

  lemma TellingsAddUp(a: set<(nat, int)>, b: set<(nat, int)>, c: set<(nat, int)>)
    requires a <= b <= c
    ensures Told(b - a) + Told(c - b) == Told(c - a)
  {
    forall u | u in Told(c - a) ensures u in Told(b - a) + Told(c - b) {
      var n :| n in c - a && n.1 == u;
      assert n in b - a || n in c - b;
    }
  }

  lemma AnnouncingTells(db: Db, c: nat)
    requires c < |db.contests|
    ensures Told(Announced(db, c).ended - db.ended) == set u | u in db.contests[c].participants && (c, u) !in db.ended
  {
    forall u | u in db.contests[c].participants && (c, u) !in db.ended
      ensures u in Told(Announced(db, c).ended - db.ended)
    {
      assert (c, u) in Announced(db, c).ended - db.ended;
    }
  }

  lemma RatingTellsNobody(curve: int -> real, db: Db, c: nat, order: seq<int>)
    requires IsCurve(curve) && c < |db.contests|
    requires Lists(order, RatingSet(db.contests[c])) && RatingSet(db.contests[c]) <= db.users.Keys
    ensures Rated(curve, db, c, order).ended == db.ended
  {
  }

  function Orders(scored: seq<seq<int>>, zeros: seq<seq<int>>): seq<seq<int>>
    requires |scored| == |zeros|
  {
    seq(|scored|, i requires 0 <= i < |scored| => scored[i] + zeros[i])
  }

  function CountOutside(due: seq<nat>, raises: set<nat>): nat {
    if due == [] then 0 else CountOutside(due[..|due| - 1], raises) + if due[|due| - 1] in raises then 0 else 1
  }

  /** How many contestants the committed contests paid: a field of one or none pays nobody. */
  function CountPaid(due: seq<nat>, orders: seq<seq<int>>, raises: set<nat>): nat
    requires |orders| == |due|
  {
    if due == [] then 0 else
    var n := |due| - 1;
    CountPaid(due[..n], orders[..n], raises) + if due[n] in raises || |orders[n]| < 2 then 0 else |orders[n]|
  }

  ghost predicate AllDistinct(due: seq<nat>) {
    forall i, j :: 0 <= i < j < |due| ==> due[i] != due[j]
  }

  /** An unrated contest, and the two halves of its rating set as the queries list them. */
  ghost predicate DueAt(db: Db, c: nat, scored: seq<int>, zeros: seq<int>) {
    && c < |db.contests| && !db.contests[c].rated && RatingSet(db.contests[c]) <= db.users.Keys
    && Lists(scored, db.contests[c].rows.Keys) && Lists(zeros, db.contests[c].submitters - db.contests[c].rows.Keys)
  }

  /** Rating one contest leaves every other contest, and who there is, as they were. */
  lemma RatingLeavesTheRest(curve: int -> real, db: Db, c: nat, order: seq<int>)
    requires IsCurve(curve)
    ensures var after := RatedAndTold(curve, db, c, order);
      && after.users.Keys == db.users.Keys && |after.contests| == |db.contests| && db.ended <= after.ended
      && (forall x :: 0 <= x < |db.contests| && x != c ==> after.contests[x] == db.contests[x])
  {
    hide EloDeltas, Entries, Lists;
  }

  class Database {
    var users: map<int, User>
    var contests: seq<Contest>
    var ended: set<(nat, int)>

    ghost function View(): Db
      reads this
    {
      Db(users, contests, ended)
    }

    /** Step 6: one save per contestant and per score row, in place order. */
    method PayAll(was: map<int, ScoreRow>, order: seq<int>, ghost paid: set<int>, deltas: map<int, int>)
      returns (rows: map<int, ScoreRow>)
      requires Lists(order, paid) && paid <= users.Keys && paid <= deltas.Keys
      modifies this`users
      ensures users == PaidUsers(old(users), paid, old(users), deltas)
      ensures rows == PaidRows(was, paid, old(users), deltas)
    {
      var snapshot := users;
      rows := was;
      PayNone(snapshot, rows, deltas);
      assert Firsts(order, 0) == {};
      hide PaidUsers, PaidRows, Firsts;
      for i := 0 to |order|
        invariant Firsts(order, i) <= paid
        invariant users == PaidUsers(snapshot, Firsts(order, i), snapshot, deltas)
        invariant rows == PaidRows(was, Firsts(order, i), snapshot, deltas)
      {
        var u := order[i];
        NextFirst(order, paid, i);
        PayOneMore(snapshot, was, Firsts(order, i), u, deltas);
        var rating := snapshot[u].elo + deltas[u];
        users := users[u := User(rating, Max(users[u].maxRating, rating), users[u].history + [rating])];
        if u in rows {
          rows := rows[u := rows[u].(delta := Some(deltas[u]), after := Some(rating))];
        } else {
          rows := rows[u := ScoreRow(NOTHING_SOLVED, Some(deltas[u]), Some(rating))];
        }
      }
      AllFirst(order, paid);
    }

    /** `scored` and `zeros` are the two halves of the rating set. */
    method ApplyContestRatings(curve: int -> real, c: nat, scored: seq<int>, zeros: seq<int>) returns (rated: nat)
      requires IsCurve(curve) && c < |contests| && RatingSet(contests[c]) <= users.Keys
      requires Lists(scored, contests[c].rows.Keys) && Lists(zeros, contests[c].submitters - contests[c].rows.Keys)
      modifies this
      ensures Lists(scored + zeros, RatingSet(old(contests[c])))
      ensures View() == Rated(curve, old(View()), c, scored + zeros)
      ensures rated == if old(contests[c].rated) || |scored + zeros| < 2 then 0 else |scored + zeros|
    {
      var contest := contests[c];
      var order := scored + zeros;
      ghost var paid := RatingSet(contest);
      ListsConcat(scored, zeros, contest.rows.Keys, contest.submitters - contest.rows.Keys);
      assert contest.rows.Keys + (contest.submitters - contest.rows.Keys) == paid;
      hide Lists, PaidUsers, PaidRows;
      if contest.rated {
        return 0;
      }
      if |order| < 2 {
        contests := contests[c := contest.(rated := true)];
        return 0;
      }
      MembersHaveRatings(order, paid, users);
      var entries := Entries(Keys(contest), Elos(users), order);
      var deltas := ComputeEloDeltas(curve, entries);
      DeltasCoverSet(curve, Keys(contest), Elos(users), order, paid);
      hide EloDeltas, Entries;
      var rows := PayAll(contest.rows, order, paid, deltas);
      contests := contests[c := contest.(rated := true, rows := rows)];
      return |order|;
    }

    /** create_bulk for the participants: rows for those who lack one, and who they were. */
    method AnnounceFinishedContest(c: nat) returns (told: set<int>)
      requires c < |contests|
      modifies this`ended
      ensures View() == Announced(old(View()), c)
      ensures told == set u | u in contests[c].participants && (c, u) !in old(ended)
    {
      told := set u | u in contests[c].participants && (c, u) !in ended;
      ended := ended + set u | u in told :: (c, u);
    }

    /** The periodic task over the contests its query found due. `raises` are those whose transaction fails:
        it rolls back, and the loop goes on with the next. Everyone newly told is rung once, at the end. */
    method ApplyFinishedContestRatings(curve: int -> real, due: seq<nat>, scored: seq<seq<int>>, zeros: seq<seq<int>>,
                                       raises: set<nat>)
      returns (processed: nat, updated: nat, toRing: set<int>)
      requires IsCurve(curve) && AllDistinct(due) && |scored| == |zeros| == |due|
      requires forall i :: 0 <= i < |due| ==> DueAt(View(), due[i], scored[i], zeros[i])
      modifies this
      ensures View() == RatedAll(curve, old(View()), due, Orders(scored, zeros), raises)
      ensures processed == CountOutside(due, raises) && updated == CountPaid(due, Orders(scored, zeros), raises)
      ensures toRing == Told(ended - old(ended))
      ensures forall u :: u in toRing <==> exists c :: (c, u) in ended && (c, u) !in old(ended)
    {
      processed, updated, toRing := 0, 0, {};
      ghost var db0, orders := View(), Orders(scored, zeros);
      assert Told(ended - ended) == {};
      hide RatedAndTold, RatedAll, DueAt, CountOutside, CountPaid, Told, IsCurve;
      RatedNone(curve, db0, due, orders, raises);
      for i := 0 to |due|
        invariant View() == RatedAll(curve, db0, due[..i], orders[..i], raises)
        invariant processed == CountOutside(due[..i], raises) && updated == CountPaid(due[..i], orders[..i], raises)
        invariant forall j :: i <= j < |due| ==> DueAt(View(), due[j], scored[j], zeros[j])
        invariant db0.ended <= ended && toRing == Told(ended - db0.ended)
      {
        RatedOneMore(curve, db0, due, orders, raises, i);
        if due[i] !in raises {
          ghost var before := ended;
          var rated, endedFor := RateAndAnnounce(curve, due[i], scored[i], zeros[i]);
          processed := processed + 1;
          updated := updated + rated;
          TellingsAddUp(db0.ended, before, ended);
          toRing := toRing + endedFor;
        }
      }
      assert due[..|due|] == due && orders[..|due|] == orders;
      ToldAre(ended - db0.ended);
    }

    /** The transaction of the loop: rating and announcing commit together. */
    method RateAndAnnounce(curve: int -> real, c: nat, scored: seq<int>, zeros: seq<int>)
      returns (rated: nat, endedFor: set<int>)
      requires IsCurve(curve) && DueAt(View(), c, scored, zeros)
      modifies this
      ensures View() == RatedAndTold(curve, old(View()), c, scored + zeros)
      ensures rated == if |scored + zeros| < 2 then 0 else |scored + zeros|
      ensures old(ended) <= ended && endedFor == Told(ended - old(ended))
      ensures forall x, s, z :: x != c && DueAt(old(View()), x, s, z) ==> DueAt(View(), x, s, z)
    {
      ghost var before := View();
      rated := ApplyContestRatings(curve, c, scored, zeros);
      RatingTellsNobody(curve, before, c, scored + zeros);
      hide Rated, Lists, RatingSet, Told;
      AnnouncingTells(View(), c);
      endedFor := AnnounceFinishedContest(c);
      RatingLeavesTheRest(curve, before, c, scored + zeros);
    }
  }

  /** The users among the first i of the list. */
  ghost function Firsts(order: seq<int>, i: nat): set<int>
    requires i <= |order|
  {
    set k | 0 <= k < i :: order[k]
  }

  lemma NextFirst(order: seq<int>, paid: set<int>, i: nat)
    requires Lists(order, paid) && i < |order|
    ensures order[i] in paid && order[i] !in Firsts(order, i)
    ensures Firsts(order, i + 1) == Firsts(order, i) + {order[i]}
  {
    assert order[i] in order;
    forall k | 0 <= k < i ensures order[k] != order[i] {}
  }

  lemma AllFirst(order: seq<int>, paid: set<int>)
    requires Lists(order, paid)
    ensures Firsts(order, |order|) == paid
  {
    forall u | u in paid ensures u in Firsts(order, |order|) {
      assert u in order;
    }
    forall u | u in Firsts(order, |order|) ensures u in paid {
      assert u in order;
    }
  }

  // ---------------------------------------------------------------- the prediction

  /** compute_predicted_deltas: current values, no lock, its own listing of the set. */
  ghost function Predicted(curve: int -> real, db: Db, c: nat, order: seq<int>): map<int, int>
    requires IsCurve(curve) && c < |db.contests|
    requires Lists(order, RatingSet(db.contests[c])) && RatingSet(db.contests[c]) <= db.users.Keys
  {
    if db.contests[c].rated || |order| < 2 then map[]
    else EloDeltas(curve, Entries(Keys(db.contests[c]), Elos(db.users), order))
  }

  /** Predictions are made for exactly those who would be rated, and for nobody once the contest is rated or when
      fewer than two would be. */
  lemma PredictionCovers(curve: int -> real, db: Db, c: nat, order: seq<int>)
    requires IsCurve(curve) && c < |db.contests|
    requires Lists(order, RatingSet(db.contests[c])) && RatingSet(db.contests[c]) <= db.users.Keys
    ensures Predicted(curve, db, c, order).Keys
         == if db.contests[c].rated || |order| < 2 then {} else db.contests[c].rows.Keys + db.contests[c].submitters
  {
    if |order| >= 2 {
      DeltasCoverSet(curve, Keys(db.contests[c]), Elos(db.users), order, RatingSet(db.contests[c]));
    }
    hide EloDeltas, Entries, Lists, IsCurve;
  }

  lemma {:induction false} ListingsHaveOneLength(a: seq<int>, b: seq<int>, s: set<int>)
    requires Lists(a, s) && Lists(b, s)
    ensures |a| == |b|
  {
    forall x ensures multiset(a)[x] == multiset(b)[x] {
      OnceEach(a, x);
      OnceEach(b, x);
    }
    assert multiset(a) == multiset(b);
    assert |multiset(a)| == |a| && |multiset(b)| == |b|;
  }

  /** An award writes each listed delta once: into the score row and onto the rating. */
  lemma AwardWrites(db: Db, c: nat, paid: set<int>, deltas: map<int, int>)
    requires c < |db.contests| && paid <= db.users.Keys && deltas.Keys == paid && db.contests[c].rows.Keys <= paid
    ensures var after := Award(db, c, paid, db.users, deltas);
      && |after.contests| == |db.contests|
      && (forall u :: u in after.contests[c].rows <==> u in deltas)
      && (forall u :: u in deltas ==>
            && after.contests[c].rows[u].delta == Some(deltas[u])
            && u in after.users && after.users[u].elo == db.users[u].elo + deltas[u]
            && after.contests[c].rows[u].after == Some(after.users[u].elo))
      && (forall u :: u in deltas ==>
            after.contests[c].rows[u].key
              == if u in db.contests[c].rows then db.contests[c].rows[u].key else PlaceKey(0, 0, None))
  {
  }

  // ---------------------------------------------------------------- what a contest's score table is worth

  /** The contestants of a contest as its tables give them: exactly those with a score row or a submission, each
      once, with the rating they hold, and their own row's result or, without a row, zeros and no time. */
  ghost predicate IsField(db: Db, c: nat, ps: seq<Participant>)
    requires c < |db.contests|
  {
    var contest := db.contests[c];
    && DistinctUsers(ps)
    && (forall u :: u in contest.rows.Keys + contest.submitters <==> exists i :: 0 <= i < |ps| && ps[i].userId == u)
    && forall i :: 0 <= i < |ps| ==>
         var u := ps[i].userId;
         && u in db.users && ps[i].rating == db.users[u].elo
         && ps[i].place == if u in contest.rows then contest.rows[u].key else PlaceKey(0, 0, None)
  }

  /** All such lists are the same up to order. */
  lemma FieldsPermute(db: Db, c: nat, a: seq<Participant>, b: seq<Participant>)
    requires c < |db.contests| && IsField(db, c, a) && IsField(db, c, b)
    ensures multiset(a) == multiset(b)
  {
    forall x ensures multiset(a)[x] == multiset(b)[x] {
      FieldHolds(db, c, a, b, x);
      FieldHolds(db, c, b, a, x);
      DistinctOnce(a, x);
      DistinctOnce(b, x);
    }
  }

  lemma FieldHolds(db: Db, c: nat, a: seq<Participant>, b: seq<Participant>, x: Participant)
    requires c < |db.contests| && IsField(db, c, a) && IsField(db, c, b)
    ensures x in a ==> x in b
  {
    if x in a {
      var i :| 0 <= i < |a| && a[i] == x;
      assert a[i].userId == x.userId;
      assert x.userId in db.contests[c].rows.Keys + db.contests[c].submitters;
      var j :| 0 <= j < |b| && b[j].userId == x.userId;
      assert b[j] == x;
    }
  }

  lemma DistinctOnce(a: seq<Participant>, x: Participant)
    requires DistinctUsers(a)
    ensures multiset(a)[x] == if x in a then 1 else 0
  {
    forall i, j | 0 <= i < j < |a| ensures a[i] != a[j] {
      assert a[i].userId != a[j].userId;
    }
    OnceEach(a, x);
  }

  /** What the code builds from the tables is such a list. */
  lemma EntriesAreField(db: Db, c: nat, order: seq<int>)
    requires c < |db.contests| && Lists(order, RatingSet(db.contests[c])) && RatingSet(db.contests[c]) <= db.users.Keys
    ensures IsField(db, c, Entries(Keys(db.contests[c]), Elos(db.users), order))
  {
    var contest := db.contests[c];
    var ps := Entries(Keys(contest), Elos(db.users), order);
    forall i | 0 <= i < |ps| ensures ps[i].userId == order[i] && order[i] in RatingSet(contest) {
      assert order[i] in order;
    }
    forall u ensures u in contest.rows.Keys + contest.submitters <==> exists i :: 0 <= i < |ps| && ps[i].userId == u {
      if u in contest.rows.Keys + contest.submitters {
        assert u in order;
        var i :| 0 <= i < |order| && order[i] == u;
        assert ps[i].userId == u;
      }
    }
  }

  /** The award against the score table: in whatever order the field is written down, everybody in it gets the
      Elo change of their own result in that field, on the score row, on the rating, and as the rating after. */
  lemma AwardIsTheFields(curve: int -> real, db: Db, c: nat, order: seq<int>, ps: seq<Participant>, i: nat)
    requires IsCurve(curve) && c < |db.contests| && !db.contests[c].rated
    requires Lists(order, RatingSet(db.contests[c])) && RatingSet(db.contests[c]) <= db.users.Keys
    requires IsField(db, c, ps) && |ps| >= 2 && i < |ps|
    ensures var after, u, delta := Rated(curve, db, c, order), ps[i].userId, Delta(curve, ps[i], ps);
      && u in after.contests[c].rows && u in after.users && u in db.users
      && after.contests[c].rows[u].delta == Some(delta)
      && after.users[u].elo == db.users[u].elo + delta
      && after.contests[c].rows[u].after == Some(db.users[u].elo + delta)
    ensures ps[i].userId in EloDeltas(curve, ps) && Delta(curve, ps[i], ps) == EloDeltas(curve, ps)[ps[i].userId]
  {
    FieldComputes(curve, db, c, order, ps);
    PaidOnce(curve, ps, i);
    hide IsCurve, Lists, EloDeltas, Delta, Rated, Computed, IsField;
    RatedWrites(curve, db, c, order, ps[i].userId);
  }

  lemma PaidOnce(curve: int -> real, ps: seq<Participant>, i: nat)
    requires IsCurve(curve) && DistinctUsers(ps) && |ps| >= 2 && i < |ps|
    ensures ps[i].userId in EloDeltas(curve, ps) && Delta(curve, ps[i], ps) == EloDeltas(curve, ps)[ps[i].userId]
  {
    DeltasAt(curve, ps, ps);
    hide Deltas, Delta, IsCurve;
  }

  /** The deltas the code computes from the tables. */
  ghost function Computed(curve: int -> real, db: Db, c: nat, order: seq<int>): map<int, int>
    requires IsCurve(curve) && c < |db.contests|
    requires Lists(order, RatingSet(db.contests[c])) && RatingSet(db.contests[c]) <= db.users.Keys
  {
    EloDeltas(curve, Entries(Keys(db.contests[c]), Elos(db.users), order))
  }

  lemma FieldComputes(curve: int -> real, db: Db, c: nat, order: seq<int>, ps: seq<Participant>)
    requires IsCurve(curve) && c < |db.contests|
    requires Lists(order, RatingSet(db.contests[c])) && RatingSet(db.contests[c]) <= db.users.Keys
    requires IsField(db, c, ps)
    ensures DistinctUsers(ps) && |ps| == |order|
    ensures Computed(curve, db, c, order) == EloDeltas(curve, ps)
  {
    var entries := Entries(Keys(db.contests[c]), Elos(db.users), order);
    EntriesAreField(db, c, order);
    FieldsPermute(db, c, ps, entries);
    assert |ps| == |multiset(ps)| == |multiset(entries)| == |entries|;
    DeltasPermute(curve, ps, entries);
  }

  lemma RatedIsAward(curve: int -> real, db: Db, c: nat, order: seq<int>)
    requires IsCurve(curve) && c < |db.contests| && !db.contests[c].rated && |order| >= 2
    requires Lists(order, RatingSet(db.contests[c])) && RatingSet(db.contests[c]) <= db.users.Keys
    ensures var s, deltas := RatingSet(db.contests[c]), Computed(curve, db, c, order);
      deltas.Keys == s && Rated(curve, db, c, order) == Award(db, c, s, db.users, deltas)
  {
    DeltasCoverSet(curve, Keys(db.contests[c]), Elos(db.users), order, RatingSet(db.contests[c]));
    hide EloDeltas, Entries, Award, IsCurve, Lists, RatingSet, Elos;
  }

  /** A run that rates writes each computed delta to the score row and onto the rating. */
  lemma RatedWrites(curve: int -> real, db: Db, c: nat, order: seq<int>, u: int)
    requires IsCurve(curve) && c < |db.contests| && !db.contests[c].rated && |order| >= 2
    requires Lists(order, RatingSet(db.contests[c])) && RatingSet(db.contests[c]) <= db.users.Keys
    requires u in Computed(curve, db, c, order)
    ensures var after, delta := Rated(curve, db, c, order), Computed(curve, db, c, order)[u];
      && c < |after.contests|
      && u in db.users && u in after.users && u in after.contests[c].rows
      && after.contests[c].rows[u].delta == Some(delta)
      && after.users[u].elo == db.users[u].elo + delta
      && after.contests[c].rows[u].after == Some(db.users[u].elo + delta)
  {
    hide Rated, Computed, Award, Lists, IsCurve;
    RatedIsAward(curve, db, c, order);
    AwardWrites(db, c, RatingSet(db.contests[c]), Computed(curve, db, c, order));
    hide *;
  }

  /** Two contestants of one rating: whoever's result ranks above the other's takes 16 from them. */
  lemma BetterOfTwoTakesSixteen(curve: int -> real, db: Db, c: nat, order: seq<int>, a: int, b: int)
    requires IsCurve(curve) && c < |db.contests| && !db.contests[c].rated && a != b
    requires Lists(order, RatingSet(db.contests[c])) && RatingSet(db.contests[c]) <= db.users.Keys
    requires db.contests[c].rows.Keys + db.contests[c].submitters == {a, b}
    requires a in db.users && b in db.users && db.users[a].elo == db.users[b].elo
    requires var rows := db.contests[c].rows;
      RanksAbove(if a in rows then rows[a].key else PlaceKey(0, 0, None),
                 if b in rows then rows[b].key else PlaceKey(0, 0, None))
    ensures var after := Rated(curve, db, c, order);
      && a in after.contests[c].rows && after.contests[c].rows[a].delta == Some(16)
      && b in after.contests[c].rows && after.contests[c].rows[b].delta == Some(-16)
      && a in after.users && after.users[a].elo == db.users[a].elo + 16
      && b in after.users && after.users[b].elo == db.users[b].elo - 16
  {
    var rows, rating := db.contests[c].rows, db.users[a].elo;
    var p := Participant(a, rating, if a in rows then rows[a].key else PlaceKey(0, 0, None));
    var q := Participant(b, rating, if b in rows then rows[b].key else PlaceKey(0, 0, None));
    var ps := [p, q];
    assert ps[0].userId == a && ps[1].userId == b;
    assert IsField(db, c, ps);
    AwardIsTheFields(curve, db, c, order, ps, 0);
    AwardIsTheFields(curve, db, c, order, ps, 1);
    SoleWinnerAndLast(curve, ps, 0);
    SoleWinnerAndLast(curve, ps, 1);
    hide Rated, EloDeltas, Delta, IsCurve, Lists, RanksAbove;
  }

  /** Prediction equals award: with nothing changed in between, and whatever order either listing came in, every
      user predicted is a user awarded, with the predicted number as the stored delta and as the rating step. */
  lemma {:induction false} PredictionEqualsAward(curve: int -> real, db: Db, c: nat, predicted: seq<int>,
                                                 awarded: seq<int>)
    requires IsCurve(curve) && c < |db.contests| && !db.contests[c].rated
    requires RatingSet(db.contests[c]) <= db.users.Keys
    requires Lists(predicted, RatingSet(db.contests[c])) && Lists(awarded, RatingSet(db.contests[c]))
    requires forall u :: u in db.contests[c].rows ==> db.contests[c].rows[u].delta == None
    ensures var p, after := Predicted(curve, db, c, predicted), Rated(curve, db, c, awarded);
      && (forall u :: u in after.contests[c].rows && after.contests[c].rows[u].delta.Some? <==> u in p)
      && (forall u :: u in p ==>
            && after.contests[c].rows[u].delta == Some(p[u])
            && u in after.users && after.users[u].elo == db.users[u].elo + p[u])
  {
    var contest := db.contests[c];
    var s := RatingSet(contest);
    ListingsHaveOneLength(predicted, awarded, s);
    if |awarded| >= 2 {
      var p, a := Entries(Keys(contest), Elos(db.users), predicted), Entries(Keys(contest), Elos(db.users), awarded);
      EntriesPermute(Keys(contest), Elos(db.users), predicted, awarded, s);
      DeltasPermute(curve, p, a);
      DeltasCoverSet(curve, Keys(contest), Elos(db.users), awarded, s);
      AwardWrites(db, c, s, EloDeltas(curve, a));
      hide EloDeltas, Entries, Award, Lists, Elos, Keys;
    }
  }
}
