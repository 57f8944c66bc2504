/**
 Contest scoring. A score is computed from scratch over a user's submissions, but only when an
 accepted verdict lands; between those moments the stored row stands for the computation. This
 module says what the computation yields and exactly when the stored row is still equal to it.
 */
module Scoring {
  import opened Schemas
  import opened Sets
  import opened Wrappers

  const BASE_POINTS := 100
  const WRONG_ATTEMPT_PENALTY_MINUTES := 10
  const MINUTE := 60_000_000 // timestamps are in microseconds

  datatype Submission = Submission(user: int, problem: int, verdict: Option<Verdict>, createdAt: int)

  datatype Score = Score(score: int, penalty: int, solved: int, lastAc: Option<int>)

  const ZERO := Score(0, 0, 0, None)

  /** The list in the query of calculate_score, as written: OLE is not on it. */
  predicate CountsAsWrong(v: Option<Verdict>) {
    v in {Some(WA), Some(TLE), Some(MLE), Some(RE), Some(CE)}
  }

  /** int(seconds / 60): Python truncates toward zero. */
  function Minutes(micros: int): int {
    if micros >= 0 then micros / MINUTE else -(-micros / MINUTE)
  }

  // ---------------------------------------------------------------- queries

  predicate Of(s: Submission, user: int, problem: int) {
    s.user == user && s.problem == problem
  }

  function ProblemsOf(subs: seq<Submission>, user: int): set<int> {
    set s | s in subs && s.user == user :: s.problem
  }

  /** When the user's first accepted answer to the problem was submitted. */
  function FirstAc(subs: seq<Submission>, user: int, problem: int): Option<int> {
    if subs == [] then None else
    var s, before := subs[|subs| - 1], FirstAc(subs[..|subs| - 1], user, problem);
    if !Of(s, user, problem) || s.verdict != Some(AC) then before
    else if before.Some? && before.value <= s.createdAt then before
    else Some(s.createdAt)
  }

  function WrongBefore(subs: seq<Submission>, user: int, problem: int, time: int): nat {
    if subs == [] then 0 else
    var s := subs[|subs| - 1];
    WrongBefore(subs[..|subs| - 1], user, problem, time)
    + if Of(s, user, problem) && CountsAsWrong(s.verdict) && s.createdAt < time then 1 else 0
  }

  /** ORDER BY created_at, filtered to AC, .first(): any one of the earliest. */
  predicate IsFirstAc(subs: seq<Submission>, user: int, problem: int, i: int) {
    && 0 <= i < |subs| && Of(subs[i], user, problem) && subs[i].verdict == Some(AC)
    && forall j :: 0 <= j < |subs| && Of(subs[j], user, problem) && subs[j].verdict == Some(AC) ==>
         subs[i].createdAt <= subs[j].createdAt
  }

  lemma {:induction false} FirstAcFound(subs: seq<Submission>, user: int, problem: int)
    ensures FirstAc(subs, user, problem).Some? ==>
      exists i :: IsFirstAc(subs, user, problem, i) && subs[i].createdAt == FirstAc(subs, user, problem).value
    ensures forall j :: 0 <= j < |subs| && Of(subs[j], user, problem) && subs[j].verdict == Some(AC) ==>
      FirstAc(subs, user, problem).Some? && FirstAc(subs, user, problem).value <= subs[j].createdAt
  {
    if subs != [] {
      var n := |subs| - 1;
      FirstAcFound(subs[..n], user, problem);
      var t := FirstAc(subs, user, problem);
      if t.Some? {
        if t == FirstAc(subs[..n], user, problem) {
          var i :| IsFirstAc(subs[..n], user, problem, i) && subs[..n][i].createdAt == t.value;
          assert IsFirstAc(subs, user, problem, i);
        } else {
          assert IsFirstAc(subs, user, problem, n);
        }
      }
    }
  }

  /** Whichever of the earliest accepted answers the query picks, it is of one and the same time. */
  lemma FirstAcIs(subs: seq<Submission>, user: int, problem: int)
    ensures FirstAc(subs, user, problem).Some? <==> exists i :: 0 <= i < |subs| && IsFirstAc(subs, user, problem, i)
    ensures forall i :: 0 <= i < |subs| && IsFirstAc(subs, user, problem, i) ==>
      FirstAc(subs, user, problem) == Some(subs[i].createdAt)
  {
    FirstAcFound(subs, user, problem);
  }

  // ---------------------------------------------------------------- the score from scratch

  /** What one problem adds: nothing unless it is solved. */
  function AddProblem(acc: Score, subs: seq<Submission>, user: int, start: int, problem: int): Score {
    match FirstAc(subs, user, problem)
    case None => acc
    case Some(t) =>
      Score(acc.score + BASE_POINTS,
            acc.penalty + Minutes(t - start) + WRONG_ATTEMPT_PENALTY_MINUTES * WrongBefore(subs, user, problem, t),
            acc.solved + 1,
            if acc.lastAc.Some? && acc.lastAc.value >= t then acc.lastAc else Some(t))
  }

  ghost function Total(subs: seq<Submission>, user: int, start: int, problems: set<int>): Score {
    if !exists p :: p in problems then ZERO else
    var p :| p in problems;
    AddProblem(Total(subs, user, start, problems - {p}), subs, user, start, p)
  }

  ghost function FromScratch(subs: seq<Submission>, user: int, start: int): Score {
    Total(subs, user, start, ProblemsOf(subs, user))
  }

  lemma AddCommutes(acc: Score, subs: seq<Submission>, user: int, start: int, p: int, q: int)
    ensures AddProblem(AddProblem(acc, subs, user, start, p), subs, user, start, q)
         == AddProblem(AddProblem(acc, subs, user, start, q), subs, user, start, p)
  {
  }

  /** The problems can be taken in any order. */
  lemma {:induction false} TotalAnyOrder(subs: seq<Submission>, user: int, start: int, problems: set<int>, p: int)
    requires p in problems
    ensures Total(subs, user, start, problems)
         == AddProblem(Total(subs, user, start, problems - {p}), subs, user, start, p)
    decreases |problems|
  {
    var total := Total(subs, user, start, problems);
    var q :| q in problems && total == AddProblem(Total(subs, user, start, problems - {q}), subs, user, start, q);
    if q != p {
      TotalAnyOrder(subs, user, start, problems - {q}, p);
      TotalAnyOrder(subs, user, start, problems - {p}, q);
      assert problems - {q} - {p} == problems - {p} - {q};
      AddCommutes(Total(subs, user, start, problems - {p} - {q}), subs, user, start, p, q);
    }
  }

  ghost function SolvedAmong(subs: seq<Submission>, user: int, problems: set<int>): set<int> {
    set p | p in problems && FirstAc(subs, user, p).Some?
  }

  /** Points and solved count are the number of solved problems; the last accepted time is the latest first AC. */
  lemma {:induction false} TotalMeans(subs: seq<Submission>, user: int, start: int, problems: set<int>)
    ensures var t := Total(subs, user, start, problems);
      var solved := SolvedAmong(subs, user, problems);
      && t.solved == |solved| && t.score == BASE_POINTS * |solved|
      && (t.lastAc.None? <==> solved == {})
      && (t.lastAc.Some? ==> exists p :: p in solved && FirstAc(subs, user, p) == t.lastAc)
      && (forall p :: p in solved ==> t.lastAc.Some? && FirstAc(subs, user, p).value <= t.lastAc.value)
    decreases |problems|
  {
    if p :| p in problems {
      TotalAnyOrder(subs, user, start, problems, p);
      TotalMeans(subs, user, start, problems - {p});
      var solved, rest := SolvedAmong(subs, user, problems), SolvedAmong(subs, user, problems - {p});
      assert solved == if FirstAc(subs, user, p).Some? then rest + {p} else rest;
    }
  }

  // ---------------------------------------------------------------- the score in the contest's own terms

  /** The accepted answer to the problem that came first was submitted at this time. */
  ghost predicate SolvedAt(subs: seq<Submission>, user: int, problem: int, time: int) {
    && (exists i :: 0 <= i < |subs| && subs[i] == Submission(user, problem, Some(AC), time))
    && forall j :: 0 <= j < |subs| && subs[j].user == user && subs[j].problem == problem && subs[j].verdict == Some(AC)
         ==> time <= subs[j].createdAt
  }

  /** The problems the user has an accepted answer to. */
  function Solved(subs: seq<Submission>, user: int): set<int> {
    set s | s in subs && s.user == user && s.verdict == Some(AC) :: s.problem
  }

  /** The attempts that cost: answered WA, TLE, MLE, RE or CE, and submitted before that time. OLE costs nothing. */
  function CostlyAttempts(subs: seq<Submission>, user: int, problem: int, time: int): set<int> {
    set j |
      && 0 <= j < |subs| && subs[j].user == user && subs[j].problem == problem && subs[j].createdAt < time
      && subs[j].verdict in {Some(WA), Some(TLE), Some(MLE), Some(RE), Some(CE)}
  }

  /** m is the number of whole minutes in that many microseconds, cut off toward zero. */
  predicate WholeMinutes(micros: int, m: int) {
    if micros >= 0 then m * 60_000_000 <= micros < (m + 1) * 60_000_000
    else (m - 1) * 60_000_000 < micros <= m * 60_000_000
  }

  /** What a solved problem costs: whole minutes from the start, and ten for each costly attempt before it. */
  ghost predicate Costs(subs: seq<Submission>, user: int, start: int, problem: int, cost: int) {
    forall t :: SolvedAt(subs, user, problem, t) ==>
      WholeMinutes(t - start, cost - 10 * |CostlyAttempts(subs, user, problem, t)|)
  }

  ghost function SumOver(problems: set<int>, f: int -> int): int {
    if !exists p :: p in problems then 0 else
    var p :| p in problems;
    f(p) + SumOver(problems - {p}, f)
  }

  lemma {:induction false} SumAnyOrder(problems: set<int>, f: int -> int, p: int)
    requires p in problems
    ensures SumOver(problems, f) == f(p) + SumOver(problems - {p}, f)
    decreases |problems|
  {
    var q :| q in problems && SumOver(problems, f) == f(q) + SumOver(problems - {q}, f);
    if q != p {
      SumAnyOrder(problems - {q}, f, p);
      SumAnyOrder(problems - {p}, f, q);
      assert problems - {q} - {p} == problems - {p} - {q};
    }
  }

  lemma {:induction false} WrongBeforeCounts(subs: seq<Submission>, user: int, problem: int, time: int)
    ensures WrongBefore(subs, user, problem, time) == |CostlyAttempts(subs, user, problem, time)|
  {
    var all := CostlyAttempts(subs, user, problem, time);
    if subs == [] {
      assert all == {};
    } else {
      var n := |subs| - 1;
      WrongBeforeCounts(subs[..n], user, problem, time);
      var rest := CostlyAttempts(subs[..n], user, problem, time);
      assert all == rest + if n in all then {n} else {};
      assert n !in rest;
    }
  }

  /** The first accepted answer as the query finds it is the one in the contest's terms. */
  lemma FirstAcIsSolvedAt(subs: seq<Submission>, user: int, problem: int)
    ensures problem in Solved(subs, user) <==> FirstAc(subs, user, problem).Some?
    ensures forall t :: SolvedAt(subs, user, problem, t) <==> FirstAc(subs, user, problem) == Some(t)
  {
    FirstAcFound(subs, user, problem);
    var first := FirstAc(subs, user, problem);
    if problem in Solved(subs, user) {
      var s :| s in subs && s.user == user && s.verdict == Some(AC) && s.problem == problem;
      var j :| 0 <= j < |subs| && subs[j] == s;
      assert Of(subs[j], user, problem);
    }
    if first.Some? {
      var i :| IsFirstAc(subs, user, problem, i) && subs[i].createdAt == first.value;
      assert subs[i] == Submission(user, problem, Some(AC), first.value) && subs[i] in subs;
      forall j | 0 <= j < |subs| && subs[j].user == user && subs[j].problem == problem && subs[j].verdict == Some(AC)
        ensures first.value <= subs[j].createdAt
      {
        assert Of(subs[j], user, problem);
      }
    }
    forall t | SolvedAt(subs, user, problem, t) ensures first == Some(t) {
      var j :| 0 <= j < |subs| && subs[j] == Submission(user, problem, Some(AC), t);
      assert Of(subs[j], user, problem);
    }
  }

  lemma MinutesAreWhole(micros: int, m: int)
    ensures WholeMinutes(micros, m) <==> m == Minutes(micros)
  {
  }

  /** One solved problem adds its cost. */
  lemma CostIsAdded(acc: Score, subs: seq<Submission>, user: int, start: int, problem: int, cost: int)
    requires Costs(subs, user, start, problem, cost)
    ensures problem in Solved(subs, user) ==> AddProblem(acc, subs, user, start, problem).penalty == acc.penalty + cost
    ensures problem !in Solved(subs, user) ==> AddProblem(acc, subs, user, start, problem) == acc
  {
    FirstAcIsSolvedAt(subs, user, problem);
    var first := FirstAc(subs, user, problem);
    hide FirstAc, SolvedAt, WrongBefore, Solved, CostlyAttempts, Minutes, WholeMinutes;
    if first.Some? {
      WrongBeforeCounts(subs, user, problem, first.value);
      assert SolvedAt(subs, user, problem, first.value);
      MinutesAreWhole(first.value - start, cost - 10 * |CostlyAttempts(subs, user, problem, first.value)|);
    }
  }

  /** The penalty is what the solved problems cost, and nothing for the others. */
  lemma {:induction false} PenaltyMeans(subs: seq<Submission>, user: int, start: int, problems: set<int>,
                                        cost: int -> int)
    requires forall p :: p in problems ==> Costs(subs, user, start, p, cost(p))
    ensures Total(subs, user, start, problems).penalty == SumOver(problems * Solved(subs, user), cost)
    decreases |problems|
  {
    var solved := Solved(subs, user);
    hide Solved, Costs;
    if p :| p in problems {
      var rest := problems - {p};
      TotalAnyOrder(subs, user, start, problems, p);
      PenaltyMeans(subs, user, start, rest, cost);
      CostIsAdded(Total(subs, user, start, rest), subs, user, start, p, cost(p));
      if p in solved {
        SumAnyOrder(problems * solved, cost, p);
        assert problems * solved - {p} == rest * solved;
      } else {
        assert problems * solved == rest * solved;
      }
    } else {
      assert problems * solved == {};
    }
  }

  lemma SolvedAreTouched(subs: seq<Submission>, user: int)
    ensures SolvedAmong(subs, user, ProblemsOf(subs, user)) == Solved(subs, user)
    ensures ProblemsOf(subs, user) * Solved(subs, user) == Solved(subs, user)
  {
    forall p ensures p in SolvedAmong(subs, user, ProblemsOf(subs, user)) <==> p in Solved(subs, user) {
      FirstAcIsSolvedAt(subs, user, p);
    }
  }

  /** The score in the contest's own terms: a hundred points for each problem with an accepted answer, the time of
      the last first accepted answer, and as penalty what the solved problems cost. */
  lemma ScoreMeans(subs: seq<Submission>, user: int, start: int, cost: int -> int)
    requires forall p :: p in Solved(subs, user) ==> Costs(subs, user, start, p, cost(p))
    ensures var (row, solved) := (FromScratch(subs, user, start), Solved(subs, user));
      && row.score == 100 * |solved| && row.solved == |solved|
      && row.penalty == SumOver(solved, cost)
      && (row.lastAc.None? <==> solved == {})
      && (row.lastAc.Some? ==> exists p :: p in solved && SolvedAt(subs, user, p, row.lastAc.value))
      && (forall p, t :: SolvedAt(subs, user, p, t) ==> row.lastAc.Some? && t <= row.lastAc.value)
  {
    var problems, solved := ProblemsOf(subs, user), Solved(subs, user);
    TotalMeans(subs, user, start, problems);
    SolvedAreTouched(subs, user);
    forall p | p in problems ensures Costs(subs, user, start, p, cost(p)) {
      FirstAcIsSolvedAt(subs, user, p);
    }
    PenaltyMeans(subs, user, start, problems, cost);
    var row := FromScratch(subs, user, start);
    forall p, t | SolvedAt(subs, user, p, t) ensures row.lastAc.Some? && t <= row.lastAc.value {
      FirstAcIsSolvedAt(subs, user, p);
    }
    if row.lastAc.Some? {
      var p :| p in solved && FirstAc(subs, user, p) == row.lastAc;
      FirstAcIsSolvedAt(subs, user, p);
    }
  }

  /** With one problem solved the penalty is the whole minutes to its accepted answer and ten for each costly
      attempt before it. */
  lemma OneProblemCosts(subs: seq<Submission>, user: int, start: int, problem: int, time: int)
    requires Solved(subs, user) == {problem} && SolvedAt(subs, user, problem, time)
    ensures var attempts := |CostlyAttempts(subs, user, problem, time)|;
      WholeMinutes(time - start, FromScratch(subs, user, start).penalty - 10 * attempts)
  {
    var attempts := |CostlyAttempts(subs, user, problem, time)|;
    var price := Minutes(time - start) + 10 * attempts;
    MinutesAreWhole(time - start, price - 10 * attempts);
    FirstAcIsSolvedAt(subs, user, problem);
    assert Costs(subs, user, start, problem, price);
    ScoreMeans(subs, user, start, _ => price);
    SumAnyOrder({problem}, _ => price, problem);
    assert {problem} - {problem} == {};
  }

  // ---------------------------------------------------------------- calculate_score

  /** .first() of the accepted ones by time: any one of the earliest, or nothing. */
  method FirstAccepted(subs: seq<Submission>, user: int, problem: int) returns (ac: Option<Submission>)
    ensures ac.Some? <==> FirstAc(subs, user, problem).Some?
    ensures ac.Some? ==> FirstAc(subs, user, problem) == Some(ac.value.createdAt)
    ensures ac.Some? ==> Of(ac.value, user, problem) && ac.value.verdict == Some(AC)
  {
    hide FirstAc;
    FirstAcIs(subs, user, problem);
    if exists i :: 0 <= i < |subs| && IsFirstAc(subs, user, problem, i) {
      var i :| 0 <= i < |subs| && IsFirstAc(subs, user, problem, i);
      return Some(subs[i]);
    }
    return None;
  }

  method CalculateScore(subs: seq<Submission>, user: int, start: int) returns (row: Score)
    ensures row == FromScratch(subs, user, start)
  {
    var totalScore, totalPenalty, solvedCount, lastAc := 0, 0, 0, None;
    var problemIds := ProblemsOf(subs, user);
    var done: set<int> := {};
    assert Total(subs, user, start, done) == ZERO;
    hide Total, FirstAc, WrongBefore, ProblemsOf, Minutes;
    while problemIds - done != {}
      invariant done <= problemIds
      invariant Score(totalScore, totalPenalty, solvedCount, lastAc) == Total(subs, user, start, done)
      decreases |problemIds - done|
    {
      var p := Pick(problemIds - done);
      TotalAnyOrder(subs, user, start, done + {p}, p);
      assert done + {p} - {p} == done;
      var ac := FirstAccepted(subs, user, p);
      if ac.Some? {
        var at := ac.value.createdAt;
        var wrongAttempts := WrongBefore(subs, user, p, at);
        totalScore := totalScore + BASE_POINTS;
        totalPenalty := totalPenalty + (Minutes(at - start) + wrongAttempts * WRONG_ATTEMPT_PENALTY_MINUTES);
        solvedCount := solvedCount + 1;
        if lastAc.None? || at > lastAc.value {
          lastAc := Some(at);
        }
      }
      assert problemIds - (done + {p}) < problemIds - done;
      done := done + {p};
    }
    assert done == problemIds;
    row := Score(totalScore, totalPenalty, solvedCount, lastAc);
  }

  // ---------------------------------------------------------------- one verdict landing

  function Landed(subs: seq<Submission>, i: nat, v: Verdict): seq<Submission>
    requires i < |subs|
  {
    subs[i := subs[i].(verdict := Some(v))]
  }

  /** A counted wrong verdict that arrives after the problem's accepted one although it was submitted before it. */
  predicate ArrivesTooLate(subs: seq<Submission>, i: nat, v: Verdict)
    requires i < |subs|
  {
    var first := FirstAc(subs, subs[i].user, subs[i].problem);
    CountsAsWrong(Some(v)) && first.Some? && subs[i].createdAt < first.value
  }

  lemma {:induction false} QueriesAfterLanding(subs: seq<Submission>, i: nat, v: Verdict,
                                               user: int, problem: int, time: int)
    requires i < |subs| && subs[i].verdict == None
    ensures v != AC || !Of(subs[i], user, problem) ==>
      FirstAc(Landed(subs, i, v), user, problem) == FirstAc(subs, user, problem)
    ensures WrongBefore(Landed(subs, i, v), user, problem, time) == WrongBefore(subs, user, problem, time)
      + if Of(subs[i], user, problem) && CountsAsWrong(Some(v)) && subs[i].createdAt < time then 1 else 0
  {
    var n, after := |subs| - 1, Landed(subs, i, v);
    if i == n {
      assert after[..n] == subs[..n];
    } else {
      QueriesAfterLanding(subs[..n], i, v, user, problem, time);
      assert after[..n] == Landed(subs[..n], i, v);
    }
  }

  lemma ProblemsAfterLanding(subs: seq<Submission>, i: nat, v: Verdict, user: int)
    requires i < |subs|
    ensures ProblemsOf(Landed(subs, i, v), user) == ProblemsOf(subs, user)
  {
    var after := Landed(subs, i, v);
    forall p ensures p in ProblemsOf(after, user) <==> p in ProblemsOf(subs, user) {
      if p in ProblemsOf(after, user) {
        var j :| 0 <= j < |after| && after[j].user == user && after[j].problem == p;
        assert subs[j] in subs;
      }
      if p in ProblemsOf(subs, user) {
        var j :| 0 <= j < |subs| && subs[j].user == user && subs[j].problem == p;
        assert after[j] in after;
      }
    }
  }

  /** A verdict other than AC moves the score from scratch by one wrong attempt, or not at all. */
  lemma {:induction false} TotalAfterWrong(subs: seq<Submission>, i: nat, v: Verdict,
                                           user: int, start: int, problems: set<int>)
    requires i < |subs| && subs[i].verdict == None && v != AC
    ensures var before := Total(subs, user, start, problems);
      Total(Landed(subs, i, v), user, start, problems)
        == before.(penalty := before.penalty
             + if user == subs[i].user && subs[i].problem in problems && ArrivesTooLate(subs, i, v)
               then WRONG_ATTEMPT_PENALTY_MINUTES else 0)
    decreases |problems|
  {
    if p :| p in problems {
      TotalAnyOrder(subs, user, start, problems, p);
      TotalAnyOrder(Landed(subs, i, v), user, start, problems, p);
      TotalAfterWrong(subs, i, v, user, start, problems - {p});
      var t := FirstAc(subs, user, p);
      QueriesAfterLanding(subs, i, v, user, p, if t.Some? then t.value else 0);
    }
  }

  lemma {:induction false} TotalOfOthers(subs: seq<Submission>, i: nat, v: Verdict,
                                         user: int, start: int, problems: set<int>)
    requires i < |subs| && subs[i].verdict == None && user != subs[i].user
    ensures Total(Landed(subs, i, v), user, start, problems) == Total(subs, user, start, problems)
    decreases |problems|
  {
    if p :| p in problems {
      TotalAnyOrder(subs, user, start, problems, p);
      TotalAnyOrder(Landed(subs, i, v), user, start, problems, p);
      TotalOfOthers(subs, i, v, user, start, problems - {p});
      var t := FirstAc(subs, user, p);
      QueriesAfterLanding(subs, i, v, user, p, if t.Some? then t.value else 0);
    }
  }

  // ---------------------------------------------------------------- the stored rows

  /** One contest: its submissions and its ContestScore rows by user. */
  datatype Contest = Contest(start: int, subs: seq<Submission>, rows: map<int, Score>)

  function Stored(c: Contest, user: int): Score {
    if user in c.rows then c.rows[user] else ZERO
  }

  ghost predicate Exact(c: Contest, user: int) {
    Stored(c, user) == FromScratch(c.subs, user, c.start)
  }

  ghost predicate AllExact(c: Contest) { forall user :: Exact(c, user) }

  datatype Event =
    | Submit(user: int, problem: int, at: int)
    | Land(i: nat, verdict: Verdict) // the result consumer saves a verdict

  /** A verdict already set is left alone; a new one is saved, and an AC refreshes the author's row. */
  ghost function Next(c: Contest, e: Event): Contest {
    match e
    case Submit(u, p, at) => c.(subs := c.subs + [Submission(u, p, None, at)])
    case Land(i, v) =>
      if i >= |c.subs| || c.subs[i].verdict != None then c else
      var subs, u := Landed(c.subs, i, v), c.subs[i].user;
      if v == AC then c.(subs := subs, rows := c.rows[u := FromScratch(subs, u, c.start)])
      else c.(subs := subs)
  }

  lemma {:induction false} TotalAfterSubmit(subs: seq<Submission>, s: Submission,
                                            user: int, start: int, problems: set<int>)
    requires s.verdict == None
    ensures Total(subs + [s], user, start, problems) == Total(subs, user, start, problems)
    decreases |problems|
  {
    if p :| p in problems {
      TotalAnyOrder(subs, user, start, problems, p);
      TotalAnyOrder(subs + [s], user, start, problems, p);
      TotalAfterSubmit(subs, s, user, start, problems - {p});
      assert (subs + [s])[..|subs|] == subs;
    }
  }

  /** Only a problem with submissions can be solved. */
  lemma SolvedIsTouched(subs: seq<Submission>, user: int, problem: int)
    ensures FirstAc(subs, user, problem).Some? ==> problem in ProblemsOf(subs, user)
  {
    FirstAcFound(subs, user, problem);
    if FirstAc(subs, user, problem).Some? {
      var i :| IsFirstAc(subs, user, problem, i);
      assert subs[i] in subs;
    }
  }

  lemma SubmitKeepsExact(c: Contest, e: Event, user: int)
    requires e.Submit? && Exact(c, user)
    ensures Exact(Next(c, e), user)
  {
    var s := Submission(e.user, e.problem, None, e.at);
    var subs := c.subs + [s];
    var problems := ProblemsOf(c.subs, user);
    assert ProblemsOf(subs, user) == if e.user == user then problems + {e.problem} else problems by {
      assert forall t :: t in subs <==> t in c.subs || t == s;
    }
    TotalAfterSubmit(c.subs, s, user, c.start, ProblemsOf(subs, user));
    if e.user == user && e.problem !in problems {
      SolvedIsTouched(c.subs, user, e.problem);
      TotalAnyOrder(c.subs, user, c.start, problems + {e.problem}, e.problem);
      assert problems + {e.problem} - {e.problem} == problems;
    } else {
      assert ProblemsOf(subs, user) == problems;
    }
  }

  /** The exact condition. Starting from exact rows, one landing leaves every row exact if and only if it is not
      a counted wrong verdict, submitted before the accepted one of its problem, that was judged after it. */
  lemma LandingIsExactIff(c: Contest, i: nat, v: Verdict)
    requires AllExact(c) && i < |c.subs| && c.subs[i].verdict == None
    ensures AllExact(Next(c, Land(i, v))) <==> !ArrivesTooLate(c.subs, i, v)
  {
    var after, u := Next(c, Land(i, v)), c.subs[i].user;
    forall user | user != u ensures Exact(after, user) {
      assert Exact(c, user);
      ProblemsAfterLanding(c.subs, i, v, user);
      TotalOfOthers(c.subs, i, v, user, c.start, ProblemsOf(c.subs, user));
    }
    assert Exact(c, u);
    assert Exact(after, u) <==> !ArrivesTooLate(c.subs, i, v) by {
      if v != AC {
        ProblemsAfterLanding(c.subs, i, v, u);
        assert c.subs[i] in c.subs;
        TotalAfterWrong(c.subs, i, v, u, c.start, ProblemsOf(c.subs, u));
      }
    }
  }

  /** The submission and score tables of one contest, as the result consumer and the save signals change them. */
  class Tables {
    const start: int
    var subs: seq<Submission>
    var rows: map<int, Score>

    ghost function View(): Contest
      reads this
    {
      Contest(start, subs, rows)
    }

    constructor (start: int)
      ensures View() == Contest(start, [], map[])
    {
      this.start := start;
      subs, rows := [], map[];
    }

    method Create(user: int, problem: int, at: int)
      modifies this
      ensures View() == Next(old(View()), Submit(user, problem, at))
      ensures subs == old(subs) + [Submission(user, problem, None, at)] && rows == old(rows)
    {
      subs := subs + [Submission(user, problem, None, at)];
    }

    /** apply_result and the signals of its save: skip a final verdict, otherwise save and rescore on a first AC. */
    method ApplyResult(i: nat, verdict: Verdict) returns (found: bool)
      modifies this
      ensures found == (i < |subs|)
      ensures View() == Next(old(View()), Land(i, verdict))
      ensures i >= |old(subs)| || old(subs)[i].verdict != None ==> subs == old(subs) && rows == old(rows)
      ensures i < |old(subs)| && old(subs)[i].verdict == None ==>
        && subs == old(subs)[i := old(subs)[i].(verdict := Some(verdict))]
        && rows == if verdict != AC then old(rows)
                   else old(rows)[subs[i].user := FromScratch(subs, subs[i].user, start)]
    {
      if i >= |subs| {
        return false;
      }
      if subs[i].verdict != None {
        return true;
      }
      var previous := subs[i].verdict;
      subs := subs[i := subs[i].(verdict := Some(verdict))];
      if verdict == AC && previous != Some(AC) {
        var row := CalculateScore(subs, subs[i].user, start);
        rows := rows[subs[i].user := row];
      }
      return true;
    }
  }

  // ---------------------------------------------------------------- whole runs

  ghost function Run(c: Contest, es: seq<Event>): Contest
    decreases |es|
  {
    if es == [] then c else Run(Next(c, es[0]), es[1..])
  }

  /** Verdicts of one user on one problem land in the order of submission. */
  ghost predicate LandsInOrder(c: Contest, e: Event) {
    e.Land? && e.i < |c.subs| && c.subs[e.i].verdict == None ==>
      forall j ::
        && 0 <= j < |c.subs|
        && Of(c.subs[j], c.subs[e.i].user, c.subs[e.i].problem) && c.subs[j].verdict != None
        ==> c.subs[j].createdAt <= c.subs[e.i].createdAt
  }

  ghost predicate RunsInOrder(c: Contest, es: seq<Event>)
    decreases |es|
  {
    es == [] || (LandsInOrder(c, es[0]) && RunsInOrder(Next(c, es[0]), es[1..]))
  }

  lemma StepKeepsExact(c: Contest, e: Event)
    requires AllExact(c) && LandsInOrder(c, e)
    ensures AllExact(Next(c, e))
  {
    if e.Submit? {
      forall user ensures Exact(Next(c, e), user) {
        assert Exact(c, user);
        SubmitKeepsExact(c, e, user);
      }
    } else if e.i < |c.subs| && c.subs[e.i].verdict == None {
      var s := c.subs[e.i];
      FirstAcFound(c.subs, s.user, s.problem);
      LandingIsExactIff(c, e.i, e.verdict);
    }
  }

  /** Recomputing on AC alone is enough: after every step of an in-order run each stored row, or zeros where there
      is none, is the score from scratch. */
  lemma {:induction false} StoredScoreIsExact(c: Contest, es: seq<Event>)
    requires AllExact(c) && RunsInOrder(c, es)
    ensures AllExact(Run(c, es))
    decreases |es|
  {
    if es != [] {
      StepKeepsExact(c, es[0]);
      StoredScoreIsExact(Next(c, es[0]), es[1..]);
    }
  }

  lemma EmptyContestIsExact(start: int)
    ensures AllExact(Contest(start, [], map[]))
  {
    forall user ensures Exact(Contest(start, [], map[]), user) {
      assert ProblemsOf([], user) == {};
    }
  }

  /** What a late wrong verdict costs: the stored penalty is short by one wrong attempt, and by nothing else. */
  lemma LateVerdictCosts(c: Contest, i: nat, v: Verdict)
    requires AllExact(c) && i < |c.subs| && c.subs[i].verdict == None && ArrivesTooLate(c.subs, i, v)
    ensures var after, u := Next(c, Land(i, v)), c.subs[i].user;
      var due := FromScratch(after.subs, u, after.start);
      Stored(after, u) == due.(penalty := due.penalty - WRONG_ATTEMPT_PENALTY_MINUTES)
  {
    var u := c.subs[i].user;
    assert Exact(c, u);
    assert c.subs[i] in c.subs;
    ProblemsAfterLanding(c.subs, i, v, u);
    TotalAfterWrong(c.subs, i, v, u, c.start, ProblemsOf(c.subs, u));
  }

  /** Out of order it does go stale: two submissions, the second judged first and accepted, then the first one
      wrong. Everything was exact until then, and the stored penalty is now too low. */
  lemma LateWrongVerdictIsLost()
    ensures var es := [Submit(1, 1, MINUTE), Submit(1, 1, 2 * MINUTE), Land(1, AC)];
      var c := Run(Contest(0, [], map[]), es);
      var after := Run(Contest(0, [], map[]), es + [Land(0, WA)]);
      && AllExact(c)
      && Stored(after, 1).penalty + WRONG_ATTEMPT_PENALTY_MINUTES == FromScratch(after.subs, 1, after.start).penalty
  {
    var c0 := Contest(0, [], map[]);
    var es := [Submit(1, 1, MINUTE), Submit(1, 1, 2 * MINUTE), Land(1, AC)];
    var c1 := Next(c0, es[0]);
    var c2 := Next(c1, es[1]);
    var c3 := Next(c2, es[2]);
    EmptyContestIsExact(0);
    StepKeepsExact(c0, es[0]);
    StepKeepsExact(c1, es[1]);
    assert c2.subs == [Submission(1, 1, None, MINUTE), Submission(1, 1, None, 2 * MINUTE)];
    StepKeepsExact(c2, es[2]);
    assert c3.subs == [Submission(1, 1, None, MINUTE), Submission(1, 1, Some(AC), 2 * MINUTE)];
    AcceptedSecond(c3.subs);
    LateVerdictCosts(c3, 0, WA);
    hide Next, FromScratch;
    FourSteps(c0, es[0], es[1], es[2], Land(0, WA));
    assert es + [Land(0, WA)] == [es[0], es[1], es[2], Land(0, WA)];
  }

  lemma AcceptedSecond(subs: seq<Submission>)
    requires subs == [Submission(1, 1, None, MINUTE), Submission(1, 1, Some(AC), 2 * MINUTE)]
    ensures FirstAc(subs, 1, 1) == Some(2 * MINUTE)
  {
    FirstAcFound(subs, 1, 1);
    assert Of(subs[1], 1, 1);
  }

  lemma FourSteps(c: Contest, e0: Event, e1: Event, e2: Event, e3: Event)
    ensures Run(c, [e0, e1, e2]) == Next(Next(Next(c, e0), e1), e2)
    ensures Run(c, [e0, e1, e2, e3]) == Next(Next(Next(Next(c, e0), e1), e2), e3)
  {
    hide Next;
    ThreeSteps(c, e0, e1, e2, []);
    ThreeSteps(c, e0, e1, e2, [e3]);
    assert [e0, e1, e2] + [] == [e0, e1, e2];
    assert [e0, e1, e2] + [e3] == [e0, e1, e2, e3];
  }

  lemma ThreeSteps(c: Contest, e0: Event, e1: Event, e2: Event, rest: seq<Event>)
    ensures Run(c, [e0, e1, e2] + rest) == Run(Next(Next(Next(c, e0), e1), e2), rest)
  {
    hide Next;
    var es := [e0, e1, e2] + rest;
    assert es[1..] == [e1, e2] + rest && ([e1, e2] + rest)[1..] == [e2] + rest && ([e2] + rest)[1..] == rest;
    assert Run(c, es) == Run(Next(c, e0), [e1, e2] + rest);
    assert Run(Next(c, e0), [e1, e2] + rest) == Run(Next(Next(c, e0), e1), [e2] + rest);
  }
}
