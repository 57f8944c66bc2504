/**
 The daily challenge: a visible problem not used in the last week if there is one, otherwise the one
 whose last turn is longest ago. However the random choice falls, a problem does not come back before
 the others have had theirs, up to a week.
 */
module DailyProblem {
  import opened Bounds
  import opened Sets
  import opened SqlOrder
  import opened Wrappers

  const RECENT_DAYS := 7

  /** The problem of each day that has one. */
  type History = map<int, int>

  function RecentlyUsed(h: History, today: int): set<int> {
    set d | d in h && d >= today - RECENT_DAYS :: h[d]
  }

  predicate IsLastUse(h: History, p: int, d: int) {
    d in h && h[d] == p && forall e :: e in h && h[e] == p ==> e <= d
  }

  /** Max("daily_assignments__date"), NULL when there is none. */
  ghost function LastUsed(h: History, p: int): Option<int> {
    if d :| IsLastUse(h, p, d) then Some(d) else None
  }

  /** What _pick_problem may return: any fresh problem, or failing that any that sorts first by last use. */
  ghost predicate MayPick(pool: set<int>, h: History, today: int, p: int) {
    if pool - RecentlyUsed(h, today) != {} then p in pool - RecentlyUsed(h, today)
    else p in pool && forall q :: q in pool ==> !AscNullsLast(LastUsed(h, q), LastUsed(h, p))
  }

  ghost predicate NoneLater(h: History, today: int) {
    forall d :: d in h ==> d < today
  }

  // ---------------------------------------------------------------- one pick

  lemma {:induction false} LastUseExists(h: History, p: int, days: set<int>)
    requires forall d :: d in days <==> d in h && h[d] == p
    ensures days != {} ==> LastUsed(h, p).Some?
    ensures LastUsed(h, p).Some? ==> IsLastUse(h, p, LastUsed(h, p).value)
  {
    if days != {} {
      var d := Latest(days);
      assert IsLastUse(h, p, d);
    }
  }

  lemma {:induction false} Latest(days: set<int>) returns (d: int)
    requires days != {}
    ensures d in days && forall e :: e in days ==> e <= d
    decreases |days|
  {
    d := Any(days);
    var rest := days - {d};
    if rest != {} {
      var e := Latest(rest);
      if e > d { d := e; }
    }
    forall e | e in days ensures e <= d {
      assert e in rest || rest == {} || e !in rest;
    }
  }

  lemma UsedHasLastUse(h: History, p: int, d: int)
    requires d in h && h[d] == p
    ensures LastUsed(h, p).Some? && IsLastUse(h, p, LastUsed(h, p).value) && d <= LastUsed(h, p).value
  {
    var days := set e | e in h && h[e] == p;
    assert d in days;
    LastUseExists(h, p, days);
  }

  /** When the fallback runs, every visible problem was used within the week, so it never meets a NULL. */
  lemma FallbackMeetsNoNull(pool: set<int>, h: History, today: int, q: int)
    requires pool - RecentlyUsed(h, today) == {} && q in pool
    ensures LastUsed(h, q).Some? && IsLastUse(h, q, LastUsed(h, q).value)
    ensures today - 7 <= LastUsed(h, q).value
  {
    assert q in pool - RecentlyUsed(h, today) || q in RecentlyUsed(h, today);
    var d :| d in h && d >= today - RECENT_DAYS && h[d] == q;
    UsedHasLastUse(h, q, d);
  }

  /** Used on one of the last seven days, or on a later one. */
  predicate UsedLately(h: History, today: int, p: int) {
    exists d :: d in h && d >= today - 7 && h[d] == p
  }

  /** What may be picked, in terms of the days: a visible problem not used lately if there is one; otherwise a
      visible problem such that every visible one has been used on the day of its last use or later. */
  lemma PickIff(pool: set<int>, h: History, today: int, p: int)
    ensures MayPick(pool, h, today, p)
       <==> && p in pool
            && if exists q :: q in pool && !UsedLately(h, today, q) then !UsedLately(h, today, p)
               else forall q, d :: q in pool && d in h && h[d] == p ==> exists e :: e in h && h[e] == q && d <= e
  {
    forall q ensures q in RecentlyUsed(h, today) <==> UsedLately(h, today, q) {}
    if q :| q in pool && !UsedLately(h, today, q) {
      assert q in pool - RecentlyUsed(h, today);
    } else {
      forall q ensures q !in pool - RecentlyUsed(h, today) {
        assert q in pool ==> UsedLately(h, today, q);
      }
      assert pool - RecentlyUsed(h, today) == {};
      if p in pool {
        FallbackMeetsNoNull(pool, h, today, p);
        forall q | q in pool
          ensures !AscNullsLast(LastUsed(h, q), LastUsed(h, p))
            <==> forall d :: d in h && h[d] == p ==> exists e :: e in h && h[e] == q && d <= e
        {
          FallbackMeetsNoNull(pool, h, today, q);
          LaterUse(h, p, q, LastUsed(h, p).value, LastUsed(h, q).value);
        }
      }
    }
  }

  lemma LaterUse(h: History, p: int, q: int, a: int, b: int)
    requires IsLastUse(h, p, a) && IsLastUse(h, q, b)
    ensures a <= b <==> forall d :: d in h && h[d] == p ==> exists e :: e in h && h[e] == q && d <= e
  {
    if a <= b {
      forall d | d in h && h[d] == p ensures exists e :: e in h && h[e] == q && d <= e {
        assert d <= b;
      }
    }
  }

  /** A day has one problem, so problems last used within a stretch of days are no more than the days. */
  lemma {:induction false} DaysHoldOneEach(pool: set<int>, h: History, lo: int, hi: int)
    requires lo <= hi
    requires forall q :: q in pool ==> LastUsed(h, q).Some? && IsLastUse(h, q, LastUsed(h, q).value)
    requires forall q :: q in pool ==> lo <= LastUsed(h, q).value < hi
    ensures |pool| <= hi - lo
    decreases hi - lo
  {
    if lo == hi {
      if pool != {} {
        var q := Any(pool);
        assert false;
      }
    } else {
      var last := hi - 1;
      var rest := if last in h then pool - {h[last]} else pool;
      DaysHoldOneEach(rest, h, lo, last);
      assert pool <= rest + (if last in h then {h[last]} else {});
      assert |pool| <= |rest| + 1;
    }
  }

  /** Spacing: with k visible problems, whichever problem is picked was not the daily on any of the previous
      min(k, 8) - 1 days. */
  lemma PickKeepsDistance(pool: set<int>, h: History, today: int, p: int, d: int)
    requires NoneLater(h, today) && pool != {} && MayPick(pool, h, today, p)
    requires d in h && today - (Min(|pool|, 8) - 1) <= d < today
    ensures h[d] != p
  {
    if pool - RecentlyUsed(h, today) == {} && h[d] == p {
      FallbackMeetsNoNull(pool, h, today, p);
      var first := LastUsed(h, p).value;
      UsedHasLastUse(h, p, d);
      forall q | q in pool
        ensures LastUsed(h, q).Some? && IsLastUse(h, q, LastUsed(h, q).value) && first <= LastUsed(h, q).value < today
      {
        FallbackMeetsNoNull(pool, h, today, q);
      }
      DaysHoldOneEach(pool, h, first, today);
    }
  }

  // ---------------------------------------------------------------- the task

  class DailyTable {
    var history: History

    constructor ()
      ensures history == map[]
    {
      history := map[];
    }

    /** assign_daily_problem: nothing when the day has its problem, or when no problem is visible. */
    method Assign(pool: set<int>, today: int) returns (created: bool)
      modifies this
      ensures created == (today !in old(history) && pool != {})
      ensures !created ==> history == old(history)
      ensures created ==> today in history && history == old(history)[today := history[today]]
      ensures created ==> MayPick(pool, old(history), today, history[today])
    {
      if today in history {
        return false;
      }
      if pool == {} {
        return false;
      }
      var chosen := PickProblem(pool, history, today);
      history := history[today := chosen];
      return true;
    }
  }

  method PickProblem(pool: set<int>, h: History, today: int) returns (p: int)
    requires pool != {}
    ensures MayPick(pool, h, today, p)
  {
    var recent := RecentlyUsed(h, today);
    if pool - recent != {} {
      p := Pick(pool - recent); // order_by("?")
      return;
    }
    forall q | q in pool
      ensures LastUsed(h, q).Some? && IsLastUse(h, q, LastUsed(h, q).value)
    {
      FallbackMeetsNoNull(pool, h, today, q);
    }
    var best := Oldest(pool, h);
    forall q | q in pool ensures !UsedAfterAll(h, best, q) {
      NotUsedAfterAll(h, best, q, LastUsed(h, best).value, LastUsed(h, q).value);
    }
    // the first row by last use: none of the visible problems was used for the last time before it
    p :| p in pool && forall q :: q in pool ==> !UsedAfterAll(h, p, q);
    forall q | q in pool ensures !AscNullsLast(LastUsed(h, q), LastUsed(h, p)) {
      assert !UsedAfterAll(h, p, q);
    }
  }

  /** Some use of p comes after every use of q. */
  predicate UsedAfterAll(h: History, p: int, q: int) {
    exists d :: d in h && h[d] == p && forall e :: e in h && h[e] == q ==> e < d
  }

  lemma NotUsedAfterAll(h: History, p: int, q: int, a: int, b: int)
    requires IsLastUse(h, p, a) && IsLastUse(h, q, b) && a <= b
    ensures !UsedAfterAll(h, p, q)
  {
  }

  lemma {:induction false} Oldest(pool: set<int>, h: History) returns (p: int)
    requires pool != {} && forall q :: q in pool ==> LastUsed(h, q).Some?
    ensures p in pool && forall q :: q in pool ==> LastUsed(h, p).value <= LastUsed(h, q).value
    decreases |pool|
  {
    hide LastUsed;
    p := Any(pool);
    var rest := pool - {p};
    if rest != {} {
      var other := Oldest(rest, h);
      if LastUsed(h, other).value < LastUsed(h, p).value {
        p := other;
      }
    } else {
      forall q | q in pool ensures q == p {
        assert q in rest || q == p;
      }
    }
  }

  // ---------------------------------------------------------------- whole runs

  datatype Call = Call(today: int, pool: set<int>, choice: int)

  /** One run of the task, the database having chosen `choice` if it was asked. */
  function After(h: History, c: Call): History {
    if c.today in h || c.pool == {} then h else h[c.today := c.choice]
  }

  /** Days never run backwards, at least k problems stay visible, and each choice is one the query may make. */
  ghost predicate Plausible(h: History, calls: seq<Call>, k: nat)
    decreases |calls|
  {
    calls == [] ||
      (var c := calls[0];
       && |c.pool| >= k && (forall d :: d in h ==> d <= c.today)
       && (c.today !in h && c.pool != {} ==> MayPick(c.pool, h, c.today, c.choice))
       && Plausible(After(h, c), calls[1..], k))
  }

  ghost predicate Spaced(h: History, k: nat) {
    forall d, e :: d in h && e in h && d < e && e - d < Min(k, 8) ==> h[d] != h[e]
  }

  /** Over any run: two days closer than min(k, 8) never share their problem. */
  lemma {:induction false} RunKeepsDistance(h: History, calls: seq<Call>, k: nat)
    requires Spaced(h, k) && Plausible(h, calls, k)
    ensures Spaced(AfterAll(h, calls), k)
    decreases |calls|
  {
    if calls != [] {
      var c := calls[0];
      var next := After(h, c);
      if next != h {
        forall d | d in h && c.today - d < Min(k, 8) ensures h[d] != c.choice {
          PickKeepsDistance(c.pool, h, c.today, c.choice, d);
        }
      }
      assert Spaced(next, k);
      RunKeepsDistance(next, calls[1..], k);
    }
  }

  function AfterAll(h: History, calls: seq<Call>): History
    decreases |calls|
  {
    if calls == [] then h else AfterAll(After(h, calls[0]), calls[1..])
  }
}
