/**
 Multiplayer Elo: every contestant duels every other one, the sum is scaled by K / (n - 1) and
 rounded half to even. `compute_elo_deltas` is the nested loop at the end; everything before it
 says what the numbers it returns mean.
 */
module Elo {
  import opened Wrappers

  const K_FACTOR := 32

  /** A contest result: more points first, then less penalty, then the earlier last accepted answer. */
  datatype PlaceKey = PlaceKey(score: int, penalty: int, lastAc: Option<int>)

  datatype Participant = Participant(userId: int, rating: int, place: PlaceKey)

  /** d -> 10^(d/400), by the three properties the rating formula relies on. */
  ghost predicate IsCurve(curve: int -> real) {
    && (forall d :: curve(d) > 0.0)
    && (forall d :: curve(d) * curve(-d) == 1.0)
    && (forall d, e :: d <= e ==> curve(d) <= curve(e))
  }

  // ---------------------------------------------------------------- the order of places

  predicate RanksAbove(a: PlaceKey, b: PlaceKey) {
    if a.score != b.score then a.score > b.score
    else if a.penalty != b.penalty then a.penalty < b.penalty
    else if a.lastAc == b.lastAc then false
    else if a.lastAc.None? then false
    else if b.lastAc.None? then true
    else a.lastAc.value < b.lastAc.value
  }

  /** _ranks_above is a strict total order on keys: exactly one of above, equal, below, and transitive. */
  lemma RanksAboveIsTotal(a: PlaceKey, b: PlaceKey, c: PlaceKey)
    ensures !RanksAbove(a, a)
    ensures !(RanksAbove(a, b) && RanksAbove(b, a))
    ensures a == b || RanksAbove(a, b) || RanksAbove(b, a)
    ensures RanksAbove(a, b) && RanksAbove(b, c) ==> RanksAbove(a, c)
  {
  }

  // ---------------------------------------------------------------- one duel

  function Expected(curve: int -> real, p: Participant, opp: Participant): real
    requires curve(opp.rating - p.rating) > 0.0
  {
    1.0 / (1.0 + curve(opp.rating - p.rating))
  }

  function Actual(p: Participant, opp: Participant): real {
    if p.place == opp.place then 0.5
    else if RanksAbove(p.place, opp.place) then 1.0
    else 0.0
  }

  /** What p gains from its duel with opp, before scaling. */
  function Gain(curve: int -> real, p: Participant, opp: Participant): real
    requires curve(opp.rating - p.rating) > 0.0
  {
    Actual(p, opp) - Expected(curve, p, opp)
  }

  lemma ExpectedBounds(curve: int -> real, p: Participant, opp: Participant)
    requires IsCurve(curve)
    ensures 0.0 < Expected(curve, p, opp) < 1.0
  {
    var g := curve(opp.rating - p.rating);
    assert g > 0.0;
    Reciprocal(1.0 + g);
  }

  lemma Reciprocal(x: real)
    requires x > 1.0
    ensures 0.0 < 1.0 / x < 1.0
  {
    var y := 1.0 / x;
    assert y * x == 1.0;
  }

  /** The two sides of a duel expect one point between them. */
  lemma ExpectedComplement(curve: int -> real, p: Participant, opp: Participant)
    requires IsCurve(curve)
    ensures Expected(curve, p, opp) + Expected(curve, opp, p) == 1.0
  {
    var d := opp.rating - p.rating;
    var g, h := curve(d), curve(-d);
    assert p.rating - opp.rating == -d;
    assert g > 0.0 && h > 0.0 && g * h == 1.0;
    SumOfReciprocals(g, h);
  }

  lemma SumOfReciprocals(g: real, h: real)
    requires g > 0.0 && h > 0.0 && g * h == 1.0
    ensures 1.0 / (1.0 + g) + 1.0 / (1.0 + h) == 1.0
  {
    var x, y := 1.0 / (1.0 + g), 1.0 / (1.0 + h);
    assert x * (1.0 + g) == 1.0 && y * (1.0 + h) == 1.0;
    assert (1.0 + g) * (1.0 + h) == 2.0 + g + h;
    calc {
      (x + y) * ((1.0 + g) * (1.0 + h));
      x * (1.0 + g) * (1.0 + h) + y * (1.0 + h) * (1.0 + g);
      (1.0 + h) + (1.0 + g);
      1.0 * ((1.0 + g) * (1.0 + h));
    }
    CancelReal(x + y, 1.0, (1.0 + g) * (1.0 + h));
  }

  lemma CancelReal(a: real, b: real, m: real)
    requires m > 0.0 && a * m == b * m
    ensures a == b
  {
    assert (a - b) * m == 0.0;
  }

  /** The odds law: what the two sides expect stands in the ratio the curve gives their rating difference. With
      the complement it leaves one expectation only. */
  lemma ExpectedOdds(curve: int -> real, p: Participant, opp: Participant)
    requires IsCurve(curve)
    ensures Expected(curve, opp, p) == curve(opp.rating - p.rating) * Expected(curve, p, opp)
  {
    var g := curve(opp.rating - p.rating);
    var x := Expected(curve, p, opp);
    assert g > 0.0;
    assert x * (1.0 + g) == 1.0;
    assert x + g * x == 1.0;
    ExpectedComplement(curve, p, opp);
  }

  /** A stronger player expects more from the same opponent. */
  lemma ExpectedMonotone(curve: int -> real, p: Participant, q: Participant, opp: Participant)
    requires IsCurve(curve) && p.rating <= q.rating
    ensures Expected(curve, p, opp) <= Expected(curve, q, opp)
  {
    var a, b := 1.0 + curve(opp.rating - q.rating), 1.0 + curve(opp.rating - p.rating);
    assert a <= b && a > 1.0 by {
      assert curve(opp.rating - q.rating) > 0.0;
    }
    var x, y := 1.0 / b, 1.0 / a;
    assert x * b == 1.0 && y * a == 1.0;
    Reciprocal(b);
    if x > y {
      assert x * a > y * a;
      assert x * b >= x * a;
    }
  }

  /** A duel pays one side what it takes from the other; against an equal it pays nothing. */
  lemma GainAntisymmetric(curve: int -> real, p: Participant, q: Participant)
    requires IsCurve(curve)
    ensures curve(q.rating - p.rating) > 0.0 && curve(p.rating - q.rating) > 0.0
    ensures Gain(curve, p, q) == -Gain(curve, q, p)
    ensures p == q ==> Gain(curve, p, q) == 0.0
  {
    ExpectedComplement(curve, p, q);
    RanksAboveIsTotal(p.place, q.place, q.place);
    assert Actual(p, q) + Actual(q, p) == 1.0;
  }

  lemma GainBounds(curve: int -> real, p: Participant, q: Participant)
    requires IsCurve(curve)
    ensures curve(q.rating - p.rating) > 0.0 && -1.0 < Gain(curve, p, q) < 1.0
  {
    ExpectedBounds(curve, p, q);
  }

  /** Finishing above q from no higher a rating gains at least as much from any third opponent. */
  lemma GainMonotone(curve: int -> real, p: Participant, q: Participant, opp: Participant)
    requires IsCurve(curve) && RanksAbove(p.place, q.place) && p.rating <= q.rating
    ensures curve(opp.rating - p.rating) > 0.0 && curve(opp.rating - q.rating) > 0.0
    ensures Gain(curve, p, opp) >= Gain(curve, q, opp)
  {
    ExpectedMonotone(curve, p, q, opp);
    RanksAboveIsTotal(p.place, q.place, opp.place);
    RanksAboveIsTotal(q.place, opp.place, p.place);
    RanksAboveIsTotal(opp.place, p.place, q.place);
  }

  // ---------------------------------------------------------------- the sum over opponents

  /** Gains summed over a list; the own entry may be in it, since it adds nothing. */
  ghost function Total(curve: int -> real, p: Participant, ps: seq<Participant>): real
    requires IsCurve(curve)
  {
    if ps == [] then 0.0 else
    var opp := ps[|ps| - 1];
    assert curve(opp.rating - p.rating) > 0.0;
    Total(curve, p, ps[..|ps| - 1]) + Gain(curve, p, opp)
  }

  lemma {:induction false} TotalAppend(curve: int -> real, p: Participant, a: seq<Participant>, b: seq<Participant>)
    requires IsCurve(curve)
    ensures Total(curve, p, a + b) == Total(curve, p, a) + Total(curve, p, b)
  {
    if b == [] {
      assert a + b == a;
    } else {
      assert (a + b)[..|a + b| - 1] == a + b[..|b| - 1];
      TotalAppend(curve, p, a, b[..|b| - 1]);
    }
  }

  /** The sum depends on who took part, not on the order they are listed in. */
  lemma {:induction false} TotalPermutes(curve: int -> real, p: Participant, a: seq<Participant>, b: seq<Participant>)
    requires IsCurve(curve) && multiset(a) == multiset(b)
    ensures Total(curve, p, a) == Total(curve, p, b)
    decreases |a|
  {
    assert |a| == |multiset(a)| == |multiset(b)| == |b|;
    if a != [] {
      var x, rest := a[|a| - 1], a[..|a| - 1];
      assert a == rest + [x];
      assert x in multiset(b);
      var i :| 0 <= i < |b| && b[i] == x;
      var b' := b[..i] + b[i + 1..];
      assert b == b[..i] + [x] + b[i + 1..];
      assert multiset(b') == multiset(b) - multiset{x};
      assert multiset(rest) == multiset(a) - multiset{x};
      TotalPermutes(curve, p, rest, b');
      TotalAppend(curve, p, b[..i], b[i + 1..]);
      TotalAppend(curve, p, b[..i] + [x], b[i + 1..]);
      TotalAppend(curve, p, b[..i], [x]);
      assert [x][..0] == [];
    }
  }

  lemma {:induction false} TotalMonotone(curve: int -> real, p: Participant, q: Participant, ps: seq<Participant>)
    requires IsCurve(curve) && RanksAbove(p.place, q.place) && p.rating <= q.rating
    ensures Total(curve, p, ps) >= Total(curve, q, ps)
  {
    if ps != [] {
      TotalMonotone(curve, p, q, ps[..|ps| - 1]);
      GainMonotone(curve, p, q, ps[|ps| - 1]);
    }
  }

  lemma {:induction false} TotalBounds(curve: int -> real, p: Participant, ps: seq<Participant>)
    requires IsCurve(curve)
    ensures -(|ps| as real) <= Total(curve, p, ps) <= |ps| as real
  {
    if ps != [] {
      TotalBounds(curve, p, ps[..|ps| - 1]);
      GainBounds(curve, p, ps[|ps| - 1]);
    }
  }

  /** The sum of everybody's totals. */
  ghost function FieldTotal(curve: int -> real, who: seq<Participant>, ps: seq<Participant>): real
    requires IsCurve(curve)
  {
    if who == [] then 0.0
    else FieldTotal(curve, who[..|who| - 1], ps) + Total(curve, who[|who| - 1], ps)
  }

  /** Everybody's gain from one more opponent x is what x loses to them. */
  lemma {:induction false} FieldTotalExtend(curve: int -> real, who: seq<Participant>, ps: seq<Participant>,
                                            x: Participant)
    requires IsCurve(curve)
    ensures FieldTotal(curve, who, ps + [x]) == FieldTotal(curve, who, ps) - Total(curve, x, who)
  {
    if who != [] {
      var n := |who| - 1;
      FieldTotalExtend(curve, who[..n], ps, x);
      assert (ps + [x])[..|ps|] == ps;
      GainAntisymmetric(curve, who[n], x);
    }
  }

  /** Conservation: the field wins as much as it loses. */
  lemma {:induction false} FieldIsZeroSum(curve: int -> real, ps: seq<Participant>)
    requires IsCurve(curve)
    ensures FieldTotal(curve, ps, ps) == 0.0
  {
    if ps != [] {
      var n := |ps| - 1;
      var x, rest := ps[n], ps[..n];
      FieldIsZeroSum(curve, rest);
      assert ps == rest + [x];
      FieldTotalExtend(curve, rest, rest, x);
      GainAntisymmetric(curve, x, x);
    }
  }

  // ---------------------------------------------------------------- rounding half to even

  function RoundHalfEven(x: real): int {
    var f := x.Floor;
    var rest := x - f as real;
    if rest < 0.5 then f
    else if rest > 0.5 then f + 1
    else if f % 2 == 0 then f
    else f + 1
  }

  /** Python's round: the nearest integer, and of two equally near ones the even one. */
  lemma RoundIsTheOne(x: real, n: int)
    ensures RoundHalfEven(x) == n
       <==> && -0.5 <= n as real - x <= 0.5
            && (n as real - x == 0.5 || n as real - x == -0.5 ==> n % 2 == 0)
  {
    var f := x.Floor;
    if -0.5 <= n as real - x <= 0.5 {
      assert n == f || n == f + 1;
    }
  }

  lemma RoundIsNear(x: real)
    ensures -0.5 <= RoundHalfEven(x) as real - x <= 0.5
  {
  }

  lemma RoundMonotone(x: real, y: real)
    requires x <= y
    ensures RoundHalfEven(x) <= RoundHalfEven(y)
  {
    RoundIsNear(x);
    RoundIsNear(y);
    assert x.Floor <= y.Floor;
  }

  // ---------------------------------------------------------------- the change of one contestant

  /** The unrounded rating change of p in the field ps. */
  ghost function Change(curve: int -> real, p: Participant, ps: seq<Participant>): real
    requires IsCurve(curve) && |ps| >= 2
  {
    K_FACTOR as real * Total(curve, p, ps) / (|ps| - 1) as real
  }

  ghost function Delta(curve: int -> real, p: Participant, ps: seq<Participant>): int
    requires IsCurve(curve) && |ps| >= 2
  {
    RoundHalfEven(Change(curve, p, ps))
  }

  lemma DivideMonotone(a: real, b: real, m: real)
    requires m > 0.0 && a <= b
    ensures a / m <= b / m
  {
    var x, y := a / m, b / m;
    assert x * m == a && y * m == b;
  }

  /** Elo respects the result: whoever finishes above an opponent rated no lower is paid at least as much. */
  lemma DeltaRespectsResult(curve: int -> real, p: Participant, q: Participant, ps: seq<Participant>)
    requires IsCurve(curve) && |ps| >= 2
    requires RanksAbove(p.place, q.place) && p.rating <= q.rating
    ensures Delta(curve, p, ps) >= Delta(curve, q, ps)
  {
    TotalMonotone(curve, p, q, ps);
    DivideMonotone(K_FACTOR as real * Total(curve, q, ps), K_FACTOR as real * Total(curve, p, ps), (|ps| - 1) as real);
    RoundMonotone(Change(curve, q, ps), Change(curve, p, ps));
  }

  lemma TotalStep(curve: int -> real, p: Participant, ps: seq<Participant>, j: nat)
    requires IsCurve(curve) && j < |ps|
    ensures curve(ps[j].rating - p.rating) > 0.0
    ensures Total(curve, p, ps[..j + 1]) == Total(curve, p, ps[..j]) + Gain(curve, p, ps[j])
    ensures p == ps[j] ==> Gain(curve, p, ps[j]) == 0.0
  {
    assert ps[..j + 1][..j] == ps[..j];
    GainAntisymmetric(curve, p, ps[j]);
  }

  /** The own entry adds nothing to the sum, so leaving it out or in is the same. */
  lemma TotalSkipsSelf(curve: int -> real, ps: seq<Participant>, i: nat)
    requires IsCurve(curve) && i < |ps|
    ensures Total(curve, ps[i], ps) == Total(curve, ps[i], ps[..i] + ps[i + 1..])
  {
    hide IsCurve, Total, Gain;
    var p := ps[i];
    assert ps == ps[..i + 1] + ps[i + 1..];
    TotalAppend(curve, p, ps[..i + 1], ps[i + 1..]);
    TotalStep(curve, p, ps, i);
    TotalAppend(curve, p, ps[..i], ps[i + 1..]);
  }

  lemma ScaleBound(t: real, m: real, k: real)
    requires m > 0.0 && k >= 0.0 && -m <= t <= m
    ensures -k <= k * t / m <= k
  {
    var x := k * t / m;
    assert x * m == k * t;
    assert -k * m <= k * t <= k * m;
    DivideMonotone(k * t, k * m, m);
    DivideMonotone(-k * m, k * t, m);
    CancelReal(k * m / m, k, m);
    CancelReal(-k * m / m, -k, m);
  }

  /** No contest moves a rating by more than K, whatever the field size. */
  lemma DeltaBound(curve: int -> real, ps: seq<Participant>, i: nat)
    requires IsCurve(curve) && |ps| >= 2 && i < |ps|
    ensures -K_FACTOR <= Delta(curve, ps[i], ps) <= K_FACTOR
  {
    TotalSkipsSelf(curve, ps, i);
    TotalBounds(curve, ps[i], ps[..i] + ps[i + 1..]);
    ScaleBound(Total(curve, ps[i], ps), (|ps| - 1) as real, K_FACTOR as real);
    RoundMonotone(Change(curve, ps[i], ps), K_FACTOR as real);
    RoundMonotone(-K_FACTOR as real, Change(curve, ps[i], ps));
  }

  ghost function SumChanges(curve: int -> real, who: seq<Participant>, ps: seq<Participant>): real
    requires IsCurve(curve) && |ps| >= 2
  {
    if who == [] then 0.0 else SumChanges(curve, who[..|who| - 1], ps) + Change(curve, who[|who| - 1], ps)
  }

  ghost function SumDeltas(curve: int -> real, who: seq<Participant>, ps: seq<Participant>): int
    requires IsCurve(curve) && |ps| >= 2
  {
    if who == [] then 0 else SumDeltas(curve, who[..|who| - 1], ps) + Delta(curve, who[|who| - 1], ps)
  }

  lemma {:induction false} SumChangesScales(curve: int -> real, who: seq<Participant>, ps: seq<Participant>)
    requires IsCurve(curve) && |ps| >= 2
    ensures SumChanges(curve, who, ps) * (|ps| - 1) as real == K_FACTOR as real * FieldTotal(curve, who, ps)
  {
    if who != [] {
      hide IsCurve, Total, Gain;
      var n := |who| - 1;
      SumChangesScales(curve, who[..n], ps);
      AddScaled(SumChanges(curve, who[..n], ps), FieldTotal(curve, who[..n], ps),
                Total(curve, who[n], ps), (|ps| - 1) as real, K_FACTOR as real);
    }
  }

  lemma AddScaled(sum: real, total: real, t: real, m: real, k: real)
    requires m > 0.0 && sum * m == k * total
    ensures (sum + k * t / m) * m == k * (total + t)
  {
    var x := k * t / m;
    assert x * m == k * t;
    assert (sum + x) * m == sum * m + x * m;
    assert k * (total + t) == k * total + k * t;
  }

  /** The unrounded changes of a field cancel out. */
  lemma ChangesCancel(curve: int -> real, ps: seq<Participant>)
    requires IsCurve(curve) && |ps| >= 2
    ensures SumChanges(curve, ps, ps) == 0.0
  {
    FieldIsZeroSum(curve, ps);
    SumChangesScales(curve, ps, ps);
    CancelReal(SumChanges(curve, ps, ps), 0.0, (|ps| - 1) as real);
  }

  lemma {:induction false} RoundingDrift(curve: int -> real, who: seq<Participant>, ps: seq<Participant>)
    requires IsCurve(curve) && |ps| >= 2
    ensures -(|who| as real) <= 2.0 * (SumDeltas(curve, who, ps) as real - SumChanges(curve, who, ps)) <= |who| as real
  {
    if who != [] {
      RoundingDrift(curve, who[..|who| - 1], ps);
      RoundIsNear(Change(curve, who[|who| - 1], ps));
    }
  }

  /** Rounding is the only leak: a contest adds or removes at most half a point per rated entry. */
  lemma RatingDriftIsBounded(curve: int -> real, ps: seq<Participant>)
    requires IsCurve(curve) && |ps| >= 2
    ensures -|ps| <= 2 * SumDeltas(curve, ps, ps) <= |ps|
  {
    ChangesCancel(curve, ps);
    RoundingDrift(curve, ps, ps);
  }

  // ---------------------------------------------------------------- the dict that is returned

  /** {user_id: delta}, later entries winning, as the dict assignment in the loop does. */
  ghost function Deltas(curve: int -> real, who: seq<Participant>, ps: seq<Participant>): map<int, int>
    requires IsCurve(curve) && |ps| >= 2
  {
    if who == [] then map[]
    else Deltas(curve, who[..|who| - 1], ps)[who[|who| - 1].userId := Delta(curve, who[|who| - 1], ps)]
  }

  ghost function EloDeltas(curve: int -> real, ps: seq<Participant>): map<int, int>
    requires IsCurve(curve)
  {
    if |ps| < 2 then map[] else Deltas(curve, ps, ps)
  }

  ghost predicate DistinctUsers(ps: seq<Participant>) {
    forall i, j :: 0 <= i < j < |ps| ==> ps[i].userId != ps[j].userId
  }

  lemma {:induction false} DeltasAt(curve: int -> real, who: seq<Participant>, ps: seq<Participant>)
    requires IsCurve(curve) && |ps| >= 2 && DistinctUsers(who)
    ensures forall u :: u in Deltas(curve, who, ps) <==> exists i :: 0 <= i < |who| && who[i].userId == u
    ensures forall i :: 0 <= i < |who| ==>
      who[i].userId in Deltas(curve, who, ps) && Deltas(curve, who, ps)[who[i].userId] == Delta(curve, who[i], ps)
  {
    if who != [] {
      DeltasAt(curve, who[..|who| - 1], ps);
    }
  }

  lemma DeltaPermutes(curve: int -> real, p: Participant, a: seq<Participant>, b: seq<Participant>)
    requires IsCurve(curve) && multiset(a) == multiset(b) && |a| >= 2
    ensures |b| == |a| && Delta(curve, p, a) == Delta(curve, p, b)
  {
    assert |a| == |multiset(a)| == |multiset(b)| == |b|;
    TotalPermutes(curve, p, a, b);
  }

  lemma DeltasCarryOver(curve: int -> real, a: seq<Participant>, b: seq<Participant>, u: int)
    requires IsCurve(curve) && multiset(a) == multiset(b) && DistinctUsers(a) && DistinctUsers(b)
    requires |a| >= 2 && |b| >= 2 && u in EloDeltas(curve, a)
    ensures u in EloDeltas(curve, b) && EloDeltas(curve, a)[u] == EloDeltas(curve, b)[u]
  {
    DeltasAt(curve, a, a);
    DeltasAt(curve, b, b);
    hide Deltas, Delta;
    var i :| 0 <= i < |a| && a[i].userId == u;
    assert a[i] in multiset(b);
    var j :| 0 <= j < |b| && b[j] == a[i];
    DeltaPermutes(curve, a[i], a, b);
  }

  /** The answer depends on who took part and how they did, not on the order of the list. */
  lemma DeltasPermute(curve: int -> real, a: seq<Participant>, b: seq<Participant>)
    requires IsCurve(curve) && multiset(a) == multiset(b) && DistinctUsers(a) && DistinctUsers(b)
    ensures EloDeltas(curve, a) == EloDeltas(curve, b)
  {
    assert |a| == |multiset(a)| == |multiset(b)| == |b|;
    if |a| >= 2 {
      hide Deltas;
      forall u | u in EloDeltas(curve, a)
        ensures u in EloDeltas(curve, b) && EloDeltas(curve, a)[u] == EloDeltas(curve, b)[u]
      {
        DeltasCarryOver(curve, a, b, u);
      }
      forall u | u in EloDeltas(curve, b)
        ensures u in EloDeltas(curve, a)
      {
        DeltasCarryOver(curve, b, a, u);
      }
    }
  }

  // ---------------------------------------------------------------- what it comes to in plain fields

  /** The positions in the list at which something holds. */
  function Where(f: PlaceKey -> bool, ps: seq<Participant>): set<int> {
    set j | 0 <= j < |ps| && f(ps[j].place)
  }

  function Below(k: PlaceKey): PlaceKey -> bool { x => RanksAbove(k, x) }

  function Above(k: PlaceKey): PlaceKey -> bool { x => RanksAbove(x, k) }

  function Same(k: PlaceKey): PlaceKey -> bool { x => x == k }

  lemma OneMorePosition(f: PlaceKey -> bool, ps: seq<Participant>, x: Participant)
    ensures |Where(f, ps + [x])| == |Where(f, ps)| + if f(x.place) then 1 else 0
  {
    var n := |ps|;
    assert (ps + [x])[n] == x;
    forall j ensures j in Where(f, ps + [x]) <==> j in Where(f, ps) || (j == n && f(x.place)) {
      if 0 <= j < n {
        assert (ps + [x])[j] == ps[j];
      }
    }
    assert Where(f, ps + [x]) == Where(f, ps) + if f(x.place) then {n} else {};
  }

  /** Whom p finished above, who finished above p, and who is level with p. */
  function Beaten(p: Participant, ps: seq<Participant>): set<int> {
    Where(Below(p.place), ps)
  }

  function BeatenBy(p: Participant, ps: seq<Participant>): set<int> {
    Where(Above(p.place), ps)
  }

  function Level(p: Participant, ps: seq<Participant>): set<int> {
    Where(Same(p.place), ps)
  }

  lemma OneMoreFinisher(p: Participant, ps: seq<Participant>, x: Participant)
    ensures |Beaten(p, ps + [x])| == |Beaten(p, ps)| + if RanksAbove(p.place, x.place) then 1 else 0
    ensures |BeatenBy(p, ps + [x])| == |BeatenBy(p, ps)| + if RanksAbove(x.place, p.place) then 1 else 0
    ensures |Level(p, ps + [x])| == |Level(p, ps)| + if x.place == p.place then 1 else 0
  {
    hide RanksAbove, Where;
    OneMorePosition(Below(p.place), ps, x);
    OneMorePosition(Above(p.place), ps, x);
    OneMorePosition(Same(p.place), ps, x);
  }

  lemma {:induction false} EverybodyCounts(p: Participant, ps: seq<Participant>)
    ensures |Beaten(p, ps)| + |BeatenBy(p, ps)| + |Level(p, ps)| == |ps|
  {
    if ps == [] {
      assert Beaten(p, ps) == {} && BeatenBy(p, ps) == {} && Level(p, ps) == {};
    } else {
      var n := |ps| - 1;
      EverybodyCounts(p, ps[..n]);
      OneMoreFinisher(p, ps[..n], ps[n]);
      RanksAboveIsTotal(p.place, ps[n].place, p.place);
      assert ps == ps[..n] + [ps[n]];
    }
  }

  lemma EvenDuel(curve: int -> real, p: Participant, opp: Participant)
    requires IsCurve(curve) && p.rating == opp.rating
    ensures curve(opp.rating - p.rating) > 0.0
    ensures Gain(curve, p, opp) == if RanksAbove(p.place, opp.place) then 0.5
      else if RanksAbove(opp.place, p.place) then -0.5 else 0.0
  {
    var g := curve(0);
    assert g > 0.0 && g * curve(-0) == 1.0;
    assert (g - 1.0) * (g + 1.0) == 0.0;
    RanksAboveIsTotal(p.place, opp.place, opp.place);
  }

  /** Among equals the sum is half the wins less half the losses. */
  lemma {:induction false} EvenTotal(curve: int -> real, p: Participant, ps: seq<Participant>)
    requires IsCurve(curve) && forall j :: 0 <= j < |ps| ==> ps[j].rating == p.rating
    ensures Total(curve, p, ps) == 0.5 * (|Beaten(p, ps)| - |BeatenBy(p, ps)|) as real
  {
    hide IsCurve, Gain, RanksAbove;
    if ps == [] {
      assert Beaten(p, ps) == {} && BeatenBy(p, ps) == {};
    } else {
      hide Beaten, BeatenBy;
      var n := |ps| - 1;
      EvenTotal(curve, p, ps[..n]);
      EvenDuel(curve, p, ps[n]);
      RanksAboveIsTotal(p.place, ps[n].place, p.place);
      OneMoreFinisher(p, ps[..n], ps[n]);
      assert ps == ps[..n] + [ps[n]];
    }
  }

  /** In a field of equals, each is paid 16 times the wins less the losses, per opponent, rounded. */
  lemma EvenField(curve: int -> real, ps: seq<Participant>, i: nat)
    requires IsCurve(curve) && |ps| >= 2 && DistinctUsers(ps) && i < |ps|
    requires forall j :: 0 <= j < |ps| ==> ps[j].rating == ps[i].rating
    ensures var deltas := EloDeltas(curve, ps);
      && ps[i].userId in deltas
      && deltas[ps[i].userId]
         == RoundHalfEven(16.0 * (|Beaten(ps[i], ps)| - |BeatenBy(ps[i], ps)|) as real / (|ps| - 1) as real)
  {
    DeltasAt(curve, ps, ps);
    EvenTotal(curve, ps[i], ps);
    hide Deltas, Total, IsCurve, Beaten, BeatenBy, RoundHalfEven;
  }

  /** Among equals a sole winner is paid exactly 16, and a sole last place pays exactly 16. */
  lemma SoleWinnerAndLast(curve: int -> real, ps: seq<Participant>, i: nat)
    requires IsCurve(curve) && |ps| >= 2 && DistinctUsers(ps) && i < |ps|
    requires forall j :: 0 <= j < |ps| ==> ps[j].rating == ps[i].rating
    ensures ps[i].userId in EloDeltas(curve, ps)
    ensures (forall j :: 0 <= j < |ps| && j != i ==> RanksAbove(ps[i].place, ps[j].place))
      ==> EloDeltas(curve, ps)[ps[i].userId] == 16
    ensures (forall j :: 0 <= j < |ps| && j != i ==> RanksAbove(ps[j].place, ps[i].place))
      ==> EloDeltas(curve, ps)[ps[i].userId] == -16
  {
    var p := ps[i];
    EvenField(curve, ps, i);
    EverybodyCounts(p, ps);
    forall j | 0 <= j < |ps|
      ensures !(RanksAbove(p.place, ps[j].place) && RanksAbove(ps[j].place, p.place))
      ensures ps[j].place == p.place ==> !RanksAbove(p.place, ps[j].place) && !RanksAbove(ps[j].place, p.place)
    {
      RanksAboveIsTotal(p.place, ps[j].place, p.place);
    }
    hide EloDeltas, IsCurve, RanksAbove;
    if forall j :: 0 <= j < |ps| && j != i ==> RanksAbove(p.place, ps[j].place) {
      assert BeatenBy(p, ps) == {} && Level(p, ps) == {i};
      SixteenEach((|ps| - 1) as real);
    }
    if forall j :: 0 <= j < |ps| && j != i ==> RanksAbove(ps[j].place, p.place) {
      assert Beaten(p, ps) == {} && Level(p, ps) == {i};
      SixteenEach((|ps| - 1) as real);
    }
  }

  lemma SixteenEach(m: real)
    requires m > 0.0
    ensures 16.0 * m / m == 16.0 && 16.0 * -m / m == -16.0
  {
  }

  /** Two contestants: what the curve says of their ratings and who finished above whom is all there is to it. */
  lemma TwoContestants(curve: int -> real, p: Participant, q: Participant)
    requires IsCurve(curve) && p.userId != q.userId
    ensures curve(q.rating - p.rating) > 0.0
    ensures var due := 1.0 / (1.0 + curve(q.rating - p.rating));
      var deltas := EloDeltas(curve, [p, q]);
      && deltas.Keys == {p.userId, q.userId}
      && (RanksAbove(p.place, q.place) ==> deltas[p.userId] == RoundHalfEven(32.0 * (1.0 - due)))
      && (RanksAbove(q.place, p.place) ==> deltas[p.userId] == RoundHalfEven(32.0 * (0.0 - due)))
      && (p.place == q.place ==> deltas[p.userId] == RoundHalfEven(32.0 * (0.5 - due)))
  {
    var ps := [p, q];
    DuelOnly(curve, p, q);
    DeltasAt(curve, ps, ps);
    RanksAboveIsTotal(p.place, q.place, p.place);
    assert ps[0].userId == p.userId && ps[1].userId == q.userId;
    hide RoundHalfEven, Deltas, Total, RanksAbove;
    assert forall u :: u in EloDeltas(curve, ps) <==> u == p.userId || u == q.userId;
  }

  lemma DuelOnly(curve: int -> real, p: Participant, q: Participant)
    requires IsCurve(curve)
    ensures curve(q.rating - p.rating) > 0.0
    ensures Change(curve, p, [p, q]) == 32.0 * Gain(curve, p, q)
  {
    TotalSkipsSelf(curve, [p, q], 0);
    assert [p, q][..0] + [p, q][1..] == [q] && [q][..0] == [];
    assert Total(curve, p, [q]) == Gain(curve, p, q);
    hide Total, Gain;
  }

  /** An upset at 800 points, where the curve stands at a hundred, pays the whole of K. */
  lemma UpsetPaysItAll(curve: int -> real, p: Participant, q: Participant)
    requires IsCurve(curve) && curve(800) == 100.0 && p.userId != q.userId
    requires p.rating == 1200 && q.rating == 2000 && RanksAbove(p.place, q.place)
    ensures EloDeltas(curve, [p, q]) == map[p.userId := 32, q.userId := -32]
  {
    TwoContestants(curve, p, q);
    TwoContestants(curve, q, p);
    assert p.rating - q.rating == -800 && curve(800) * curve(-800) == 1.0;
    assert curve(-800) == 0.01;
    RoundIsTheOne(32.0 * (1.0 - 1.0 / 101.0), 32);
    RoundIsTheOne(32.0 * (0.0 - 1.0 / 1.01), -32);
    assert multiset([p, q]) == multiset([q, p]);
    DeltasPermute(curve, [p, q], [q, p]);
    hide EloDeltas, RoundHalfEven, IsCurve, RanksAbove;
    var deltas := EloDeltas(curve, [p, q]);
    assert deltas[p.userId] == 32 && deltas[q.userId] == -32;
    assert deltas.Keys == {p.userId, q.userId};
  }

  // ---------------------------------------------------------------- compute_elo_deltas

  lemma NoOpponents(curve: int -> real, p: Participant)
    requires IsCurve(curve)
    ensures Total(curve, p, []) == 0.0
  {
  }

  lemma DeltasStep(curve: int -> real, ps: seq<Participant>, i: nat, total: real)
    requires IsCurve(curve) && |ps| >= 2 && i < |ps| && total == Total(curve, ps[i], ps)
    ensures Deltas(curve, ps[..i + 1], ps)
         == Deltas(curve, ps[..i], ps)[ps[i].userId := RoundHalfEven(K_FACTOR as real * total / (|ps| - 1) as real)]
  {
    hide IsCurve, Total, RoundHalfEven;
    assert ps[..i + 1][..i] == ps[..i];
  }

  /** The inner loop: the points contestant i expected and took over all the others. */
  method PlayAll(curve: int -> real, participants: seq<Participant>, i: nat) returns (expected: real, actual: real)
    requires IsCurve(curve) && i < |participants|
    ensures actual - expected == Total(curve, participants[i], participants)
  {
    var p := participants[i];
    expected, actual := 0.0, 0.0;
    hide Total, IsCurve, RanksAbove;
    NoOpponents(curve, p);
    assert participants[..0] == [];
    for j := 0 to |participants|
      invariant actual - expected == Total(curve, p, participants[..j])
    {
      var opp := participants[j];
      TotalStep(curve, p, participants, j);
      if i != j {
        expected := expected + 1.0 / (1.0 + curve(opp.rating - p.rating));
        if p.place == opp.place {
          actual := actual + 0.5;
        } else if RanksAbove(p.place, opp.place) {
          actual := actual + 1.0;
        }
      }
    }
    assert participants[..|participants|] == participants;
  }

  method ComputeEloDeltas(curve: int -> real, participants: seq<Participant>) returns (deltas: map<int, int>)
    requires IsCurve(curve)
    ensures deltas == EloDeltas(curve, participants)
  {
    var n := |participants|;
    deltas := map[];
    if n < 2 {
      return;
    }
    assert Deltas(curve, participants[..0], participants) == map[];
    hide Deltas, RoundHalfEven, Total, IsCurve;
    for i := 0 to n
      invariant deltas == Deltas(curve, participants[..i], participants)
    {
      var expected, actual := PlayAll(curve, participants, i);
      DeltasStep(curve, participants, i, actual - expected);
      var delta := RoundHalfEven(K_FACTOR as real * (actual - expected) / (n - 1) as real);
      deltas := deltas[participants[i].userId := delta];
    }
    assert participants[..n] == participants;
  }
}
