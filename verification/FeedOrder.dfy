/**
 The order of the rows on screen. Pages are put below and rings on top, so the mount-time rows stand in
 the order of the mount-time feed as long as answers with the newest page land in the turn in which
 they were taken; a ring's answer that is overtaken puts old rows above newer ones.
 */
module FeedOrder {
  import opened Bounds
  import opened NotificationFeed

  // ---------------------------------------------------------------- lists in the order of a feed

  function Shown(items: seq<Item>): seq<int> {
    seq(|items|, i requires 0 <= i < |items| => items[i].id)
  }

  /** Two ids that are both in the feed never stand the wrong way round. */
  ghost predicate InOrderOf(base: seq<int>, ids: seq<int>) {
    forall a, b, i, j ::
      0 <= a < b < |ids| && 0 <= i < |base| && 0 <= j < |base| && ids[a] == base[i] && ids[b] == base[j] ==> i < j
  }

  lemma ShownAreIds(items: seq<Item>)
    ensures forall id :: id in Shown(items) <==> id in ItemIds(items)
  {
    forall id ensures id in Shown(items) <==> id in ItemIds(items) {
      if id in Shown(items) {
        var i :| 0 <= i < |items| && Shown(items)[i] == id;
        assert items[i] in items;
      }
      if id in ItemIds(items) {
        var n :| n in items && n.id == id;
        var i :| 0 <= i < |items| && items[i] == n;
        assert Shown(items)[i] == id;
      }
    }
  }

  lemma JoinInOrder(base: seq<int>, a: seq<int>, b: seq<int>, held: nat)
    requires InOrderOf(base, a) && InOrderOf(base, b)
    requires forall i :: 0 <= i < |base| && base[i] in a ==> i < held
    requires forall i :: 0 <= i < |base| && base[i] in b ==> held <= i
    ensures InOrderOf(base, a + b)
  {
    forall x, y, i, j |
      && 0 <= x < y < |a + b| && 0 <= i < |base| && 0 <= j < |base|
      && (a + b)[x] == base[i] && (a + b)[y] == base[j]
      ensures i < j
    {
      if y < |a| {
        assert a[x] == base[i] && a[y] == base[j];
      } else if |a| <= x {
        assert b[x - |a|] == base[i] && b[y - |a|] == base[j];
      } else {
        assert a[x] in a && b[y - |a|] in b;
      }
    }
  }

  /** Where an added row stood on its page. */
  lemma {:induction false} AddedFrom(known: set<int>, rows: seq<Row>, a: nat, b: nat) returns (i: nat, j: nat)
    requires a < b < |Added(known, rows)|
    ensures i < j < |rows| && rows[i].id !in known && rows[j].id !in known
    ensures Added(known, rows)[a].id == rows[i].id && Added(known, rows)[b].id == rows[j].id
  {
    if rows[0].id in known {
      i, j := AddedFrom(known, rows[1..], a, b);
      i, j := i + 1, j + 1;
    } else if a == 0 {
      j := AddedFromOne(known, rows[1..], b - 1);
      i, j := 0, j + 1;
    } else {
      i, j := AddedFrom(known, rows[1..], a - 1, b - 1);
      i, j := i + 1, j + 1;
    }
  }

  lemma {:induction false} AddedFromOne(known: set<int>, rows: seq<Row>, b: nat) returns (j: nat)
    requires b < |Added(known, rows)|
    ensures j < |rows| && rows[j].id !in known && Added(known, rows)[b].id == rows[j].id
  {
    if rows[0].id in known {
      j := AddedFromOne(known, rows[1..], b);
      j := j + 1;
    } else if b == 0 {
      j := 0;
    } else {
      j := AddedFromOne(known, rows[1..], b - 1);
      j := j + 1;
    }
  }

  lemma AddedInOrderOf(base: seq<int>, known: set<int>, rows: seq<Row>)
    requires InOrderOf(base, FeedIds(rows))
    ensures InOrderOf(base, Shown(Added(known, rows)))
  {
    var ids := Shown(Added(known, rows));
    forall a, b, i, j |
      && 0 <= a < b < |ids| && 0 <= i < |base| && 0 <= j < |base| && ids[a] == base[i] && ids[b] == base[j]
      ensures i < j
    {
      var x, y := AddedFrom(known, rows, a, b);
      assert FeedIds(rows)[x] == base[i] && FeedIds(rows)[y] == base[j];
    }
  }

  lemma AddedIdsAre(known: set<int>, rows: seq<Row>, id: int)
    requires Distinct(rows)
    ensures id in Shown(Added(known, rows)) <==> id in Ids(rows) && id !in known
  {
    AddedIds(known, rows);
    ShownAreIds(Added(known, rows));
  }

  lemma ShownConcat(a: seq<Item>, b: seq<Item>)
    ensures Shown(a + b) == Shown(a) + Shown(b)
  {
  }

  // ---------------------------------------------------------------- what landing does to the order

  /** How many of `base` mount-time rows the newest page has when the feed is that long. */
  function TopOf(size: nat, base: nat, length: nat): int { Max(0, Min(size, length) - (length - base)) }

  function OnTop(s: State): int { TopOf(s.size, |s.base|, |s.feed|) }

  lemma TopFalls(size: nat, base: nat, earlier: nat, later: nat)
    requires base <= earlier <= later
    ensures TopOf(size, base, later) <= TopOf(size, base, earlier)
  {
  }

  ghost predicate ScreenInOrder(s: State) {
    InOrderOf(s.base, Shown(s.client.items))
  }

  /** Rows of a page stand as in the feed; the newest page as taken reaches as far as the feed's length then says. */
  ghost predicate PageAt(s: State, r: nat) {
    Live(s, r) && s.requests[r].status.Answered? ==>
      var q := s.requests[r];
      && InOrderOf(s.base, FeedIds(q.status.rows))
      && (!q.kind.More? ==>
            && |s.base| <= q.status.at <= |s.feed|
            && q.status.reach == TopOf(s.size, |s.base|, q.status.at))
  }

  ghost predicate PagesInOrder(s: State) {
    forall r: nat :: PageAt(s, r)
  }

  lemma SliceInOrder(s: State, lo: nat, hi: nat)
    requires FeedOk(s) && lo <= hi <= |s.feed|
    ensures InOrderOf(s.base, FeedIds(s.feed[lo..hi]))
  {
    var ids := FeedIds(s.feed[lo..hi]);
    forall a, b, i, j |
      && 0 <= a < b < |ids| && 0 <= i < |s.base| && 0 <= j < |s.base| && ids[a] == s.base[i] && ids[b] == s.base[j]
      ensures i < j
    {
      assert s.base[i] == FeedIds(s.feed)[Newer(s)..][i] == s.feed[i + Newer(s)].id;
      assert s.base[j] == FeedIds(s.feed)[Newer(s)..][j] == s.feed[j + Newer(s)].id;
      assert s.feed[lo + a].id == s.feed[i + Newer(s)].id && s.feed[lo + b].id == s.feed[j + Newer(s)].id;
      assert lo + a == i + Newer(s) && lo + b == j + Newer(s);
    }
  }

  /** A page put below keeps the order. */
  lemma BelowKeepsOrder(s: State, r: nat)
    requires Ok(s) && PageAt(s, r) && ScreenInOrder(s) && Live(s, r)
    requires s.requests[r].status.Answered? && !s.requests[r].kind.Ring?
    ensures InOrderOf(s.base, Shown(LandRows(s, r).client.items))
  {
    var list, rows := s.client.items, s.requests[r].status.rows;
    var added := Added(ItemIds(list), rows);
    assert RequestOk(s, r);
    AddedInOrderOf(s.base, ItemIds(list), rows);
    ShownAreIds(list);
    forall i | 0 <= i < |s.base| && s.base[i] in Shown(added) ensures s.held <= i {
      AddedIdsAre(ItemIds(list), rows, s.base[i]);
    }
    JoinInOrder(s.base, Shown(list), Shown(added), s.held);
    ShownConcat(list, added);
  }

  /** The exact condition: a ring's page put on top keeps the order if and only if nothing of the mount-time feed
      is on screen yet, or the page brings nothing of it that is missing. */
  lemma RingKeepsOrderIff(s: State, r: nat)
    requires Ok(s) && PageAt(s, r) && ScreenInOrder(s) && Live(s, r)
    requires s.requests[r].status.Answered? && s.requests[r].kind.Ring?
    ensures InOrderOf(s.base, Shown(LandRows(s, r).client.items))
       <==> s.held == 0 || s.requests[r].status.reach <= s.held
  {
    var list, rows, reach := s.client.items, s.requests[r].status.rows, s.requests[r].status.reach;
    var added := Added(ItemIds(list), rows);
    assert RequestOk(s, r);
    AddedInOrderOf(s.base, ItemIds(list), rows);
    ShownAreIds(list);
    ShownConcat(added, list);
    forall i | 0 <= i < |s.base| ensures s.base[i] in Shown(added) <==> s.held <= i < reach {
      AddedIdsAre(ItemIds(list), rows, s.base[i]);
    }
    if s.held == 0 {
      JoinInOrder(s.base, Shown(added), Shown(list), |s.base|);
    } else if reach <= s.held {
      JoinInOrder(s.base, Shown(added), Shown(list), 0);
    } else {
      OldOverNew(s.base, Shown(added), Shown(list), s.held);
    }
  }

  lemma OldOverNew(base: seq<int>, a: seq<int>, b: seq<int>, held: nat)
    requires 0 < held < |base| && base[held] in a && base[0] in b
    ensures !InOrderOf(base, a + b)
  {
    var x :| 0 <= x < |a| && a[x] == base[held];
    var y :| 0 <= y < |b| && b[y] == base[0];
    assert (a + b)[x] == base[held] && (a + b)[|a| + y] == base[0];
  }

  // ---------------------------------------------------------------- answers that land in their turn

  /** Landing in turn: no answer with the newest page is on its way that was taken before the one that lands. */
  ghost predicate InTurn(s: State, e: Event) {
    e.Land? && Live(s, e.r) && s.requests[e.r].status.Answered? && !s.requests[e.r].kind.More? ==>
      forall x: nat :: Live(s, x) && s.requests[x].status.Answered? && !s.requests[x].kind.More? ==>
        s.requests[e.r].status.at <= s.requests[x].status.at
  }

  ghost predicate AllInTurn(s: State, es: seq<Event>)
    decreases |es|
  {
    es == [] || (InTurn(s, es[0]) && AllInTurn(Next(s, es[0]), es[1..]))
  }

  /** Once page 1 or a mount-time row has landed, no ring on its way brings a mount-time row that is missing. */
  ghost predicate RingAt(s: State, r: nat) {
    (s.landed || s.held > 0) && Live(s, r) && s.requests[r].status.Answered? && s.requests[r].kind.Ring? ==>
      s.requests[r].status.reach <= s.held
  }

  ghost predicate OrderOk(s: State) {
    && Ok(s) && ScreenInOrder(s) && PagesInOrder(s)
    && (s.landed || s.held > 0 ==> OnTop(s) <= s.held)
    && forall r: nat :: RingAt(s, r)
  }

  lemma QuietKeepsOrder(s: State, e: Event)
    requires OrderOk(s) && (e.Arrive? || e.See? || e.Reload? || e.RingBell? || e.LoadMore? || e.Fail?)
    ensures OrderOk(Next(s, e))
  {
    var t := Next(s, e);
    StepKeepsOk(s, e);
    TopFalls(s.size, |s.base|, |s.feed|, |s.feed| + 1);
    hide Ok, Ids, FeedIds, InOrderOf, TopOf;
    if e.Reload? {
      NothingShown(t.base);
      OldAnswersAreStale(s);
    }
    forall r: nat ensures PageAt(t, r) { assert PageAt(s, r); }
    forall r: nat ensures RingAt(t, r) { assert RingAt(s, r); }
  }

  lemma NothingShown(base: seq<int>)
    ensures InOrderOf(base, Shown([]))
  {
  }

  lemma OldAnswersAreStale(s: State)
    requires Ok(s)
    ensures forall r: nat :: Live(Next(s, Reload), r) ==> Next(s, Reload).requests[r].status.Sent?
  {
    hide RequestOk, OneOfAKind, FeedOk, ListOk;
    var t := Next(s, Reload);
    forall r: nat ensures Live(t, r) ==> t.requests[r].status.Sent? {
      assert r < |s.requests| ==> s.requests[r].gen <= s.client.gen;
    }
  }

  lemma AnswerKeepsOrder(s: State, r: nat)
    requires OrderOk(s) && r < |s.requests|
    ensures OrderOk(Next(s, Answer(r)))
  {
    var t, k := Next(s, Answer(r)), PageNumber(s.requests[r].kind);
    StepKeepsOk(s, Answer(r));
    if t != s {
      SliceInOrder(s, PageStart(s, k), PageEnd(s, k));
    }
    hide Ok, Ids, FeedIds, InOrderOf;
    forall x: nat ensures PageAt(t, x) { assert PageAt(s, x); }
    forall x: nat ensures RingAt(t, x) { assert RingAt(s, x); }
  }

  lemma LandKeepsOrder(s: State, r: nat)
    requires OrderOk(s) && InTurn(s, Land(r)) && r < |s.requests| && s.requests[r].status.Answered?
    ensures OrderOk(Next(s, Land(r)))
  {
    var t, q := Next(s, Land(r)), s.requests[r];
    StepKeepsOk(s, Land(r));
    assert PageAt(s, r) && RingAt(s, r) && RequestOk(s, r);
    if Live(s, r) {
      if q.kind.Ring? {
        RingKeepsOrderIff(s, r);
      } else {
        BelowKeepsOrder(s, r);
      }
      if !q.kind.More? {
        TopFalls(s.size, |s.base|, q.status.at, |s.feed|);
      }
    }
    hide Ok, Ids, FeedIds, InOrderOf, Merge, TopOf, FeedOk, ListOk, AnswerOk, OneOfAKind;
    forall x: nat ensures PageAt(t, x) { assert PageAt(s, x); }
    forall x: nat ensures RingAt(t, x) {
      assert RingAt(s, x) && PageAt(s, x);
      if Live(s, r) && Live(s, x) && s.requests[x].status.Answered? && s.requests[x].kind.Ring? && !q.kind.More? {
        TopFalls(s.size, |s.base|, q.status.at, s.requests[x].status.at);
      }
    }
  }

  lemma StepKeepsOrder(s: State, e: Event)
    requires OrderOk(s) && InTurn(s, e)
    ensures OrderOk(Next(s, e))
  {
    hide OrderOk, InTurn;
    match e
    case Answer(r) => if r < |s.requests| { AnswerKeepsOrder(s, r); }
    case Land(r) => if r < |s.requests| && s.requests[r].status.Answered? { LandKeepsOrder(s, r); }
    case _ => QuietKeepsOrder(s, e);
  }

  lemma {:induction false} RunKeepsOrder(s: State, es: seq<Event>)
    requires OrderOk(s) && AllInTurn(s, es)
    ensures OrderOk(Run(s, es))
    decreases |es|
  {
    if es != [] {
      StepKeepsOrder(s, es[0]);
      RunKeepsOrder(Next(s, es[0]), es[1..]);
    }
  }

  lemma MountedInOrder(size: nat, feed: seq<Row>)
    requires size > 0 && Distinct(feed)
    ensures OrderOk(Mounted(size, feed))
  {
    MountedIsOk(size, feed);
    var s := Mounted(size, feed);
    forall r: nat ensures PageAt(s, r) {}
    forall r: nat ensures RingAt(s, r) {}
  }

  /** For every schedule in which answers with the newest page land in their turn, the mount-time rows on screen
      stand in the order of the mount-time feed. */
  lemma RowsStandInOrder(size: nat, feed: seq<Row>, es: seq<Event>)
    requires size > 0 && Distinct(feed) && AllInTurn(Mounted(size, feed), es)
    ensures var s := Run(Mounted(size, feed), es); InOrderOf(s.base, Shown(s.client.items))
  {
    MountedInOrder(size, feed);
    RunKeepsOrder(Mounted(size, feed), es);
  }

  /** Out of turn they need not: with pages of two, a ring answered before the first load but landing after it puts
      the older of two mount-time rows on top. */
  lemma OvertakenRingTurnsRowsRound()
    ensures var es := [RingBell, Answer(1), Arrive(3), Answer(0), Land(0), Land(1)];
      var s := Run(Mounted(2, [Row(2, false), Row(1, false)]), es);
      && Shown(s.client.items) == [1, 3, 2] && s.base == [2, 1]
      && !InOrderOf(s.base, Shown(s.client.items))
  {
    var s0 := Mounted(2, [Row(2, false), Row(1, false)]);
    var s2 := RingAnsweredEarly(s0);
    var s4 := FirstAnsweredLater(s2);
    var s5 := FirstLands(s4);
    var s6 := RingLands(s5);
    var ids, base := Shown(s6.client.items), s6.base;
    assert ids == [1, 3, 2] && base == [2, 1];
    assert ids[0] == base[1] && ids[2] == base[0];
    hide Next, Mounted;
    SixSteps(s0, RingBell, Answer(1), Arrive(3), Answer(0), Land(0), Land(1));
  }

  lemma FirstLands(s: State) returns (t: State)
    requires |s.requests| == 2 && s.client.items == [] && s.client.gen == 1
    requires s.requests[0].kind == First && s.requests[0].gen == 1 && s.requests[0].status.Answered?
    requires s.requests[0].status.rows == [Row(3, false), Row(2, false)]
    ensures t == Next(s, Land(0)) && |t.requests| == 2 && t.requests[1] == s.requests[1] && t.base == s.base
    ensures t.client.items == [Item(3, true), Item(2, true)] && t.client.gen == 1
  {
    AddedTwo({}, Row(3, false), Row(2, false));
    assert ItemIds([]) == {};
    hide Added, ItemIds;
    t := Next(s, Land(0));
  }

  lemma RingLands(s: State) returns (t: State)
    requires |s.requests| == 2 && s.client.items == [Item(3, true), Item(2, true)] && s.client.gen == 1
    requires s.requests[1].kind == Ring && s.requests[1].gen == 1 && s.requests[1].status.Answered?
    requires s.requests[1].status.rows == [Row(2, false), Row(1, false)]
    ensures t == Next(s, Land(1)) && t.base == s.base
    ensures t.client.items == [Item(1, true), Item(3, true), Item(2, true)]
  {
    ShownAreIds(s.client.items);
    TwoItems(Item(3, true), Item(2, true));
    assert ItemIds(s.client.items) == {3, 2};
    AddedTwo({3, 2}, Row(2, false), Row(1, false));
    hide Added, ItemIds;
    t := Next(s, Land(1));
  }

  lemma RingAnsweredEarly(s: State) returns (t: State)
    requires s == Mounted(2, [Row(2, false), Row(1, false)])
    ensures t == Next(Next(s, RingBell), Answer(1))
    ensures t.requests == [Request(First, 1, Sent), Request(Ring, 1, t.requests[1].status)]
    ensures t.requests[1].status.Answered? && t.requests[1].status.rows == [Row(2, false), Row(1, false)]
    ensures t.feed == s.feed && t.client == s.client && t.base == [2, 1] && t.size == 2
  {
    t := Next(Next(s, RingBell), Answer(1));
  }

  lemma FirstAnsweredLater(s: State) returns (t: State)
    requires |s.requests| == 2 && s.requests[0] == Request(First, 1, Sent)
    requires s.feed == [Row(2, false), Row(1, false)] && s.base == [2, 1] && s.size == 2
    ensures t == Next(Next(s, Arrive(3)), Answer(0))
    ensures |t.requests| == 2 && t.requests[1] == s.requests[1] && t.client == s.client && t.base == s.base
    ensures t.requests[0].kind == First && t.requests[0].gen == 1
    ensures t.requests[0].status.Answered? && t.requests[0].status.rows == [Row(3, false), Row(2, false)]
  {
    var s3 := Next(s, Arrive(3));
    assert s3.feed == [Row(3, false), Row(2, false), Row(1, false)];
    t := Next(s3, Answer(0));
    assert s3.feed[0..2] == [Row(3, false), Row(2, false)];
  }

  lemma AddedTwo(known: set<int>, a: Row, b: Row)
    ensures Added(known, [a, b])
         == (if a.id in known then [] else [Item(a.id, !a.seen)])
            + (if b.id in known then [] else [Item(b.id, !b.seen)])
  {
    assert [a, b][1..] == [b] && [b][1..] == [];
    assert Added(known, [b]) == if b.id in known then [] else [Item(b.id, !b.seen)];
  }

  lemma TwoItems(a: Item, b: Item)
    ensures Shown([a, b]) == [a.id, b.id]
  {
  }

  lemma SixSteps(s: State, a: Event, b: Event, c: Event, d: Event, e: Event, f: Event)
    ensures Run(s, [a, b, c, d, e, f]) == Next(Next(Next(Next(Next(Next(s, a), b), c), d), e), f)
  {
    hide Next;
    var t := Next(Next(Next(s, a), b), c);
    assert [a, b, c, d, e, f] == [a, b, c] + [d, e, f] && [d, e, f] == [d, e, f] + [];
    ThreeSteps(s, a, b, c, [d, e, f]);
    ThreeSteps(t, d, e, f, []);
  }

  lemma ThreeSteps(s: State, a: Event, b: Event, c: Event, rest: seq<Event>)
    ensures Run(s, [a, b, c] + rest) == Run(Next(Next(Next(s, a), b), c), rest)
  {
    hide Next;
    var es := [a, b, c] + rest;
    assert es[1..] == [b, c] + rest && ([b, c] + rest)[1..] == [c] + rest && ([c] + rest)[1..] == rest;
    assert Run(s, es) == Run(Next(s, a), [b, c] + rest);
    assert Run(Next(s, a), [b, c] + rest) == Run(Next(Next(s, a), b), [c] + rest);
  }
}
