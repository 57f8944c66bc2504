/**
 The feed behind the bell. The panel loads page 1, appends further pages on scrolling, and puts the
 newest page on top at a ring, while the server's list keeps growing at the top and answers land in
 any order. The list on screen has no duplicates, loses nothing, and has no gaps.
 */
module NotificationFeed {
  import opened Bounds
  import opened Wrappers

  /** A notification on the server, newest first in the feed; and as the panel shows it. */
  datatype Row = Row(id: int, seen: bool)
  datatype Item = Item(id: int, isNew: bool)

  // ---------------------------------------------------------------- merge

  function Ids(rows: seq<Row>): set<int> { set r | r in rows :: r.id }

  function ItemIds(items: seq<Item>): set<int> { set n | n in items :: n.id }

  /** The rows not known yet, in order, marked as new when unseen (the `fresh` mark). */
  function Added(known: set<int>, rows: seq<Row>): seq<Item> {
    if rows == [] then []
    else (if rows[0].id in known then [] else [Item(rows[0].id, !rows[0].seen)]) + Added(known, rows[1..])
  }

  function Merge(list: seq<Item>, rows: seq<Row>, atTop: bool): seq<Item> {
    var added := Added(ItemIds(list), rows);
    if atTop then added + list else list + added
  }

  ghost predicate Distinct(rows: seq<Row>) {
    forall i, j :: 0 <= i < j < |rows| ==> rows[i].id != rows[j].id
  }

  ghost predicate DistinctItems(items: seq<Item>) {
    forall i, j :: 0 <= i < j < |items| ==> items[i].id != items[j].id
  }

  lemma {:induction false} AddedIds(known: set<int>, rows: seq<Row>)
    requires Distinct(rows)
    ensures ItemIds(Added(known, rows)) == Ids(rows) - known && DistinctItems(Added(known, rows))
    ensures forall n :: n in Added(known, rows) ==> exists r :: r in rows && n == Item(r.id, !r.seen)
  {
    if rows != [] {
      AddedIds(known, rows[1..]);
      var head, tail := rows[0], Added(known, rows[1..]);
      assert Ids(rows) == Ids(rows[1..]) + {head.id};
      assert head.id !in Ids(rows[1..]);
      assert head.id !in ItemIds(tail);
      assert ItemIds([Item(head.id, !head.seen)] + tail) == {head.id} + ItemIds(tail) by {
        assert forall n :: n in [Item(head.id, !head.seen)] + tail <==> n == Item(head.id, !head.seen) || n in tail;
      }
      forall j | 0 <= j < |tail| ensures tail[j].id != head.id {
        assert tail[j].id in ItemIds(tail);
      }
    }
  }

  /** Rows that are added keep their order, each with its own mark. */
  lemma {:induction false} AddedInOrder(known: set<int>, rows: seq<Row>, i: nat, j: nat)
    returns (a: nat, b: nat)
    requires i < j < |rows| && rows[i].id !in known && rows[j].id !in known
    ensures a < b < |Added(known, rows)|
    ensures Added(known, rows)[a] == Item(rows[i].id, !rows[i].seen)
    ensures Added(known, rows)[b] == Item(rows[j].id, !rows[j].seen)
  {
    var shift := if rows[0].id in known then 0 else 1;
    if i == 0 {
      b := AddedSomewhere(known, rows[1..], j - 1);
      a, b := 0, b + 1;
    } else {
      a, b := AddedInOrder(known, rows[1..], i - 1, j - 1);
      a, b := a + shift, b + shift;
    }
  }

  lemma {:induction false} AddedSomewhere(known: set<int>, rows: seq<Row>, j: nat) returns (b: nat)
    requires j < |rows| && rows[j].id !in known
    ensures b < |Added(known, rows)| && Added(known, rows)[b] == Item(rows[j].id, !rows[j].seen)
  {
    if j == 0 {
      b := 0;
    } else {
      b := AddedSomewhere(known, rows[1..], j - 1);
      b := b + if rows[0].id in known then 0 else 1;
    }
  }

  /** Somewhere in the list the first item comes before the second. */
  ghost predicate ComesBefore(items: seq<Item>, first: Item, second: Item) {
    exists a, b :: 0 <= a < b < |items| && items[a] == first && items[b] == second
  }

  lemma MergeKeepsPageOrder(list: seq<Item>, rows: seq<Row>, atTop: bool, i: nat, j: nat)
    requires i < j < |rows| && rows[i].id !in ItemIds(list) && rows[j].id !in ItemIds(list)
    ensures ComesBefore(Merge(list, rows, atTop), Item(rows[i].id, !rows[i].seen), Item(rows[j].id, !rows[j].seen))
  {
    var a, b := AddedInOrder(ItemIds(list), rows, i, j);
    var shift := if atTop then 0 else |list|;
    var merged := Merge(list, rows, atTop);
    assert merged[a + shift] == Item(rows[i].id, !rows[i].seen);
    assert merged[b + shift] == Item(rows[j].id, !rows[j].seen);
  }

  lemma MergeIds(list: seq<Item>, rows: seq<Row>, atTop: bool)
    requires Distinct(rows) && DistinctItems(list)
    ensures var merged := Merge(list, rows, atTop);
      && DistinctItems(merged) && ItemIds(merged) == ItemIds(list) + Ids(rows)
      && (if atTop then list == merged[|merged| - |list|..] else list == merged[..|list|])
  {
    var added := Added(ItemIds(list), rows);
    AddedIds(ItemIds(list), rows);
    forall i, j | 0 <= i < |added| && 0 <= j < |list| ensures added[i].id != list[j].id {
      assert added[i].id in ItemIds(added) && list[j].id in ItemIds(list);
    }
    ItemIdsConcat(list, added);
    ItemIdsConcat(added, list);
  }

  /** merge adds exactly the missing rows, in the order of the page and marked as new when unseen, keeps every row
      it had with its mark, and never shows an id twice. */
  lemma MergeAddsTheMissing(list: seq<Item>, rows: seq<Row>, atTop: bool)
    requires Distinct(rows) && DistinctItems(list)
    ensures var merged := Merge(list, rows, atTop);
      && DistinctItems(merged) && ItemIds(merged) == ItemIds(list) + Ids(rows)
      && (if atTop then list == merged[|merged| - |list|..] else list == merged[..|list|])
    ensures forall i, j :: 0 <= i < j < |rows| && rows[i].id !in ItemIds(list) && rows[j].id !in ItemIds(list) ==>
      ComesBefore(Merge(list, rows, atTop), Item(rows[i].id, !rows[i].seen), Item(rows[j].id, !rows[j].seen))
    ensures forall i :: 0 <= i < |rows| && rows[i].id !in ItemIds(list) ==>
      Item(rows[i].id, !rows[i].seen) in Merge(list, rows, atTop)
  {
    MergeIds(list, rows, atTop);
    forall i | 0 <= i < |rows| && rows[i].id !in ItemIds(list)
      ensures Item(rows[i].id, !rows[i].seen) in Merge(list, rows, atTop)
    {
      var b := AddedSomewhere(ItemIds(list), rows, i);
      assert Added(ItemIds(list), rows)[b] in Merge(list, rows, atTop);
    }
    hide *;
    forall i, j | 0 <= i < j < |rows| && rows[i].id !in ItemIds(list) && rows[j].id !in ItemIds(list)
      ensures ComesBefore(Merge(list, rows, atTop), Item(rows[i].id, !rows[i].seen), Item(rows[j].id, !rows[j].seen))
    {
      MergeKeepsPageOrder(list, rows, atTop, i, j);
    }
  }

  lemma ItemIdsConcat(a: seq<Item>, b: seq<Item>)
    ensures ItemIds(a + b) == ItemIds(a) + ItemIds(b)
  {
    assert forall n :: n in a + b <==> n in a || n in b;
  }

  // ---------------------------------------------------------------- the panel and its requests

  datatype Client = Client(items: seq<Item>, hasMore: bool, error: bool, page: nat, gen: nat, fetching: bool)

  datatype Kind = First | Ring | More(page: nat)

  /** An answer is page `kind` as the server had it when it answered; `from` and `reach` say which of the
      mount-time rows are on it, `at` how long the feed was. */
  datatype Status = Sent | Answered(rows: seq<Row>, next: bool, from: nat, reach: nat, at: nat) | Closed

  datatype Request = Request(kind: Kind, gen: nat, status: Status)

  /** `base` is the feed at the last (re)load, `held` how many of its rows the panel has, `landed` whether page 1
      has. */
  datatype State = State(
    size: nat, feed: seq<Row>, client: Client, requests: seq<Request>, base: seq<int>, held: nat, landed: bool)

  datatype Event =
    | Arrive(id: int)  // a new notification
    | See(i: nat)      // a row is marked seen on the server
    | Reload           // mounting, or starting over after a failed first load
    | RingBell
    | LoadMore
    | Answer(r: nat)
    | Land(r: nat)
    | Fail(r: nat)

  function FeedIds(feed: seq<Row>): seq<int> {
    seq(|feed|, i requires 0 <= i < |feed| => feed[i].id)
  }

  function PageNumber(kind: Kind): nat {
    match kind case More(k) => k case _ => 1
  }

  /** Rows that arrived since the (re)load. */
  function Newer(s: State): int { |s.feed| - |s.base| }

  function PageStart(s: State, k: nat): (r: nat)
    ensures r <= |s.feed|
  {
    Min(Max(k - 1, 0) * s.size, |s.feed|)
  }

  function PageEnd(s: State, k: nat): (r: nat)
    ensures r <= |s.feed|
  {
    Min(k * s.size, |s.feed|)
  }

  function Send(s: State, kind: Kind): State {
    s.(requests := s.requests + [Request(kind, s.client.gen, Sent)])
  }

  /** A page past the end is an error of the server's, left to Fail. */
  function AnswerPage(s: State, r: nat): State
    requires r < |s.requests|
  {
    var k := PageNumber(s.requests[r].kind);
    var lo, hi := PageStart(s, k), PageEnd(s, k);
    if s.requests[r].status != Sent || lo > hi || (k > 1 && lo == hi) then s else
    s.(requests := s.requests[r := s.requests[r].(status :=
      Answered(s.feed[lo..hi], k * s.size < |s.feed|, Max(0, lo - Newer(s)), Max(0, hi - Newer(s)), |s.feed|))])
  }

  /** What the panel does with an answer; one from before the last (re)load is ignored. */
  function ClientLanded(c: Client, kind: Kind, gen: nat, rows: seq<Row>, next: bool): Client {
    if gen != c.gen then c else
    match kind
    case First => c.(items := Merge(c.items, rows, false), hasMore := next)
    case Ring => c.(items := Merge(c.items, rows, true))
    case More(k) =>
      c.(items := Merge(c.items, rows, false), page := k, hasMore := next, error := false, fetching := false)
  }

  function ClientFailed(c: Client, kind: Kind, gen: nat): Client {
    if gen != c.gen then c else
    match kind
    case First => c.(error := true)
    case Ring => c
    case More(_) => c.(error := true, fetching := false)
  }

  function LandRows(s: State, r: nat): State
    requires r < |s.requests| && s.requests[r].status.Answered?
  {
    var q := s.requests[r];
    var t := s.(requests := s.requests[r := q.(status := Closed)],
                client := ClientLanded(s.client, q.kind, q.gen, q.status.rows, q.status.next));
    if q.gen != s.client.gen then t
    else t.(held := Max(s.held, q.status.reach), landed := s.landed || q.kind.First?)
  }

  function FailRequest(s: State, r: nat): State
    requires r < |s.requests|
  {
    var q := s.requests[r];
    if q.status.Closed? then s else
    s.(requests := s.requests[r := q.(status := Closed)], client := ClientFailed(s.client, q.kind, q.gen))
  }

  function Next(s: State, e: Event): State {
    match e
    case Arrive(id) => if id in Ids(s.feed) then s else s.(feed := [Row(id, false)] + s.feed)
    case See(i) => if i < |s.feed| then s.(feed := s.feed[i := s.feed[i].(seen := true)]) else s
    case Reload =>
      var client := Client([], false, false, 1, s.client.gen + 1, false);
      Send(s.(client := client, base := FeedIds(s.feed), held := 0, landed := false), First)
    case RingBell => Send(s, Ring)
    case LoadMore =>
      if s.client.fetching || !s.client.hasMore then s
      else Send(s.(client := s.client.(fetching := true)), More(s.client.page + 1))
    case Answer(r) => if r < |s.requests| then AnswerPage(s, r) else s
    case Land(r) => if r < |s.requests| && s.requests[r].status.Answered? then LandRows(s, r) else s
    case Fail(r) => if r < |s.requests| then FailRequest(s, r) else s
  }

  function Run(s: State, es: seq<Event>): State
    decreases |es|
  {
    if es == [] then s else Run(Next(s, es[0]), es[1..])
  }

  /** The panel just mounted over this feed. */
  function Mounted(size: nat, feed: seq<Row>): State {
    State(size, feed, Client([], false, false, 1, 1, false), [Request(First, 1, Sent)], FeedIds(feed), 0, false)
  }

  // ---------------------------------------------------------------- what every step keeps

  /** A request of the current load that has not been closed. */
  predicate Live(s: State, r: nat) {
    r < |s.requests| && s.requests[r].gen == s.client.gen && !s.requests[r].status.Closed?
  }

  /** The answer carries mount-time rows [from, reach), and they join on to what the panel holds. */
  ghost predicate AnswerOk(s: State, q: Request) {
    q.status.Answered? ==>
      && Distinct(q.status.rows) && q.status.reach <= |s.base|
      && (forall j :: 0 <= j < |s.base| ==> (s.base[j] in Ids(q.status.rows) <==> q.status.from <= j < q.status.reach))
      && q.status.from <= s.held
      && (q.status.reach + Newer(s) >= PageNumber(q.kind) * s.size || q.status.reach == |s.base|)
      && (!q.status.next ==> q.status.reach == |s.base|)
  }

  ghost predicate RequestOk(s: State, r: nat) {
    Live(s, r) ==>
      var q := s.requests[r];
      && AnswerOk(s, q)
      && (q.kind.First? ==> !s.landed)
      && (q.kind.More? ==> s.landed && s.client.fetching && q.kind.page == s.client.page + 1)
  }

  ghost predicate OneOfAKind(s: State, r: nat, q: nat) {
    r < q && Live(s, r) && Live(s, q) && !s.requests[r].kind.Ring? ==> s.requests[q].kind != s.requests[r].kind
  }

  ghost predicate FeedOk(s: State) {
    && s.size > 0 && Distinct(s.feed) && |s.base| <= |s.feed|
    && FeedIds(s.feed)[Newer(s)..] == s.base
  }

  ghost predicate ListOk(s: State) {
    && DistinctItems(s.client.items) && s.held <= |s.base|
    && (forall j :: 0 <= j < |s.base| ==> (s.base[j] in ItemIds(s.client.items) <==> j < s.held))
    && s.client.page >= 1 && (s.client.hasMore ==> s.landed) && (!s.landed ==> s.client.page == 1)
    && (s.landed ==> s.held + Newer(s) >= s.client.page * s.size || s.held == |s.base|)
    && (s.landed && !s.client.hasMore ==> s.held == |s.base|)
  }

  ghost predicate Ok(s: State) {
    && FeedOk(s) && ListOk(s)
    && (forall r: nat :: RequestOk(s, r))
    && (forall r: nat, q: nat :: OneOfAKind(s, r, q))
    && (forall r: nat :: r < |s.requests| ==> s.requests[r].gen <= s.client.gen)
  }

  lemma SliceHolds(feed: seq<Row>, lo: nat, hi: nat, at: nat)
    requires Distinct(feed) && lo <= hi <= |feed| && at < |feed|
    ensures feed[at].id in Ids(feed[lo..hi]) <==> lo <= at < hi
  {
    if lo <= at < hi {
      assert feed[lo..hi][at - lo] == feed[at];
    }
    if feed[at].id in Ids(feed[lo..hi]) {
      var i :| 0 <= i < hi - lo && feed[lo..hi][i].id == feed[at].id;
      assert feed[lo + i].id == feed[at].id;
    }
  }

  /** Page k of a distinct feed holds exactly the mount-time rows its bounds say. */
  lemma PageHolds(s: State, k: nat)
    requires FeedOk(s) && PageStart(s, k) <= PageEnd(s, k)
    ensures var lo, hi := PageStart(s, k), PageEnd(s, k);
      && Distinct(s.feed[lo..hi])
      && forall j :: 0 <= j < |s.base| ==> (s.base[j] in Ids(s.feed[lo..hi]) <==> lo <= j + Newer(s) < hi)
  {
    var lo, hi := PageStart(s, k), PageEnd(s, k);
    hide Ids, PageStart, PageEnd;
    forall j | 0 <= j < |s.base| ensures s.base[j] in Ids(s.feed[lo..hi]) <==> lo <= j + Newer(s) < hi {
      assert s.base[j] == FeedIds(s.feed)[Newer(s)..][j] == s.feed[j + Newer(s)].id;
      SliceHolds(s.feed, lo, hi, j + Newer(s));
    }
  }

  lemma AnswerKeepsRequests(s: State, r: nat)
    requires Ok(s) && r < |s.requests|
    ensures forall x: nat :: RequestOk(AnswerPage(s, r), x)
    ensures forall x: nat, y: nat :: OneOfAKind(AnswerPage(s, r), x, y)
  {
    var t := AnswerPage(s, r);
    var k := PageNumber(s.requests[r].kind);
    assert RequestOk(s, r);
    if t != s {
      PageHolds(s, k);
      if Live(s, r) {
        PageJoins(s, r);
      }
    }
    hide Ids, Distinct, FeedIds, PageStart, PageEnd;
    forall x: nat ensures RequestOk(t, x) { assert RequestOk(s, x); }
    forall x: nat, y: nat ensures OneOfAKind(t, x, y) { assert OneOfAKind(s, x, y); }
  }

  /** The next page starts no later than what is held ends, however much the feed has grown. */
  lemma PageJoins(s: State, r: nat)
    requires Ok(s) && r < |s.requests| && AnswerPage(s, r) != s && Live(s, r)
    ensures var k := PageNumber(s.requests[r].kind);
      Max(0, PageStart(s, k) - Newer(s)) <= s.held
  {
    assert RequestOk(s, r);
    var q := s.requests[r];
    if q.kind.More? {
      assert PageStart(s, q.kind.page) == s.client.page * s.size by {
        assert q.kind.page - 1 == s.client.page;
      }
    } else {
      assert PageStart(s, 1) == 0;
    }
  }

  // ---------------------------------------------------------------- landing

  lemma LandKeepsList(s: State, r: nat)
    requires Ok(s) && r < |s.requests| && s.requests[r].status.Answered? && Live(s, r)
    ensures ListOk(LandRows(s, r))
  {
    assert RequestOk(s, r);
    var q := s.requests[r];
    MergeIds(s.client.items, q.status.rows, q.kind.Ring?);
    hide Merge, DistinctItems, ItemIds, Ids, Distinct, FeedIds;
  }

  lemma LandKeepsRequests(s: State, r: nat)
    requires Ok(s) && r < |s.requests| && s.requests[r].status.Answered?
    ensures forall x: nat :: RequestOk(LandRows(s, r), x)
    ensures forall x: nat, y: nat :: OneOfAKind(LandRows(s, r), x, y)
  {
    var t := LandRows(s, r);
    hide Merge, DistinctItems, ItemIds, Ids, Distinct, FeedIds;
    forall x: nat ensures RequestOk(t, x) {
      assert RequestOk(s, x) && RequestOk(s, r) && OneOfAKind(s, x, r) && OneOfAKind(s, r, x);
    }
    forall x: nat, y: nat ensures OneOfAKind(t, x, y) {
      assert OneOfAKind(s, x, y);
    }
  }

  lemma FailKeeps(s: State, r: nat)
    requires Ok(s) && r < |s.requests|
    ensures Ok(FailRequest(s, r))
  {
    var t := FailRequest(s, r);
    hide DistinctItems, ItemIds, Ids, Distinct, FeedIds;
    forall x: nat ensures RequestOk(t, x) {
      assert RequestOk(s, x) && RequestOk(s, r) && OneOfAKind(s, x, r) && OneOfAKind(s, r, x);
    }
    forall x: nat, y: nat ensures OneOfAKind(t, x, y) { assert OneOfAKind(s, x, y); }
  }

  // ---------------------------------------------------------------- the server's feed

  lemma ArriveKeeps(s: State, id: int)
    requires Ok(s) && id !in Ids(s.feed)
    ensures Ok(Next(s, Arrive(id)))
  {
    var t := Next(s, Arrive(id));
    assert FeedIds(t.feed) == [id] + FeedIds(s.feed);
    assert FeedIds(t.feed)[Newer(t)..] == FeedIds(s.feed)[Newer(s)..];
    forall j | 0 <= j < |s.feed| ensures s.feed[j].id != id { assert s.feed[j] in s.feed; }
    assert FeedOk(t);
    hide DistinctItems, ItemIds, Ids, Distinct, FeedIds;
    forall x: nat ensures RequestOk(t, x) { assert RequestOk(s, x); }
    forall x: nat, y: nat ensures OneOfAKind(t, x, y) { assert OneOfAKind(s, x, y); }
  }

  lemma SeeKeeps(s: State, i: nat)
    requires Ok(s) && i < |s.feed|
    ensures Ok(Next(s, See(i)))
  {
    var t := Next(s, See(i));
    assert FeedIds(t.feed) == FeedIds(s.feed);
    assert FeedOk(t);
    hide DistinctItems, ItemIds, Ids, Distinct, FeedIds;
    forall x: nat ensures RequestOk(t, x) { assert RequestOk(s, x); }
    forall x: nat, y: nat ensures OneOfAKind(t, x, y) { assert OneOfAKind(s, x, y); }
  }

  lemma SendKeeps(s: State, e: Event)
    requires Ok(s) && (e.RingBell? || e.LoadMore? || e.Reload?)
    ensures Ok(Next(s, e))
  {
    var t := Next(s, e);
    if e.Reload? {
      assert FeedIds(t.feed)[0..] == FeedIds(t.feed);
    }
    hide FeedIds, Distinct, Ids;
    forall x: nat ensures RequestOk(t, x) { assert RequestOk(s, x); }
    forall x: nat, y: nat ensures OneOfAKind(t, x, y) {
      assert OneOfAKind(s, x, y) && RequestOk(s, x) && RequestOk(s, y);
    }
  }

  lemma AnswerKeeps(s: State, r: nat)
    requires Ok(s) && r < |s.requests|
    ensures Ok(Next(s, Answer(r)))
  {
    hide RequestOk, OneOfAKind, PageStart, PageEnd;
    AnswerKeepsRequests(s, r);
  }

  lemma LandKeeps(s: State, r: nat)
    requires Ok(s) && r < |s.requests| && s.requests[r].status.Answered?
    ensures Ok(Next(s, Land(r)))
  {
    hide RequestOk, OneOfAKind;
    LandKeepsRequests(s, r);
    if Live(s, r) {
      LandKeepsList(s, r);
    }
  }

  lemma StepKeepsOk(s: State, e: Event)
    requires Ok(s)
    ensures Ok(Next(s, e))
  {
    hide Ok;
    match e
    case Arrive(id) => if id !in Ids(s.feed) { ArriveKeeps(s, id); }
    case See(i) => if i < |s.feed| { SeeKeeps(s, i); }
    case Reload => SendKeeps(s, e);
    case RingBell => SendKeeps(s, e);
    case LoadMore => SendKeeps(s, e);
    case Answer(r) => if r < |s.requests| { AnswerKeeps(s, r); }
    case Land(r) => if r < |s.requests| && s.requests[r].status.Answered? { LandKeeps(s, r); }
    case Fail(r) => if r < |s.requests| { FailKeeps(s, r); }
  }

  lemma {:induction false} RunKeepsOk(s: State, es: seq<Event>)
    requires Ok(s)
    ensures Ok(Run(s, es))
    decreases |es|
  {
    if es != [] {
      StepKeepsOk(s, es[0]);
      RunKeepsOk(Next(s, es[0]), es[1..]);
    }
  }

  lemma UnansweredIsOk(s: State, q: Request)
    requires !q.status.Answered?
    ensures AnswerOk(s, q)
  {
  }

  lemma MountedIsOk(size: nat, feed: seq<Row>)
    requires size > 0 && Distinct(feed)
    ensures Ok(Mounted(size, feed))
  {
    assert FeedIds(feed)[0..] == FeedIds(feed);
    assert |FeedIds(feed)| == |feed|;
    hide Ids, Distinct, FeedIds, AnswerOk;
    UnansweredIsOk(Mounted(size, feed), Request(First, 1, Sent));
  }

  // ---------------------------------------------------------------- the promises

  /** No gaps and no duplicates, for any interleaving of loads, rings, arrivals, failures and late answers: no id
      is shown twice, the mount-time rows on screen are always the newest `held` of them and no others, and when
      the panel says there is no more it has them all. */
  lemma FeedHasNoGaps(size: nat, feed: seq<Row>, es: seq<Event>)
    requires size > 0 && Distinct(feed)
    ensures var s := Run(Mounted(size, feed), es);
      && DistinctItems(s.client.items)
      && s.held <= |s.base|
      && (forall j :: 0 <= j < |s.base| ==> (s.base[j] in ItemIds(s.client.items) <==> j < s.held))
      && (s.landed && !s.client.hasMore ==> forall id :: id in s.base ==> id in ItemIds(s.client.items))
  {
    MountedIsOk(size, feed);
    RunKeepsOk(Mounted(size, feed), es);
  }

  /** A fetch is never stuck: whenever the panel holds back further pages, one is on its way or waiting to land. */
  ghost predicate Fetching(s: State) {
    s.client.fetching ==> exists r: nat :: Live(s, r) && s.requests[r].kind.More?
  }

  lemma StepKeepsFetching(s: State, e: Event)
    requires Ok(s) && Fetching(s)
    ensures Fetching(Next(s, e))
  {
    var t := Next(s, e);
    hide Ids, Merge, FeedIds, FeedOk, ListOk, AnswerOk;
    if t.client.fetching {
      if s.client.fetching {
        var r: nat :| Live(s, r) && s.requests[r].kind.More?;
        assert RequestOk(s, r);
        if e.Land? || e.Fail? {
          assert e.r < |s.requests| && Live(s, e.r) ==> RequestOk(s, e.r);
          assert OneOfAKind(s, r, e.r) && OneOfAKind(s, e.r, r);
        }
        assert Live(t, r) && t.requests[r].kind.More?;
      } else {
        assert Live(t, |s.requests|) && t.requests[|s.requests|].kind.More?;
      }
    }
  }

  lemma {:induction false} RunKeepsFetching(s: State, es: seq<Event>)
    requires Ok(s) && Fetching(s)
    ensures Fetching(Run(s, es))
    decreases |es|
  {
    if es != [] {
      StepKeepsOk(s, es[0]);
      StepKeepsFetching(s, es[0]);
      RunKeepsFetching(Next(s, es[0]), es[1..]);
    }
  }

  lemma FetchIsNeverStuck(size: nat, feed: seq<Row>, es: seq<Event>)
    requires size > 0 && Distinct(feed)
    ensures Fetching(Run(Mounted(size, feed), es))
  {
    MountedIsOk(size, feed);
    RunKeepsFetching(Mounted(size, feed), es);
  }

  /** Until the list is started over, what is on screen stays there, in order and with its mark: every later list
      is this one with rows before it and after it. */
  ghost predicate Extends(was: seq<Item>, now: seq<Item>) {
    exists i: nat :: SitsAt(was, now, i)
  }

  predicate SitsAt(was: seq<Item>, now: seq<Item>, i: nat) {
    i <= |now| - |was| && now[i..i + |was|] == was
  }

  lemma ItemsMoveOnlyOnLanding(s: State, e: Event)
    requires !e.Reload?
    ensures Next(s, e).base == s.base
    ensures Next(s, e).client.items == s.client.items ||
      (e.Land? && Live(s, e.r) && s.requests[e.r].status.Answered?
       && Next(s, e).client.items == Merge(s.client.items, s.requests[e.r].status.rows, s.requests[e.r].kind.Ring?))
  {
    hide Merge;
  }

  lemma StepExtends(s: State, e: Event)
    requires Ok(s) && !e.Reload?
    ensures Extends(s.client.items, Next(s, e).client.items) && Next(s, e).base == s.base
  {
    var was, now := s.client.items, Next(s, e).client.items;
    ItemsMoveOnlyOnLanding(s, e);
    hide Next, Merge;
    if now == was {
      assert SitsAt(was, now, 0);
    } else {
      assert RequestOk(s, e.r);
      var ring := s.requests[e.r].kind.Ring?;
      MergeIds(was, s.requests[e.r].status.rows, ring);
      assert SitsAt(was, now, if ring then |now| - |was| else 0);
    }
  }

  lemma {:induction false} RowsAndMarksStay(s: State, es: seq<Event>)
    requires Ok(s) && Reload !in es
    ensures Extends(s.client.items, Run(s, es).client.items)
    decreases |es|
  {
    if es == [] {
      assert SitsAt(s.client.items, s.client.items, 0);
    } else {
      var t := Next(s, es[0]);
      StepExtends(s, es[0]);
      StepKeepsOk(s, es[0]);
      RowsAndMarksStay(t, es[1..]);
      ExtendsTransitive(s.client.items, t.client.items, Run(s, es).client.items);
    }
  }

  lemma ExtendsTransitive(a: seq<Item>, b: seq<Item>, c: seq<Item>)
    requires Extends(a, b) && Extends(b, c)
    ensures Extends(a, c)
  {
    var i: nat :| SitsAt(a, b, i);
    var j: nat :| SitsAt(b, c, j);
    forall k | 0 <= k < |a| ensures c[j + i + k] == a[k] {
      assert c[j..j + |b|][i + k] == b[i..i + |a|][k];
    }
    assert SitsAt(a, c, j + i);
  }

  // ---------------------------------------------------------------- the hook

  /** useNotificationFeed: its state and refs as fields, its callbacks as methods. */
  class Hook {
    var items: seq<Item>
    var hasMore: bool
    var error: bool
    var page: nat
    var gen: nat
    var fetching: bool

    ghost function View(): Client
      reads this
    {
      Client(items, hasMore, error, page, gen, fetching)
    }

    constructor ()
      ensures View() == Client([], false, false, 1, 0, false)
    {
      items, hasMore, error, page, gen, fetching := [], false, false, 1, 0, false;
    }

    /** The load effect, at mounting and after reload: the request it sends carries the returned generation. */
    method Load() returns (requestGen: nat)
      modifies this
      ensures View() == Client([], false, false, 1, old(gen) + 1, false) && requestGen == gen
    {
      items, error, hasMore := [], false, false;
      gen := gen + 1;
      page, fetching := 1, false;
      requestGen := gen;
    }

    method OnFirst(requestGen: nat, rows: seq<Row>, next: bool)
      modifies this
      ensures View() == ClientLanded(old(View()), First, requestGen, rows, next)
      ensures requestGen != gen ==> View() == old(View())
      ensures requestGen == gen ==>
        View() == Client(Merge(old(items), rows, false), next, old(error), old(page), gen, old(fetching))
    {
      if requestGen != gen {
        return;
      }
      items := Merge(items, rows, false);
      hasMore := next;
    }

    method OnRing(requestGen: nat, rows: seq<Row>)
      modifies this
      ensures forall next :: View() == ClientLanded(old(View()), Ring, requestGen, rows, next)
      ensures requestGen != gen ==> View() == old(View())
      ensures requestGen == gen ==>
        View() == Client(Merge(old(items), rows, true), old(hasMore), old(error), old(page), gen, old(fetching))
    {
      if requestGen == gen {
        items := Merge(items, rows, true);
      }
    }

    /** loadMore: the page it asks for, if it asks. One page at a time, and only when there is one. */
    method LoadMorePage() returns (nextPage: Option<nat>)
      modifies this`fetching
      ensures nextPage == if old(fetching) || !hasMore then None else Some(page + 1)
      ensures fetching == (old(fetching) || hasMore)
    {
      if fetching || !hasMore {
        return None;
      }
      fetching := true;
      return Some(page + 1);
    }

    method OnMore(requestGen: nat, nextPage: nat, rows: seq<Row>, next: bool)
      modifies this
      ensures View() == ClientLanded(old(View()), More(nextPage), requestGen, rows, next)
      ensures requestGen != gen ==> View() == old(View())
      ensures requestGen == gen ==> View() == Client(Merge(old(items), rows, false), next, false, nextPage, gen, false)
    {
      if requestGen != gen {
        return;
      }
      page := nextPage;
      items := Merge(items, rows, false);
      hasMore := next;
      error := false;
      fetching := false;
    }

    method OnFailure(requestGen: nat, kind: Kind)
      modifies this
      ensures View() == ClientFailed(old(View()), kind, requestGen)
      ensures requestGen != gen || kind.Ring? ==> View() == old(View())
      ensures requestGen == gen && !kind.Ring? ==> error && items == old(items) && (kind.More? ==> !fetching)
    {
      if requestGen != gen || kind.Ring? {
        return;
      }
      error := true;
      if kind.More? {
        fetching := false;
      }
    }
  }
}
