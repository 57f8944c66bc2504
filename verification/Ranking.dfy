/**
 Four ways the platform orders contestants: the ORDER BY of the leaderboard with its dense-rank
 window, the count of distinct better results for one participant, the comparator of the rating
 code, and the count behind the contest history page. The first three agree on every table.
 */
module Ranking {
  import opened SqlOrder
  import opened Wrappers
  import opened Elo

  datatype Row = Row(userId: int, key: PlaceKey)

  /** Participants with their score row joined in, zeros and NULL where there is none. */
  function ParticipantRows(participants: set<int>, scores: map<int, PlaceKey>): set<Row> {
    set u | u in participants :: Row(u, if u in scores then scores[u] else PlaceKey(0, 0, None))
  }

  ghost predicate OneRowEach(table: set<Row>) {
    forall a, b :: a in table && b in table && a.userId == b.userId ==> a == b
  }

  // ---------------------------------------------------------------- ORDER BY and the window

  /** ORDER BY score DESC, penalty ASC, last_ac_at ASC NULLS LAST. */
  predicate SortsBefore(a: PlaceKey, b: PlaceKey) {
    || a.score > b.score
    || (a.score == b.score && a.penalty < b.penalty)
    || (a.score == b.score && a.penalty == b.penalty && AscNullsLast(a.lastAc, b.lastAc))
  }

  predicate RowBefore(a: Row, b: Row) {
    SortsBefore(a.key, b.key) || (!SortsBefore(b.key, a.key) && a.userId < b.userId)
  }

  /** The table as the query returns it: every row once, in order, the id as the last key. */
  ghost predicate IsLeaderboard(table: set<Row>, board: seq<Row>) {
    && (forall r :: r in table <==> r in board)
    && (forall i, j :: 0 <= i < j < |board| ==> RowBefore(board[i], board[j]))
  }

  /** DENSE_RANK() over the sorted table: 1 on the first row, one more at each row that is not a peer of the last. */
  function DenseRank(board: seq<Row>, i: nat): nat
    requires i < |board|
  {
    if i == 0 then 1
    else DenseRank(board, i - 1) + if SortsBefore(board[i - 1].key, board[i].key) then 1 else 0
  }

  // ---------------------------------------------------------------- the count for one participant

  /** A comparison with NULL is not true. */
  predicate SqlLess(a: Option<int>, b: Option<int>) {
    a.Some? && b.Some? && a.value < b.value
  }

  /** The filter of get_participant_rank. */
  predicate Better(k: PlaceKey, me: PlaceKey) {
    || k.score > me.score
    || (k.score == me.score && k.penalty < me.penalty)
    || (k.score == me.score && k.penalty == me.penalty
        && if me.lastAc.Some? then SqlLess(k.lastAc, me.lastAc) else k.lastAc.Some?)
  }

  function KeysAhead(table: set<Row>, me: PlaceKey): set<PlaceKey> {
    set r | r in table && Better(r.key, me) :: r.key
  }

  ghost function ParticipantRank(table: set<Row>, userId: int): Option<nat> {
    if me: Row :| me in table && me.userId == userId then Some(|KeysAhead(table, me.key)| + 1) else None
  }

  // ---------------------------------------------------------------- they agree

  /** The ORDER BY, the SQL filter and the rating comparator are the same strict total order on results. */
  lemma OrdersAgree(a: PlaceKey, b: PlaceKey)
    ensures SortsBefore(a, b) == Better(a, b) == RanksAbove(a, b)
  {
  }

  lemma {:induction false} DenseRankCountsKeys(table: set<Row>, board: seq<Row>, i: nat)
    requires IsLeaderboard(table, board) && i < |board|
    ensures DenseRank(board, i) == |KeysAhead(table, board[i].key)| + 1
  {
    var me := board[i].key;
    if i == 0 {
      forall r | r in table ensures !Better(r.key, me) {
        var j :| 0 <= j < |board| && board[j] == r;
        if j > 0 { assert RowBefore(board[0], board[j]); }
        OrdersAgree(r.key, me);
        RanksAboveIsTotal(r.key, me, me);
        OrdersAgree(me, r.key);
      }
      assert KeysAhead(table, me) == {};
    } else {
      var prev := board[i - 1].key;
      DenseRankCountsKeys(table, board, i - 1);
      assert RowBefore(board[i - 1], board[i]);
      StepAhead(table, board, i);
    }
  }

  /** From one row to the next, the keys ahead grow by the previous row's key, or not at all on a tie. */
  lemma StepAhead(table: set<Row>, board: seq<Row>, i: nat)
    requires IsLeaderboard(table, board) && 0 < i < |board|
    ensures var prev, me := board[i - 1].key, board[i].key;
      |KeysAhead(table, me)| == |KeysAhead(table, prev)| + if SortsBefore(prev, me) then 1 else 0
  {
    var prev, me := board[i - 1].key, board[i].key;
    assert RowBefore(board[i - 1], board[i]);
    OrdersAgree(prev, me);
    OrdersAgree(me, prev);
    RanksAboveIsTotal(prev, me, me);
    if prev != me {
      forall k | k in KeysAhead(table, me) ensures k in KeysAhead(table, prev) + {prev} {
        var r :| r in table && Better(r.key, me) && r.key == k;
        var j :| 0 <= j < |board| && board[j] == r;
        OrdersAgree(k, me);
        OrdersAgree(me, k);
        OrdersAgree(k, prev);
        OrdersAgree(prev, k);
        RanksAboveIsTotal(k, me, k);
        RanksAboveIsTotal(k, prev, k);
        assert j > i ==> RowBefore(board[i], board[j]);
        if j < i - 1 { assert RowBefore(board[j], board[i - 1]); }
      }
      forall k | k in KeysAhead(table, prev) + {prev} ensures k in KeysAhead(table, me) {
        OrdersAgree(k, me);
        OrdersAgree(k, prev);
        RanksAboveIsTotal(k, prev, me);
        assert board[i - 1] in table;
      }
      assert KeysAhead(table, me) == KeysAhead(table, prev) + {prev};
      OrdersAgree(prev, prev);
      assert prev !in KeysAhead(table, prev);
    }
  }

  /** The number in the leaderboard row and the number in the single lookup are the same, for every participant;
      ranks start at 1 and step by 0 on a tie and by 1 otherwise; a stranger has none. */
  lemma RanksAgree(table: set<Row>, board: seq<Row>)
    requires OneRowEach(table) && IsLeaderboard(table, board)
    ensures forall i :: 0 <= i < |board| ==> ParticipantRank(table, board[i].userId) == Some(DenseRank(board, i))
    ensures board != [] ==> DenseRank(board, 0) == 1
    ensures forall i :: 0 < i < |board| ==>
      DenseRank(board, i) == DenseRank(board, i - 1) + if RanksAbove(board[i - 1].key, board[i].key) then 1 else 0
    ensures forall u :: (forall i :: 0 <= i < |board| ==> board[i].userId != u) ==> ParticipantRank(table, u) == None
  {
    forall i | 0 <= i < |board|
      ensures ParticipantRank(table, board[i].userId) == Some(DenseRank(board, i))
    {
      DenseRankCountsKeys(table, board, i);
      assert board[i] in table;
    }
    forall i | 0 < i < |board|
      ensures SortsBefore(board[i - 1].key, board[i].key) == RanksAbove(board[i - 1].key, board[i].key)
    {
      OrdersAgree(board[i - 1].key, board[i].key);
    }
  }

  /** The order of the rows: better results first, and equal results by id. */
  lemma BoardOrder(table: set<Row>, board: seq<Row>, i: nat, j: nat)
    requires IsLeaderboard(table, board) && i < j < |board|
    ensures RanksAbove(board[i].key, board[j].key)
         || (board[i].key == board[j].key && board[i].userId < board[j].userId)
  {
    assert RowBefore(board[i], board[j]);
    OrdersAgree(board[i].key, board[j].key);
    OrdersAgree(board[j].key, board[i].key);
    RanksAboveIsTotal(board[i].key, board[j].key, board[i].key);
  }

  lemma ParticipantsHaveOneRowEach(participants: set<int>, scores: map<int, PlaceKey>)
    ensures OneRowEach(ParticipantRows(participants, scores))
    ensures forall r :: r in ParticipantRows(participants, scores) ==> r.userId in participants
  {
  }

  lemma OnceOnBoard(table: set<Row>, board: seq<Row>, i: nat, j: nat)
    requires IsLeaderboard(table, board) && i < |board| && j < |board|
    ensures board[i] == board[j] ==> i == j
  {
    RowBeforeIsTotal(board[i], board[j], board[i]);
  }

  /** On the joined table of a contest: every participant has exactly one row, with their score or with zeros and
      NULL, the single lookup gives the rank on that row, and whoever did not join has none. */
  lemma EveryParticipantIsRanked(participants: set<int>, scores: map<int, PlaceKey>, board: seq<Row>, u: int)
    requires IsLeaderboard(ParticipantRows(participants, scores), board)
    ensures u in participants ==> exists i ::
      && 0 <= i < |board|
      && board[i] == Row(u, if u in scores then scores[u] else PlaceKey(0, 0, None))
      && ParticipantRank(ParticipantRows(participants, scores), u) == Some(DenseRank(board, i))
      && forall j :: 0 <= j < |board| && board[j].userId == u ==> j == i
    ensures u !in participants ==> ParticipantRank(ParticipantRows(participants, scores), u) == None
  {
    var table := ParticipantRows(participants, scores);
    ParticipantsHaveOneRowEach(participants, scores);
    RanksAgree(table, board);
    if u in participants {
      var mine := Row(u, if u in scores then scores[u] else PlaceKey(0, 0, None));
      assert mine in table && mine in board;
      var i :| 0 <= i < |board| && board[i] == mine;
      forall j | 0 <= j < |board| && board[j].userId == u ensures j == i {
        assert board[j] in table && board[j] == mine;
        OnceOnBoard(table, board, i, j);
      }
    } else {
      forall i | 0 <= i < |board| ensures board[i].userId != u {
        assert board[i] in table;
      }
    }
  }

  /** Better rank and better result are the same thing, and equal results share a place. */
  lemma {:induction false} RankOrdersResults(table: set<Row>, board: seq<Row>, i: nat, j: nat)
    requires IsLeaderboard(table, board) && i < j < |board|
    ensures DenseRank(board, i) <= DenseRank(board, j)
    ensures DenseRank(board, i) == DenseRank(board, j) <==> board[i].key == board[j].key
    ensures DenseRank(board, i) < DenseRank(board, j) <==> RanksAbove(board[i].key, board[j].key)
  {
    var a, b := board[i].key, board[j].key;
    assert RowBefore(board[i], board[j]);
    DenseRankCountsKeys(table, board, i);
    DenseRankCountsKeys(table, board, j);
    OrdersAgree(a, b);
    OrdersAgree(b, a);
    RanksAboveIsTotal(a, b, a);
    if a != b {
      forall k | k in KeysAhead(table, a) + {a} ensures k in KeysAhead(table, b) {
        OrdersAgree(k, a);
        OrdersAgree(k, b);
        RanksAboveIsTotal(k, a, b);
        assert board[i] in table;
      }
      OrdersAgree(a, a);
      assert KeysAhead(table, a) + {a} <= KeysAhead(table, b);
      SubsetSize(KeysAhead(table, a) + {a}, KeysAhead(table, b));
    }
  }

  lemma SubsetSize<T>(a: set<T>, b: set<T>)
    requires a <= b
    ensures |a| <= |b|
  {
    assert b == a + (b - a);
  }

  /** The id makes the order of the rows unique, so pages of one table never overlap or skip. */
  lemma {:induction false} LeaderboardIsUnique(table: set<Row>, a: seq<Row>, b: seq<Row>)
    requires IsLeaderboard(table, a) && IsLeaderboard(table, b)
    ensures a == b
    decreases |a|
  {
    if a == [] {
      EmptyOrMember(b);
    } else {
      assert a[0] in table && a[0] in b;
      assert b[0] in table && b[0] in a;
      FirstIsLeast(a, b[0]);
      FirstIsLeast(b, a[0]);
      RowBeforeIsTotal(a[0], b[0], a[0]);
      assert a[0] == b[0];
      BoardTail(table, a);
      BoardTail(table, b);
      LeaderboardIsUnique(table - {a[0]}, a[1..], b[1..]);
    }
  }

  lemma EmptyOrMember(board: seq<Row>)
    ensures board == [] || exists r :: r in board
  {
    if board != [] { assert board[0] in board; }
  }

  lemma RowBeforeIsTotal(a: Row, b: Row, c: Row)
    ensures !RowBefore(a, a)
    ensures !(RowBefore(a, b) && RowBefore(b, a))
    ensures a == b || RowBefore(a, b) || RowBefore(b, a)
    ensures RowBefore(a, b) && RowBefore(b, c) ==> RowBefore(a, c)
  {
  }

  lemma FirstIsLeast(board: seq<Row>, r: Row)
    requires board != [] && r in board && forall i, j :: 0 <= i < j < |board| ==> RowBefore(board[i], board[j])
    ensures r == board[0] || RowBefore(board[0], r)
  {
  }

  lemma BoardTail(table: set<Row>, board: seq<Row>)
    requires IsLeaderboard(table, board) && board != []
    ensures IsLeaderboard(table - {board[0]}, board[1..])
  {
    forall r ensures r in table - {board[0]} <==> r in board[1..] {
      if r in board[1..] {
        var j :| 0 <= j < |board[1..]| && board[1..][j] == r;
        assert RowBefore(board[0], board[j + 1]);
        RowBeforeIsTotal(r, r, r);
      }
    }
  }

  /** Every table has its leaderboard. */
  lemma {:induction false} LeaderboardExists(table: set<Row>) returns (board: seq<Row>)
    ensures IsLeaderboard(table, board)
    decreases |table|
  {
    board := [];
    if table != {} {
      var first := LeastRow(table);
      var rest := LeaderboardExists(table - {first});
      board := [first] + rest;
      forall i, j | 0 <= i < j < |board| ensures RowBefore(board[i], board[j]) {
        if i == 0 {
          assert rest[j - 1] in table - {first};
        } else {
          assert RowBefore(rest[i - 1], rest[j - 1]);
        }
      }
    }
  }

  lemma {:induction false} LeastRow(table: set<Row>) returns (least: Row)
    requires table != {}
    ensures least in table && forall r :: r in table && r != least ==> RowBefore(least, r)
    decreases |table|
  {
    least :| least in table;
    if table != {least} {
      var other := LeastRow(table - {least});
      RowBeforeIsTotal(least, other, least);
      forall r | r in table && r != other && r != least && RowBefore(least, other)
        ensures RowBefore(least, r)
      {
        RowBeforeIsTotal(least, other, r);
      }
      if RowBefore(other, least) {
        least := other;
      }
    }
  }

  // ---------------------------------------------------------------- the history page counts rows, not results

  /** The correlated subquery of get_contest_history. */
  predicate HistoryHigher(k: PlaceKey, me: PlaceKey) {
    || k.score > me.score
    || (k.score == me.score && k.penalty < me.penalty)
    || (k.score == me.score && k.penalty == me.penalty && SqlLess(k.lastAc, me.lastAc))
  }

  function HistoryRank(table: set<Row>, me: PlaceKey): nat {
    |set r | r in table && HistoryHigher(r.key, me)| + 1
  }

  /** What scoring guarantees of a stored row: a last accepted answer exactly when there are points. */
  predicate ScoredRow(r: Row) { r.key.lastAc.Some? <==> r.key.score > 0 }

  /** A tie further up: two rows ahead of `me` that share a place on the leaderboard. */
  ghost predicate TieAhead(table: set<Row>, me: PlaceKey) {
    exists a, b :: a in table && b in table && a != b && a.key == b.key && RanksAbove(a.key, me)
  }

  lemma {:induction false} KeysOfRows(rows: set<Row>)
    ensures |set r | r in rows :: r.key| <= |rows|
    ensures |set r | r in rows :: r.key| == |rows|
       <==> forall a, b :: a in rows && b in rows && a.key == b.key ==> a == b
    decreases |rows|
  {
    var keys := set r | r in rows :: r.key;
    if x :| x in rows {
      var rest := rows - {x};
      var restKeys := set r | r in rest :: r.key;
      KeysOfRows(rest);
      assert keys == restKeys + {x.key};
      if x.key in restKeys {
        var y :| y in rest && y.key == x.key;
        assert keys == restKeys;
      }
    } else {
      assert keys == {};
    }
  }

  /** The place shown in the contest history is the leaderboard place exactly when nobody ahead is tied. */
  lemma HistoryAgreesUnlessTied(table: set<Row>, me: PlaceKey)
    requires (forall r :: r in table ==> ScoredRow(r)) && (me.lastAc.Some? <==> me.score > 0)
    ensures HistoryRank(table, me) >= |KeysAhead(table, me)| + 1
    ensures HistoryRank(table, me) == |KeysAhead(table, me)| + 1 <==> !TieAhead(table, me)
  {
    var rows := set r | r in table && HistoryHigher(r.key, me);
    forall r | r in table ensures HistoryHigher(r.key, me) == Better(r.key, me) == RanksAbove(r.key, me) {
      OrdersAgree(r.key, me);
    }
    assert KeysAhead(table, me) == set r | r in rows :: r.key;
    KeysOfRows(rows);
  }

  /** With two winners tied, the next contestant is second on the leaderboard and third in the history. */
  lemma HistoryRankIsNotDense()
    ensures var win, next := PlaceKey(200, 30, Some(7)), PlaceKey(100, 5, Some(3));
      var table := {Row(1, win), Row(2, win), Row(3, next)};
      HistoryRank(table, next) == 3 && |KeysAhead(table, next)| + 1 == 2
  {
    var win, next := PlaceKey(200, 30, Some(7)), PlaceKey(100, 5, Some(3));
    var table := {Row(1, win), Row(2, win), Row(3, next)};
    assert (set r | r in table && HistoryHigher(r.key, next)) == {Row(1, win), Row(2, win)};
    assert Row(1, win) in table;
    assert KeysAhead(table, next) == {win};
  }
}
