/**
 Telling people that problems became public. Every active player hears of each problem by name,
 except those who met it in a finished contest: they get one line about that contest. Rows are
 unique per recipient and event, and only new rows ring anybody.
 */
module Announcements {

  /** The event a row is about: its type and dedup key. A summary's key carries a digest of its problems. */
  datatype Topic = NewProblem(problem: int) | ContestProblems(contest: int, digest: string)

  datatype Note = Note(user: int, topic: Topic)

  datatype User = User(active: bool, staff: bool)
  datatype Contest = Contest(endTime: int, participants: set<int>)

  /** What the announcement reads: users, the contests of each problem, the contests, the clock, and the digest
      of a set of problems, of which nothing is assumed. */
  datatype World = World(
    users: map<int, User>,
    problems: map<int, seq<int>>,
    contests: map<int, Contest>,
    now: int,
    digest: set<int> -> string)

  function Elements(xs: seq<int>): set<int> { set x | x in xs }

  lemma ElementsSnoc(xs: seq<int>, x: int)
    ensures Elements(xs + [x]) == Elements(xs) + {x} && Elements([]) == {}
  {
  }

  lemma ElementsStep(xs: seq<int>, i: nat)
    requires i < |xs|
    ensures Elements(xs[..i + 1]) == Elements(xs[..i]) + {xs[i]} && Elements(xs[..0]) == {}
    ensures xs[..|xs|] == xs
  {
    assert xs[..i + 1] == xs[..i] + [xs[i]];
  }

  ghost predicate Linked(w: World) {
    forall p, c :: p in w.problems && c in w.problems[p] ==> c in w.contests
  }

  function Audience(w: World): set<int> {
    set u | u in w.users && w.users[u].active && !w.users[u].staff
  }

  /** The finished contests a problem was in. */
  function Finished(w: World, p: int): set<int> {
    if p !in w.problems then {} else set c | c in w.problems[p] && c in w.contests && w.contests[c].endTime < w.now
  }

  function Insiders(w: World, p: int): set<int> {
    set c, u | c in Finished(w, p) && u in w.contests[c].participants :: u
  }

  /** The problems of the batch that came out of the contest. */
  function Covered(w: World, batch: set<int>, c: int): set<int> {
    set p | p in batch && c in Finished(w, p)
  }

  function Sources(w: World, batch: set<int>): set<int> {
    set p, c | p in batch && c in Finished(w, p) :: c
  }

  /** _summary_key: the summary a contest's entrants get for this batch. */
  function Summary(w: World, batch: set<int>, c: int): Topic {
    ContestProblems(c, w.digest(Covered(w, batch, c)))
  }

  function Rows(users: set<int>, topic: Topic): set<Note> {
    set u | u in users :: Note(u, topic)
  }

  /** Every row one announcement of the batch aims at, known problems only. */
  function ByName(w: World, batch: set<int>): set<Note> {
    set p, n | p in batch && p in w.problems && n in Rows(Audience(w) - Insiders(w, p), NewProblem(p)) :: n
  }

  function ByContest(w: World, batch: set<int>, sources: set<int>): set<Note> {
    set c, n | c in sources && c in w.contests
      && n in Rows(w.contests[c].participants * Audience(w), Summary(w, batch, c)) :: n
  }

  function Aimed(w: World, batch: set<int>): set<Note> {
    ByName(w, batch) + ByContest(w, batch, Sources(w, batch))
  }

  /** Who has a row among these. */
  function Recipients(notes: set<Note>): set<int> { set n | n in notes :: n.user }

  // ---------------------------------------------------------------- what the two audiences add up to

  /** The problems of the batch that were in the contest. */
  function PartOf(w: World, batch: set<int>, c: int): set<int> {
    set p | p in batch && p in w.problems && c in w.problems[p]
  }

  /** The user took part in the contest, it had the problem, and it is over. */
  predicate Entered(w: World, u: int, p: int, c: int) {
    && p in w.problems && c in w.problems[p]
    && c in w.contests && w.contests[c].endTime < w.now && u in w.contests[c].participants
  }

  /** Exactly who is aimed at by name: active, not staff, and not an entrant of a finished contest with the problem. */
  lemma ByNameIff(w: World, batch: set<int>, u: int, p: int)
    ensures Note(u, NewProblem(p)) in Aimed(w, batch)
       <==> && u in w.users && w.users[u].active && !w.users[u].staff
            && p in batch && p in w.problems
            && forall c :: !Entered(w, u, p, c)
  {
    if u in Insiders(w, p) {
      var c :| c in Finished(w, p) && u in w.contests[c].participants;
      assert Entered(w, u, p, c);
    } else {
      forall c ensures !Entered(w, u, p, c) {
        assert Entered(w, u, p, c) ==> c in Finished(w, p);
      }
    }
    assert Note(u, NewProblem(p)) in Rows(Audience(w) - Insiders(w, p), NewProblem(p))
      <==> u in Audience(w) && u !in Insiders(w, p);
  }

  /** Exactly who is aimed at by a summary: active, not staff, an entrant of that finished contest, which had some
      problem of the batch; and its key carries the digest of those it had. */
  lemma BySummaryIff(w: World, batch: set<int>, u: int, c: int, digest: string)
    ensures Note(u, ContestProblems(c, digest)) in Aimed(w, batch)
       <==> && u in w.users && w.users[u].active && !w.users[u].staff
            && (exists p :: p in batch && Entered(w, u, p, c))
            && digest == w.digest(PartOf(w, batch, c))
  {
    if exists p :: p in batch && Entered(w, u, p, c) {
      var p :| p in batch && Entered(w, u, p, c);
      assert c in Finished(w, p) && c in Sources(w, batch);
      assert Covered(w, batch, c) == PartOf(w, batch, c);
      var rows := Rows(w.contests[c].participants * Audience(w), Summary(w, batch, c));
      assert u in Audience(w) ==> Note(u, Summary(w, batch, c)) in rows;
      assert forall n :: n in rows ==> n in ByContest(w, batch, Sources(w, batch));
    }
    if Note(u, ContestProblems(c, digest)) in Aimed(w, batch) {
      assert c in Sources(w, batch) && c in w.contests && u in w.contests[c].participants;
      var p :| p in batch && c in Finished(w, p);
      assert Entered(w, u, p, c);
    }
  }

  /** Nobody active is left out: for each problem they get its own row, or they entered a finished contest that
      contains it and get that contest's summary of this batch. */
  lemma EveryoneIsCovered(w: World, batch: set<int>, u: int, p: int)
    requires u in w.users && w.users[u].active && !w.users[u].staff && p in batch && p in w.problems
    ensures Note(u, NewProblem(p)) in Aimed(w, batch) ||
      exists c :: Entered(w, u, p, c) && Note(u, ContestProblems(c, w.digest(PartOf(w, batch, c)))) in Aimed(w, batch)
  {
    ByNameIff(w, batch, u, p);
    if c :| Entered(w, u, p, c) {
      BySummaryIff(w, batch, u, c, w.digest(PartOf(w, batch, c)));
    }
  }

  /** And nobody is told of a problem both ways. */
  lemma NobodyIsToldTwice(w: World, batch: set<int>, u: int, p: int, c: int, digest: string)
    requires p in batch && p in w.problems && c in w.problems[p]
    ensures !(Note(u, NewProblem(p)) in Aimed(w, batch) && Note(u, ContestProblems(c, digest)) in Aimed(w, batch))
  {
    ByNameIff(w, batch, u, p);
    BySummaryIff(w, batch, u, c, digest);
    if q :| q in batch && Entered(w, u, q, c) {
      assert Entered(w, u, p, c);
    }
  }

  /** A contest with problems in two batches: the later one is news to its entrants exactly when the digests of
      the two sets differ. */
  lemma LaterBatchIsNewsIff(w: World, batch: set<int>, later: set<int>, c: int, u: int)
    requires u in w.users && w.users[u].active && !w.users[u].staff
    requires exists p :: p in batch && Entered(w, u, p, c)
    requires exists p :: p in later && Entered(w, u, p, c)
    ensures var news := Note(u, ContestProblems(c, w.digest(PartOf(w, later, c))));
      && news in Aimed(w, later)
      && (news !in Aimed(w, batch) <==> w.digest(PartOf(w, later, c)) != w.digest(PartOf(w, batch, c)))
  {
    BySummaryIff(w, later, u, c, w.digest(PartOf(w, later, c)));
    BySummaryIff(w, batch, u, c, w.digest(PartOf(w, later, c)));
  }

  // ---------------------------------------------------------------- the code

  class NotificationTable {
    var rows: set<Note>

    constructor ()
      ensures rows == {}
    {
      rows := {};
    }

    /** Subtract those who have the row, insert the rest, and name exactly those who were new. */
    method CreateBulk(users: set<int>, topic: Topic) returns (recipients: set<int>)
      modifies this
      ensures forall n :: n in rows <==> n in old(rows) || (n.user in users && n.topic == topic)
      ensures forall u :: u in recipients <==> u in users && Note(u, topic) !in old(rows)
      ensures rows == old(rows) + Rows(users, topic)
      ensures recipients == Recipients(Rows(users, topic) - old(rows))
    {
      var already := set n | n in rows && n.topic == topic && n.user in users :: n.user;
      recipients := users - already;
      forall u ensures u in recipients <==> u in Recipients(Rows(users, topic) - rows) {
        assert u in already <==> u in users && Note(u, topic) in rows;
        if u in recipients { assert Note(u, topic) in Rows(users, topic) - rows; }
      }
      rows := rows + Rows(recipients, topic);
    }

    /** announce_new_problems over the problems of a batch; returns who is to be rung, each person once. */
    method AnnounceNewProblems(w: World, problems: seq<int>) returns (toRing: set<int>)
      requires Linked(w)
      modifies this
      ensures var batch := Elements(problems);
        && rows == old(rows) + Aimed(w, batch)
        && toRing == Recipients(Aimed(w, batch) - old(rows))
      ensures forall u :: u in toRing <==> exists n :: n in rows && n !in old(rows) && n.user == u
    {
      ghost var was := rows;
      ghost var batch := Elements(problems);
      var audience := Audience(w);
      if problems == [] || audience == {} {
        NobodyToTell(w, batch);
        return {};
      }
      hide ByName, ByContest, Rows, Recipients, Finished, Insiders, Covered, Sources, Noted, Audience, Elements;
      var order, entrants, covered;
      toRing, order, entrants, covered := TellByName(w, problems, audience);
      var told := Summarise(w, batch, audience, order, entrants, covered);
      RingsAddUp(was, ByName(w, batch), ByContest(w, batch, entrants.Keys));
      toRing := toRing + told;
      assert entrants.Keys == Sources(w, batch) by { NotedKeys(w, batch, entrants, covered); }
    }

    /** The batch offered once, other batches in between, and then the batch again in any order: the last call
        creates nothing and rings nobody. */
    method AnnounceTwice(w: World, problems: seq<int>, between: seq<int>, again: seq<int>)
      returns (first: set<int>, second: set<int>, ghost before: set<Note>)
      requires Linked(w) && Elements(again) == Elements(problems)
      modifies this
      ensures second == {} && rows == before
      ensures rows == old(rows) + Aimed(w, Elements(problems)) + Aimed(w, Elements(between))
      ensures first == Recipients(Aimed(w, Elements(problems)) - old(rows))
    {
      hide Aimed, Elements;
      first := AnnounceNewProblems(w, problems);
      var others := AnnounceNewProblems(w, between);
      before := rows;
      second := AnnounceNewProblems(w, again);
    }

    /** The first loop: each problem to those who never met it in a contest, and the contests it was met in.
        The two dicts list their keys as `order`, first come first. */
    method TellByName(w: World, problems: seq<int>, audience: set<int>)
      returns (toRing: set<int>, order: seq<int>, entrants: map<int, set<int>>, covered: map<int, set<int>>)
      requires Linked(w) && audience == Audience(w)
      modifies this
      ensures rows == old(rows) + ByName(w, Elements(problems))
      ensures toRing == Recipients(ByName(w, Elements(problems)) - old(rows))
      ensures Noted(w, Elements(problems), entrants, covered) && Elements(order) == entrants.Keys
    {
      ghost var was := rows;
      NothingYet(w);
      toRing, order, entrants, covered := {}, [], map[], map[];
      ghost var done: set<int> := {};
      assert {} - was == {};
      assert Elements([]) == {} && problems[..0] == [];
      hide ByName, ByContest, Rows, Recipients, Finished, Insiders, Covered, Sources, Noted, Audience, Elements;
      for i := 0 to |problems|
        invariant done == Elements(problems[..i])
        invariant Noted(w, done, entrants, covered) && Elements(order) == entrants.Keys
        invariant rows == was + ByName(w, done) && toRing == Recipients(ByName(w, done) - was)
      {
        var p := problems[i];
        TellOneMore(w, was, done, p);
        if p in w.problems {
          var insiders;
          insiders, order, entrants, covered := MeetContests(w, p, done, order, entrants, covered);
          var told := CreateBulk(audience - insiders, NewProblem(p));
          toRing := toRing + told;
        } else {
          UnknownProblem(w, done, p, entrants, covered);
        }
        ElementsStep(problems, i);
        done := done + {p};
      }
      assert problems[..|problems|] == problems;
    }

    /** The second loop: one summary per contest, to those of its entrants who are in the audience. */
    method Summarise(w: World, ghost batch: set<int>, audience: set<int>, order: seq<int>,
                     entrants: map<int, set<int>>, covered: map<int, set<int>>)
      returns (toRing: set<int>)
      requires audience == Audience(w) && Noted(w, batch, entrants, covered) && Elements(order) == entrants.Keys
      modifies this
      ensures rows == old(rows) + ByContest(w, batch, entrants.Keys)
      ensures toRing == Recipients(ByContest(w, batch, entrants.Keys) - old(rows))
    {
      ghost var was := rows;
      toRing := {};
      NoContestYet(w, batch);
      assert {} - was == {};
      hide ByContest, Rows, Recipients, Covered, Sources, Audience, Noted;
      for i := 0 to |order|
        invariant rows == was + ByContest(w, batch, Elements(order[..i]))
        invariant toRing == Recipients(ByContest(w, batch, Elements(order[..i])) - was)
      {
        var c := order[i];
        ghost var done := Elements(order[..i]);
        assert order[..i + 1] == order[..i] + [c];
        assert Elements(order[..i + 1]) == done + {c};
        assert c in Elements(order);
        OneMoreContest(w, batch, done, c);
        NotedAt(w, batch, entrants, covered, c);
        var topic := ContestProblems(c, w.digest(covered[c]));
        RingsAddUp(was, ByContest(w, batch, done), Rows(entrants[c] * audience, topic));
        var told := CreateBulk(entrants[c] * audience, topic);
        toRing := toRing + told;
      }
      assert order[..|order|] == order;
    }
  }

  /** The inner loop: the finished contests of one problem, remembered with what the batch owes them. */
  method MeetContests(w: World, p: int, ghost done: set<int>, order: seq<int>,
                      entrants: map<int, set<int>>, covered: map<int, set<int>>)
    returns (insiders: set<int>, order': seq<int>, entrants': map<int, set<int>>, covered': map<int, set<int>>)
    requires Linked(w) && p in w.problems && Noted(w, done, entrants, covered) && Elements(order) == entrants.Keys
    ensures insiders == Insiders(w, p) && Elements(order') == entrants'.Keys
    ensures Noted(w, done + {p}, entrants', covered')
  {
    insiders, order', entrants', covered' := {}, order, entrants, covered;
    var listed := w.problems[p];
    ghost var seen: set<int> := {};
    ghost var finished := Finished(w, p);
    FinishedOnes(w, p);
    NothingMet(w, p, done, entrants, covered);
    SeenOnes(listed, finished);
    hide Insiders, Finished, Entrants, Noted, Linked, Covered, Sources, Elements, Met;
    for i := 0 to |listed|
      invariant seen == Elements(listed[..i]) * finished
      invariant insiders == Entrants(w, seen) && Elements(order') == entrants'.Keys
      invariant Met(w, p, entrants, covered, seen, entrants', covered')
    {
      var c := listed[i];
      SeenStep(listed, i, finished);
      if w.contests[c].endTime < w.now {
        OneMoreEntered(w, seen, c);
        ElementsSnoc(order', c);
        MeetOne(w, p, entrants, covered, seen, entrants', covered', c);
        if c !in entrants' {
          order' := order' + [c];
          covered' := covered'[c := {}];
          entrants' := entrants'[c := w.contests[c].participants];
        }
        covered' := covered'[c := covered'[c] + {p}];
        insiders := insiders + entrants'[c];
        seen := seen + {c};
      }
    }
    InsidersAreEntrants(w, p);
    NotedStep(w, p, done, entrants, covered, entrants', covered');
  }

  lemma SeenOnes(listed: seq<int>, finished: set<int>)
    ensures Elements(listed[..0]) * finished == {}
    ensures finished <= Elements(listed) ==> Elements(listed[..|listed|]) * finished == finished
  {
    assert listed[..|listed|] == listed;
  }

  lemma SeenStep(listed: seq<int>, i: nat, finished: set<int>)
    requires i < |listed|
    ensures listed[i] in listed
    ensures var seen := Elements(listed[..i]) * finished;
      Elements(listed[..i + 1]) * finished == if listed[i] in finished then seen + {listed[i]} else seen
  {
    ElementsStep(listed, i);
  }

  /** What the batch owes contest c after these contests of problem p. */
  ghost function Owed(covered: map<int, set<int>>, finished: set<int>, p: int, c: int): set<int> {
    (if c in covered then covered[c] else {}) + (if c in finished then {p} else {})
  }

  /** The dicts after these finished contests of problem p, given what they were before it. */
  ghost predicate Met(w: World, p: int, entrants: map<int, set<int>>, covered: map<int, set<int>>, met: set<int>,
                      entrants': map<int, set<int>>, covered': map<int, set<int>>) {
    && entrants'.Keys == covered'.Keys == entrants.Keys + met
    && (forall c :: c in entrants' ==> c in w.contests && entrants'[c] == w.contests[c].participants)
    && (forall c :: c in covered' ==> covered'[c] == Owed(covered, met, p, c))
  }

  lemma MeetOne(w: World, p: int, entrants: map<int, set<int>>, covered: map<int, set<int>>, met: set<int>,
                entrants': map<int, set<int>>, covered': map<int, set<int>>, c: int)
    requires Met(w, p, entrants, covered, met, entrants', covered') && c in w.contests && entrants.Keys == covered.Keys
    ensures (c in entrants' <==> c in covered') && (c in entrants' ==> entrants'[c] == w.contests[c].participants)
    ensures var old' := if c in entrants' then covered' else covered'[c := {}];
      var new' := if c in entrants' then entrants' else entrants'[c := w.contests[c].participants];
      && c in old' && Met(w, p, entrants, covered, met + {c}, new', old'[c := old'[c] + {p}])
  {
  }

  lemma FinishedOnes(w: World, p: int)
    requires Linked(w) && p in w.problems
    ensures Finished(w, p) <= Elements(w.problems[p])
    ensures forall c :: c in w.problems[p] ==>
      c in w.contests && (c in Finished(w, p) <==> w.contests[c].endTime < w.now)
  {
  }

  lemma NothingMet(w: World, p: int, done: set<int>, entrants: map<int, set<int>>, covered: map<int, set<int>>)
    requires Noted(w, done, entrants, covered)
    ensures Entrants(w, {}) == {} && entrants.Keys == covered.Keys
    ensures Met(w, p, entrants, covered, {}, entrants, covered)
  {
  }

  lemma NotedStep(w: World, p: int, done: set<int>, entrants: map<int, set<int>>, covered: map<int, set<int>>,
                  entrants': map<int, set<int>>, covered': map<int, set<int>>)
    requires Noted(w, done, entrants, covered) && Met(w, p, entrants, covered, Finished(w, p), entrants', covered')
    ensures Noted(w, done + {p}, entrants', covered')
  {
    OneMoreProblem(w, done, p);
    hide Finished, Sources, Covered;
    forall c | c in covered' ensures covered'[c] == Covered(w, done + {p}, c) {
      NothingCovered(w, done, c);
    }
  }

  /** Everyone who took part in one of these contests. */
  function Entrants(w: World, contests: set<int>): set<int> {
    set c, u | c in contests && c in w.contests && u in w.contests[c].participants :: u
  }

  lemma OneMoreEntered(w: World, contests: set<int>, c: int)
    ensures c in w.contests ==> Entrants(w, contests + {c}) == Entrants(w, contests) + w.contests[c].participants
  {
    if c in w.contests {
      forall u | u in w.contests[c].participants ensures u in Entrants(w, contests + {c}) {
        assert c in contests + {c};
      }
      forall u | u in Entrants(w, contests) ensures u in Entrants(w, contests + {c}) {
        var d :| d in contests && d in w.contests && u in w.contests[d].participants;
        assert d in contests + {c};
      }
    }
  }

  lemma InsidersAreEntrants(w: World, p: int)
    ensures Insiders(w, p) == Entrants(w, Finished(w, p))
  {
  }

  lemma NothingCovered(w: World, done: set<int>, c: int)
    ensures c !in Sources(w, done) ==> Covered(w, done, c) == {}
  {
  }

  /** The two dicts say, for every finished contest met so far, who entered it and what of the batch it held. */
  ghost predicate Noted(w: World, done: set<int>, entrants: map<int, set<int>>, covered: map<int, set<int>>) {
    && entrants.Keys == covered.Keys == Sources(w, done)
    && (forall c :: c in entrants ==> c in w.contests && entrants[c] == w.contests[c].participants)
    && (forall c :: c in covered ==> covered[c] == Covered(w, done, c))
  }

  lemma NotedKeys(w: World, done: set<int>, entrants: map<int, set<int>>, covered: map<int, set<int>>)
    requires Noted(w, done, entrants, covered)
    ensures entrants.Keys == Sources(w, done)
  {
  }

  lemma NotedAt(w: World, done: set<int>, entrants: map<int, set<int>>, covered: map<int, set<int>>, c: int)
    requires Noted(w, done, entrants, covered) && c in entrants
    ensures c in covered && covered[c] == Covered(w, done, c)
    ensures c in w.contests && entrants[c] == w.contests[c].participants
  {
  }

  lemma NoContestYet(w: World, batch: set<int>)
    ensures ByContest(w, batch, {}) == {} && Recipients({}) == {}
  {
  }

  lemma NothingYet(w: World)
    ensures Noted(w, {}, map[], map[]) && ByName(w, {}) == {} && Recipients({}) == {}
  {
  }

  lemma UnknownProblem(w: World, done: set<int>, p: int, entrants: map<int, set<int>>, covered: map<int, set<int>>)
    requires Noted(w, done, entrants, covered) && p !in w.problems
    ensures Noted(w, done + {p}, entrants, covered)
  {
    OneMoreProblem(w, done, p);
    hide Sources, Covered;
  }

  lemma OneMoreProblem(w: World, done: set<int>, p: int)
    ensures Sources(w, done + {p}) == Sources(w, done) + Finished(w, p)
    ensures forall c :: Covered(w, done + {p}, c) == Covered(w, done, c) + (if c in Finished(w, p) then {p} else {})
    ensures ByName(w, done + {p}) == ByName(w, done)
      + (if p in w.problems then Rows(Audience(w) - Insiders(w, p), NewProblem(p)) else {})
  {
    assert p in done + {p} && forall q :: q in done ==> q in done + {p};
    forall c | c in Sources(w, done) + Finished(w, p) ensures c in Sources(w, done + {p}) {
      if c in Sources(w, done) {
        var q :| q in done && c in Finished(w, q);
        assert q in done + {p};
      }
    }
  }

  /** What the rows of one more problem add, to the table and to those to be rung. */
  lemma TellOneMore(w: World, was: set<Note>, done: set<int>, p: int)
    ensures p !in w.problems ==> ByName(w, done + {p}) == ByName(w, done)
    ensures p in w.problems ==>
      var news, more := Rows(Audience(w) - Insiders(w, p), NewProblem(p)), ByName(w, done + {p});
      && was + ByName(w, done) + news == was + more
      && Recipients(ByName(w, done) - was) + Recipients(news - (was + ByName(w, done))) == Recipients(more - was)
  {
    OneMoreProblem(w, done, p);
    hide ByName, Rows, Recipients;
    if p in w.problems {
      RingsAddUp(was, ByName(w, done), Rows(Audience(w) - Insiders(w, p), NewProblem(p)));
    }
  }

  lemma OneMoreContest(w: World, batch: set<int>, done: set<int>, c: int)
    ensures ByContest(w, batch, done + {c}) == ByContest(w, batch, done)
      + (if c in w.contests then Rows(w.contests[c].participants * Audience(w), Summary(w, batch, c)) else {})
  {
    assert c in done + {c} && forall d :: d in done ==> d in done + {c};
  }

  /** New rows counted against what was there before each insert add up to new rows over the whole. */
  lemma RingsAddUp(was: set<Note>, a: set<Note>, b: set<Note>)
    ensures Recipients(a - was) + Recipients(b - (was + a)) == Recipients((a + b) - was)
  {
    forall u | u in Recipients((a + b) - was) ensures u in Recipients(a - was) + Recipients(b - (was + a)) {
      var n :| n in (a + b) - was && n.user == u;
      assert n in a - was || n in b - (was + a);
    }
  }

  lemma NobodyToTell(w: World, batch: set<int>)
    requires batch == {} || Audience(w) == {}
    ensures Aimed(w, batch) == {}
  {
    forall n ensures n !in Aimed(w, batch) {
      match n.topic
      case NewProblem(p) => ByNameIff(w, batch, n.user, p);
      case ContestProblems(c, digest) => BySummaryIff(w, batch, n.user, c, digest);
    }
  }
}
