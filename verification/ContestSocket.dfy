/**
 "The contest has ended, results are in": a viewer's socket joins the contest's group and then checks
 whether the contest is already rated; a rating run commits and then broadcasts to the group. The two
 orders together are what keeps a viewer from waiting for an event that has already gone by.
 */
module ContestSocket {

  /** A socket in the course of connect, by its next step. */
  datatype Stage =
    | Joining            // group_add
    | Accepting          // accept
    | Checking           // is_contest_rated
    | Open               // connected and waiting
    | Told               // contest_ended sent, socket closed
    | Refused(code: int)
    | Left               // the client went away

  /** `inbox` counts contest_ended events waiting in the channel, `sent` those sent on to the client. */
  datatype Conn = Conn(stage: Stage, inbox: nat, sent: nat)

  datatype RatingRun = Selected | Committed | Over

  datatype State = State(now: int, endTime: int, rated: bool, conns: seq<Conn>, runs: seq<RatingRun>, broadcasts: nat)

  datatype Event =
    | Tick
    | Connect(authenticated: bool, contestExists: bool, participant: bool)
    | Advance(i: nat)    // the socket's next step of connect
    | Deliver(i: nat)    // the contest_ended handler
    | Leave(i: nat)
    | Select             // a task run picks the contest up
    | Commit(r: nat)     // ratings and announcement commit
    | Broadcast(r: nat)
    | FailRun(r: nat)    // rollback, or an error before or in the broadcast

  predicate InGroup(c: Conn) {
    c.stage.Accepting? || c.stage.Checking? || c.stage.Open?
  }

  predicate IsRated(s: State) { s.rated && s.endTime < s.now }

  /** A socket as its first checks leave it: turned away with a code, or about to join the group. */
  function Admitted(authenticated: bool, contestExists: bool, participant: bool): Conn {
    Conn(if !authenticated then Refused(4001) else if !contestExists then Refused(4004)
         else if !participant then Refused(4003) else Joining, 0, 0)
  }

  /** The next step of connect; `rated` is what is_contest_rated answers at this moment. */
  function Advanced(rated: bool, c: Conn): Conn {
    match c.stage
    case Joining => c.(stage := Accepting)
    case Accepting => c.(stage := Checking)
    case Checking => if rated then c.(stage := Told, sent := c.sent + 1) else c.(stage := Open)
    case _ => c
  }

  /** The contest_ended handler takes one event, passes it on and closes. */
  function Delivered(c: Conn): Conn {
    if c.stage.Open? && c.inbox > 0 then Conn(Told, c.inbox - 1, c.sent + 1) else c
  }

  function Rung(cs: seq<Conn>): seq<Conn> {
    seq(|cs|, i requires 0 <= i < |cs| => if InGroup(cs[i]) then cs[i].(inbox := cs[i].inbox + 1) else cs[i])
  }

  function Next(s: State, e: Event): State {
    match e
    case Tick => s.(now := s.now + 1)
    case Connect(authenticated, contestExists, participant) =>
      s.(conns := s.conns + [Admitted(authenticated, contestExists, participant)])
    case Advance(i) => if i < |s.conns| then s.(conns := s.conns[i := Advanced(IsRated(s), s.conns[i])]) else s
    case Deliver(i) => if i < |s.conns| then s.(conns := s.conns[i := Delivered(s.conns[i])]) else s
    case Leave(i) => if i < |s.conns| then s.(conns := s.conns[i := s.conns[i].(stage := Left)]) else s
    case Select => if s.endTime < s.now && !s.rated then s.(runs := s.runs + [Selected]) else s
    case Commit(r) =>
      if r < |s.runs| && s.runs[r].Selected? then s.(rated := true, runs := s.runs[r := Committed]) else s
    case Broadcast(r) =>
      if r < |s.runs| && s.runs[r].Committed? then
        s.(conns := Rung(s.conns), runs := s.runs[r := Over], broadcasts := s.broadcasts + 1)
      else s
    case FailRun(r) => if r < |s.runs| then s.(runs := s.runs[r := Over]) else s
  }

  function Run(s: State, es: seq<Event>): State
    decreases |es|
  {
    if es == [] then s else Run(Next(s, es[0]), es[1..])
  }

  function Init(now: int, endTime: int): State {
    State(now, endTime, false, [], [], 0)
  }

  /** A socket waiting in the group has every broadcast there has been; a told one was told. */
  predicate ConnOk(s: State, i: nat) {
    i < |s.conns| ==>
      var c := s.conns[i];
      && (c.stage.Open? ==> c.inbox == s.broadcasts)
      && (c.stage.Told? ==> c.sent >= 1)
      && (InGroup(c) && s.broadcasts == 0 ==> c.inbox == 0)
      && (c.stage.Joining? ==> c.inbox == 0)
  }

  predicate RunOk(s: State, r: nat) {
    r < |s.runs| ==> (s.runs[r].Selected? ==> s.endTime < s.now) && (s.runs[r].Committed? ==> IsRated(s))
  }

  /** Broadcasts come after a commit, and a commit only after the end of the contest. */
  ghost predicate Ordered(s: State) {
    && (s.broadcasts > 0 ==> IsRated(s)) && (s.rated ==> s.endTime < s.now)
    && (forall i: nat :: ConnOk(s, i)) && (forall r: nat :: RunOk(s, r))
  }

  lemma StepKeepsOrder(s: State, e: Event)
    requires Ordered(s)
    ensures Ordered(Next(s, e))
  {
    var t := Next(s, e);
    if e.Commit? || e.Broadcast? || e.FailRun? { assert RunOk(s, e.r); }
    forall i: nat ensures ConnOk(t, i) { assert ConnOk(s, i); }
    forall r: nat ensures RunOk(t, r) { assert RunOk(s, r); }
  }

  lemma {:induction false} RunKeepsOrder(s: State, es: seq<Event>)
    requires Ordered(s)
    ensures Ordered(Run(s, es))
    decreases |es|
  {
    if es != [] {
      StepKeepsOrder(s, es[0]);
      RunKeepsOrder(Next(s, es[0]), es[1..]);
    }
  }

  /** How often a broadcast step of a committed run is in the schedule. */
  function TimesBroadcast(s: State, es: seq<Event>): nat
    decreases |es|
  {
    if es == [] then 0 else
    (if es[0].Broadcast? && es[0].r < |s.runs| && s.runs[es[0].r].Committed? then 1 else 0)
    + TimesBroadcast(Next(s, es[0]), es[1..])
  }

  lemma {:induction false} BroadcastsAreCounted(s: State, es: seq<Event>)
    ensures Run(s, es).broadcasts == s.broadcasts + TimesBroadcast(s, es)
    decreases |es|
  {
    if es != [] {
      BroadcastsAreCounted(Next(s, es[0]), es[1..]);
    }
  }

  /** No lost contest_ended, for every interleaving: a connected socket has one event waiting for each broadcast
      step so far, so once any has run the handler tells it; and one closed as told has been told. */
  lemma NoLostContestEnded(now: int, endTime: int, es: seq<Event>, i: nat)
    ensures var s, broadcasts := Run(Init(now, endTime), es), TimesBroadcast(Init(now, endTime), es);
      i < |s.conns| ==>
        && (s.conns[i].stage.Open? ==> s.conns[i].inbox == broadcasts)
        && (s.conns[i].stage.Open? && broadcasts > 0 ==> Next(s, Deliver(i)).conns[i].sent >= 1)
        && (s.conns[i].stage.Told? ==> s.conns[i].sent >= 1)
  {
    RunKeepsOrder(Init(now, endTime), es);
    BroadcastsAreCounted(Init(now, endTime), es);
    assert ConnOk(Run(Init(now, endTime), es), i);
  }

  /** And none too early: whoever has been told, the contest is over and its ratings are committed. */
  lemma {:induction false} ToldOnlyWhenRated(s: State, es: seq<Event>, i: nat)
    requires Ordered(s) && (i < |s.conns| && s.conns[i].sent > 0 ==> s.rated && s.endTime < s.now)
    ensures var t := Run(s, es);
      i < |t.conns| && t.conns[i].sent > 0 ==> t.rated && t.endTime < t.now
    decreases |es|
  {
    if es != [] {
      StepKeepsOrder(s, es[0]);
      assert ConnOk(s, i);
      ToldOnlyWhenRated(Next(s, es[0]), es[1..], i);
    }
  }

  /** And it does come: once the contest is over, one run of the task from picking it up to its broadcast leaves
      every waiting socket with the event, and the socket's handler passes it on. */
  lemma TaskTellsTheWaiting(s: State, i: nat)
    requires i < |s.conns| && s.conns[i].stage.Open? && s.endTime < s.now && !s.rated
    ensures var r := |s.runs|;
      var t := Next(Next(Next(Next(s, Select), Commit(r)), Broadcast(r)), Deliver(i));
      && t.rated && i < |t.conns| && t.conns[i].stage.Told? && t.conns[i].sent == s.conns[i].sent + 1
  {
    var r := |s.runs|;
    var s2 := Next(Next(s, Select), Commit(r));
    assert s2.runs == s.runs + [Committed] && s2.conns == s.conns;
    var s3 := Next(s2, Broadcast(r));
    assert s3.conns[i] == s.conns[i].(inbox := s.conns[i].inbox + 1);
  }

  // ---------------------------------------------------------------- the consumer's own code

  /** One socket. Its methods run the steps above in order, with nobody in between. */
  class Consumer {
    var stage: Stage
    var inbox: nat
    var sent: nat
    ghost var path: seq<Stage> // the stages gone through, in order

    function View(): Conn
      reads this
    {
      Conn(stage, inbox, sent)
    }

    constructor ()
      ensures View() == Conn(Joining, 0, 0) && path == [Joining]
    {
      stage, inbox, sent, path := Joining, 0, 0, [Joining];
    }

    method Enter(next: Stage)
      modifies this`stage, this`path
      ensures stage == next && path == old(path) + [next]
    {
      stage, path := next, path + [next];
    }

    /** connect: the checks, then join the group, then accept, and only then ask whether it is all over. */
    method Connect(authenticated: bool, contestExists: bool, participant: bool, rated: bool)
      requires View() == Conn(Joining, 0, 0) && path == [Joining]
      modifies this
      ensures var admitted := Admitted(authenticated, contestExists, participant);
        View() == Advanced(rated, Advanced(rated, Advanced(rated, admitted)))
      ensures path == if authenticated && contestExists && participant
        then [Joining, Accepting, Checking, if rated then Told else Open]
        else [Joining, Refused(if !authenticated then 4001 else if !contestExists then 4004 else 4003)]
      ensures stage.Open? <==> authenticated && contestExists && participant && !rated
      ensures sent == if authenticated && contestExists && participant && rated then 1 else 0
    {
      if !authenticated {
        Enter(Refused(4001));
        return;
      }
      if !contestExists {
        Enter(Refused(4004));
        return;
      }
      if !participant {
        Enter(Refused(4003));
        return;
      }
      Enter(Accepting);
      Enter(Checking);
      if rated {
        sent := sent + 1;
        Enter(Told);
      } else {
        Enter(Open);
      }
    }

    method ContestEnded()
      requires stage.Open? && inbox > 0
      modifies this
      ensures View() == Delivered(old(View())) && stage.Told? && sent == old(sent) + 1
      ensures path == old(path) + [Told]
    {
      inbox := inbox - 1;
      sent := sent + 1;
      Enter(Told);
    }
  }
}
