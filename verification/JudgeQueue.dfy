/**
 The judge queue as a protocol: any number of workers over shared Redis lists, one Redis
 command per step. Every theorem here is about `Run(s, es)` for an arbitrary schedule `es`;
 an event that is not possible in a state leaves the state alone, so no schedule is excluded.
 */
module JudgeQueue {
  import opened Schemas

  /** The slot number of a worker. A name carries a random tail, so it is never handed out twice. */
  type WorkerId = nat

  /** A raw queue entry, split by whether it parses as a submission request. */
  datatype Payload = Malformed(text: string) | Request(id: int, body: string)

  /** What `run_submission` did: it returned a verdict, or it raised. */
  datatype Outcome = Returned(verdict: Verdict) | Raised

  /** An entry of the results list. The payload it answers and the reason stand for the submission id and text. */
  datatype Answer = Answer(source: Payload, verdict: Verdict, overLimit: bool)

  /** Where a worker's queue loop is: the name says what its next command is for. */
  datatype Pc =
    | Starting                                  // announced; sweeps once before the loops start
    | Polling                                   // BLMOVE from the queue
    | Parsing(raw: Payload)                     // INCR the counter, or RPUSH a malformed payload to dead
    | Dropping(raw: Payload)                    // LREM a dead-lettered malformed payload
    | Counted(raw: Payload, attempts: nat)      // EXPIRE the counter, then branch on the count
    | Judging(raw: Payload)                     // run_submission
    | OverLimit(raw: Payload)                   // RPUSH to dead
    | Answering(raw: Payload, verdict: Verdict) // RPUSH the result of judging
    | Refusing(raw: Payload)                    // RPUSH the internal-failure result
    | Removing(raw: Payload, over: bool)        // LREM from the own list
    | Clearing(raw: Payload, over: bool)        // DELETE the counter
    | BackingOff                                // asleep after a Redis error
    | Stopping                                  // tasks cancelled, heartbeat not yet withdrawn
    | Gone

  /** Where a worker's sweep over other workers' lists is. */
  datatype Sweep = Idle | Found(owner: WorkerId) | Draining(owner: WorkerId)

  datatype Slot = Slot(list: seq<Payload>, pc: Pc, sweep: Sweep)

  /** The Redis keys, the workers, and four histories (`pushed`, `removed`, `drained`, `finishedOver`). */
  datatype State = State(
    limit: nat,
    queue: seq<Payload>,
    slots: seq<Slot>,
    beats: set<WorkerId>,
    attempts: map<int, nat>,
    results: seq<Answer>,
    dead: seq<Payload>,
    pushed: seq<Payload>,
    removed: seq<Payload>,
    drained: seq<Payload>,
    finishedOver: seq<Payload>)

  datatype Event =
    | Submit(p: Payload)                        // the web side pushes a submission
    | Boot                                      // a new worker announces itself
    | Open(w: WorkerId)                         // its first sweep is over, its loops start
    | Take(w: WorkerId)                         // BLMOVE
    | Work(w: WorkerId)                         // the next command of handle_one
    | Judge(w: WorkerId, outcome: Outcome)
    | Fail(w: WorkerId)                         // a Redis error caught by worker_loop
    | Cancel(w: WorkerId)
    | Withdraw(w: WorkerId)
    | Crash(w: WorkerId)
    | Beat(w: WorkerId)
    | Expire(w: WorkerId)                       // the heartbeat key runs out
    | CounterExpire(id: int)
    | Scan(w: WorkerId, owner: WorkerId)        // the sweep comes to a list
    | Check(w: WorkerId)                        // EXISTS on its owner's heartbeat
    | Drain(w: WorkerId)                        // LMOVE back to the queue
    | SweepFail(w: WorkerId)

  const INTERNAL_FAILURE := RE

  function Init(limit: nat): State {
    State(limit, [], [], {}, map[], [], [], [], [], [], [])
  }

  predicate Running(slot: Slot) {
    !slot.pc.Stopping? && !slot.pc.Gone?
  }

  predicate HoldsPayload(pc: Pc) {
    pc.Parsing? || pc.Dropping? || pc.Counted? || pc.Judging? || pc.OverLimit? || pc.Answering?
    || pc.Refusing? || pc.Removing? || pc.Clearing?
  }

  function VerdictOf(outcome: Outcome): Verdict {
    match outcome
    case Returned(v) => v
    case Raised => INTERNAL_FAILURE
  }

  /** LREM key 1 p: without the first entry equal to `p`, if there is one. */
  function Without(ps: seq<Payload>, p: Payload): seq<Payload> {
    if ps == [] then []
    else if ps[0] == p then ps[1..]
    else [ps[0]] + Without(ps[1..], p)
  }

  function Attempts(s: State, id: int): nat {
    if id in s.attempts then s.attempts[id] else 0
  }

  function AtPc(s: State, w: WorkerId, pc: Pc): State
    requires w < |s.slots|
  {
    s.(slots := s.slots[w := s.slots[w].(pc := pc)])
  }

  function AtSweep(s: State, w: WorkerId, sweep: Sweep): State
    requires w < |s.slots|
  {
    s.(slots := s.slots[w := s.slots[w].(sweep := sweep)])
  }

  function TakeFirst(s: State, w: WorkerId): State
    requires w < |s.slots| && s.queue != []
  {
    s.(queue := s.queue[1..],
       slots := s.slots[w := s.slots[w].(list := s.slots[w].list + [s.queue[0]], pc := Parsing(s.queue[0]))])
  }

  /** LREM on the worker's own list, then on to `pc`. */
  function RemoveOwn(s: State, w: WorkerId, raw: Payload, pc: Pc): State
    requires w < |s.slots|
  {
    var list := s.slots[w].list;
    s.(slots := s.slots[w := s.slots[w].(list := Without(list, raw), pc := pc)],
       removed := if raw in list then s.removed + [raw] else s.removed)
  }

  /** The command that follows from the worker's place in handle_one and _finish. */
  function WorkStep(s: State, w: WorkerId): State
    requires w < |s.slots|
  {
    match s.slots[w].pc
    case Parsing(raw) =>
      if raw.Malformed? then
        AtPc(s.(dead := s.dead + [raw]), w, Dropping(raw))
      else
        var n := Attempts(s, raw.id) + 1;
        AtPc(s.(attempts := s.attempts[raw.id := n]), w, Counted(raw, n))
    case Dropping(raw) => RemoveOwn(s, w, raw, Polling)
    case Counted(raw, n) => AtPc(s, w, if n > s.limit then OverLimit(raw) else Judging(raw))
    case OverLimit(raw) => AtPc(s.(dead := s.dead + [raw]), w, Refusing(raw))
    case Answering(raw, v) => AtPc(s.(results := s.results + [Answer(raw, v, false)]), w, Removing(raw, false))
    case Refusing(raw) =>
      AtPc(s.(results := s.results + [Answer(raw, INTERNAL_FAILURE, true)]), w, Removing(raw, true))
    case Removing(raw, over) => RemoveOwn(s, w, raw, Clearing(raw, over))
    case Clearing(raw, over) =>
      var s1 := if raw.Request? then s.(attempts := s.attempts - {raw.id}) else s;
      AtPc(if over then s1.(finishedOver := s1.finishedOver + [raw]) else s1, w, Polling)
    case BackingOff => AtPc(s, w, Polling)
    case _ => s
  }

  function DrainStep(s: State, w: WorkerId): State
    requires w < |s.slots| && s.slots[w].sweep.Draining?
  {
    var o := s.slots[w].sweep.owner;
    if o < |s.slots| && s.slots[o].list != [] then
      var p := s.slots[o].list[0];
      s.(queue := [p] + s.queue,
         slots := s.slots[o := s.slots[o].(list := s.slots[o].list[1..])],
         drained := s.drained + [p])
    else
      AtSweep(s, w, Idle)
  }

  /** Whether the event can happen: its worker exists and is where the event needs it. */
  predicate Can(s: State, e: Event) {
    match e
    case Submit(_) | Boot | CounterExpire(_) | Expire(_) => true
    case Open(w) => w < |s.slots| && s.slots[w].pc.Starting? && s.slots[w].sweep.Idle?
    case Take(w) => w < |s.slots| && s.slots[w].pc.Polling? && s.queue != []
    case Work(w) =>
      w < |s.slots| && ((HoldsPayload(s.slots[w].pc) && !s.slots[w].pc.Judging?) || s.slots[w].pc.BackingOff?)
    case Judge(w, _) => w < |s.slots| && s.slots[w].pc.Judging?
    case Fail(w) => w < |s.slots| && (HoldsPayload(s.slots[w].pc) || s.slots[w].pc.Polling?)
    case Cancel(w) => w < |s.slots| && Running(s.slots[w]) && !s.slots[w].pc.Starting?
    case Withdraw(w) => w < |s.slots| && s.slots[w].pc.Stopping?
    case Crash(w) => w < |s.slots|
    case Beat(w) => w < |s.slots| && Running(s.slots[w])
    case Scan(w, o) =>
      w < |s.slots| && Running(s.slots[w]) && s.slots[w].sweep.Idle? && o != w && o < |s.slots|
    case Check(w) => w < |s.slots| && Running(s.slots[w]) && s.slots[w].sweep.Found?
    case Drain(w) => w < |s.slots| && Running(s.slots[w]) && s.slots[w].sweep.Draining?
    case SweepFail(w) => w < |s.slots| && Running(s.slots[w])
  }

  function Next(s: State, e: Event): State {
    if !Can(s, e) then s else
    match e
    case Submit(p) => s.(queue := s.queue + [p], pushed := s.pushed + [p])
    case Boot => s.(slots := s.slots + [Slot([], Starting, Idle)], beats := s.beats + {|s.slots|})
    case Open(w) => AtPc(s, w, Polling)
    case Take(w) => TakeFirst(s, w)
    case Work(w) => WorkStep(s, w)
    case Judge(w, outcome) => AtPc(s, w, Answering(s.slots[w].pc.raw, VerdictOf(outcome)))
    case Fail(w) => AtPc(s, w, BackingOff)
    case Cancel(w) => AtSweep(AtPc(s, w, Stopping), w, Idle)
    case Withdraw(w) => AtPc(s.(beats := s.beats - {w}), w, Gone)
    case Crash(w) => AtSweep(AtPc(s, w, Gone), w, Idle)
    case Beat(w) => s.(beats := s.beats + {w})
    case Expire(w) => s.(beats := s.beats - {w})
    case CounterExpire(id) => s.(attempts := s.attempts - {id})
    case Scan(w, o) => AtSweep(s, w, Found(o))
    case Check(w) =>
      var o := s.slots[w].sweep.owner;
      AtSweep(s, w, if o in s.beats then Idle else Draining(o))
    case Drain(w) => DrainStep(s, w)
    case SweepFail(w) => AtSweep(s, w, Idle)
  }

  function Run(s: State, es: seq<Event>): State
    decreases |es|
  {
    if es == [] then s else Run(Next(s, es[0]), es[1..])
  }

  lemma {:induction false} RunSnoc(s: State, es: seq<Event>, e: Event)
    ensures Run(s, es + [e]) == Next(Run(s, es), e)
    decreases |es|
  {
    if es == [] {
      assert Run(s, [e]) == Run(Next(s, e), [e][1..]);
    } else {
      assert (es + [e])[1..] == es[1..] + [e];
      RunSnoc(Next(s, es[0]), es[1..], e);
    }
  }

  // ---------------------------------------------------------------- counting

  /** What is being counted: one payload, or every request for one submission id. */
  datatype Selection = Only(p: Payload) | ForId(id: int)

  predicate Picks(sel: Selection, p: Payload) {
    match sel
    case Only(q) => p == q
    case ForId(id) => p.Request? && p.id == id
  }

  function One(b: bool): nat { if b then 1 else 0 }

  function Count(ps: seq<Payload>, sel: Selection): nat {
    if ps == [] then 0 else One(Picks(sel, ps[0])) + Count(ps[1..], sel)
  }

  /** Entries of the results list for the selection. */
  function Results(rs: seq<Answer>, sel: Selection): nat {
    if rs == [] then 0 else Results(rs[..|rs| - 1], sel) + One(Picks(sel, rs[|rs| - 1].source))
  }

  /** Entries of the results list that report a payload as past its attempts, as an RE. */
  function Refusals(rs: seq<Answer>, sel: Selection): nat {
    if rs == [] then 0 else
    var a := rs[|rs| - 1];
    Refusals(rs[..|rs| - 1], sel) + One(Picks(sel, a.source) && a.overLimit && a.verdict == RE)
  }

  /** Dead letters for the selection, malformed payloads and requests apart. */
  function DeadLetters(ps: seq<Payload>, sel: Selection, malformed: bool): nat {
    if ps == [] then 0 else
    var p := ps[|ps| - 1];
    DeadLetters(ps[..|ps| - 1], sel, malformed) + One(Picks(sel, p) && p.Malformed? == malformed)
  }

  /** Answers given: results, and for a malformed payload its dead letter. */
  function Answered(s: State, sel: Selection): nat {
    Results(s.results, sel) + DeadLetters(s.dead, sel, true)
  }

  /** What a worker slot contributes to each of the running counts. */
  datatype Measure =
    | Listed | Unanswered | Unremoved | DeadLettered | Refused | Admitted(limit: nat) | Judged(verdict: Verdict)

  function Weigh(slot: Slot, sel: Selection, m: Measure): nat {
    match m
    case Listed => Count(slot.list, sel)
    case Unanswered =>
      (match slot.pc
       case Parsing(p) => One(Picks(sel, p))
       case Counted(p, _) => One(Picks(sel, p))
       case Judging(p) => One(Picks(sel, p))
       case OverLimit(p) => One(Picks(sel, p))
       case Answering(p, _) => One(Picks(sel, p))
       case Refusing(p) => One(Picks(sel, p))
       case _ => 0)
    case Unremoved =>
      (match slot.pc
       case Dropping(p) => One(Picks(sel, p))
       case Removing(p, _) => One(Picks(sel, p))
       case _ => 0)
    case DeadLettered =>
      (match slot.pc case Refusing(p) => One(Picks(sel, p)) case _ => 0)
    case Refused =>
      (match slot.pc
       case Removing(p, over) => One(Picks(sel, p) && over)
       case Clearing(p, over) => One(Picks(sel, p) && over)
       case _ => 0)
    case Admitted(limit) =>
      (match slot.pc case Counted(p, n) => One(Picks(sel, p) && n <= limit) case _ => 0)
    case Judged(verdict) =>
      (match slot.pc case Answering(p, v) => One(Picks(sel, p) && v == verdict) case _ => 0)
  }

  function Tally(slots: seq<Slot>, sel: Selection, m: Measure): nat {
    if slots == [] then 0 else Tally(slots[..|slots| - 1], sel, m) + Weigh(slots[|slots| - 1], sel, m)
  }

  lemma {:induction false} CountAppend(a: seq<Payload>, b: seq<Payload>, sel: Selection)
    ensures Count(a + b, sel) == Count(a, sel) + Count(b, sel)
  {
    if a == [] {
      assert a + b == b;
    } else {
      assert (a + b)[1..] == a[1..] + b;
      CountAppend(a[1..], b, sel);
    }
  }

  lemma CountHead(ps: seq<Payload>, sel: Selection)
    requires ps != []
    ensures Count(ps, sel) == One(Picks(sel, ps[0])) + Count(ps[1..], sel)
  {
  }

  lemma CountSnoc(a: seq<Payload>, p: Payload, sel: Selection)
    ensures Count(a + [p], sel) == Count(a, sel) + One(Picks(sel, p))
  {
    CountAppend(a, [p], sel);
    assert Count([p][1..], sel) == 0;
  }

  /** LREM takes out one entry if there is one, and nothing else. */
  lemma {:induction false} CountWithout(ps: seq<Payload>, p: Payload, sel: Selection)
    ensures Count(Without(ps, p), sel) == Count(ps, sel) - One(p in ps && Picks(sel, p))
  {
    if ps != [] && ps[0] != p {
      CountWithout(ps[1..], p, sel);
      assert Without(ps, p) == [ps[0]] + Without(ps[1..], p);
      assert Without(ps, p)[1..] == Without(ps[1..], p);
      assert p in ps <==> p in ps[1..];
    }
  }

  lemma {:induction false} CountZero(ps: seq<Payload>, p: Payload)
    ensures Count(ps, Only(p)) == 0 <==> p !in ps
  {
    if ps != [] {
      CountZero(ps[1..], p);
      assert p in ps <==> ps[0] == p || p in ps[1..];
    }
  }

  lemma {:induction false} TallySet(slots: seq<Slot>, w: WorkerId, slot: Slot, sel: Selection, m: Measure)
    requires w < |slots|
    ensures Tally(slots[w := slot], sel, m) == Tally(slots, sel, m) - Weigh(slots[w], sel, m) + Weigh(slot, sel, m)
  {
    var n := |slots| - 1;
    if w == n {
      assert slots[w := slot][..n] == slots[..n];
    } else {
      TallySet(slots[..n], w, slot, sel, m);
      assert slots[w := slot][..n] == slots[..n][w := slot];
    }
  }

  // ---------------------------------------------------------------- the accounts, kept by every step

  /** Nothing lost; removed only when answered; answered once per pickup; refused only when dead-lettered. */
  predicate Accounted(s: State, sel: Selection) {
    && Count(s.pushed, sel) == Count(s.queue, sel) + Tally(s.slots, sel, Listed) + Count(s.removed, sel)
    && Count(s.removed, sel) + Tally(s.slots, sel, Unremoved) <= Answered(s, sel)
    && Answered(s, sel) + Tally(s.slots, sel, Unanswered) + Count(s.queue, sel)
         <= Count(s.pushed, sel) + Count(s.drained, sel)
    && Count(s.finishedOver, sel) + Tally(s.slots, sel, Refused) <= Refusals(s.results, sel)
    && Refusals(s.results, sel) + Tally(s.slots, sel, DeadLettered) <= DeadLetters(s.dead, sel, false)
  }

  /** Requests only past parsing, malformed payloads only where they are dropped. */
  predicate Sorted(s: State) {
    forall w: nat :: w < |s.slots| ==> SortedPc(s.slots[w].pc)
  }

  predicate SortedPc(pc: Pc) {
    match pc
    case Dropping(p) => p.Malformed?
    case Counted(p, _) => p.Request?
    case Judging(p) => p.Request?
    case OverLimit(p) => p.Request?
    case Answering(p, _) => p.Request?
    case Refusing(p) => p.Request?
    case Removing(p, _) => p.Request?
    case Clearing(p, _) => p.Request?
    case _ => true
  }

  lemma WorkSorted(s: State, w: WorkerId)
    requires w < |s.slots| && SortedPc(s.slots[w].pc)
    ensures w < |WorkStep(s, w).slots| && SortedPc(WorkStep(s, w).slots[w].pc)
  {
    hide Without, Attempts;
  }

  lemma SortedStep(s: State, e: Event)
    requires Sorted(s)
    ensures Sorted(Next(s, e))
  {
    hide WorkStep, DrainStep;
    if Can(s, e) {
      if e.Work? {
        WorkKeepsWorkers(s, e.w);
        WorkSorted(s, e.w);
      } else if e.Drain? {
        DrainTouchesOne(s, e.w);
      }
    }
  }

  /** Replacing one slot moves each tally by that slot's own contribution. */
  lemma TalliesSet(s: State, t: State, w: WorkerId, sel: Selection)
    requires w < |s.slots| == |t.slots| && t.slots == s.slots[w := t.slots[w]]
    ensures Moved(s, t, w, sel, Listed) && Moved(s, t, w, sel, Unanswered) && Moved(s, t, w, sel, Unremoved)
    ensures Moved(s, t, w, sel, DeadLettered) && Moved(s, t, w, sel, Refused)
  {
    TallySet(s.slots, w, t.slots[w], sel, Listed);
    TallySet(s.slots, w, t.slots[w], sel, Unanswered);
    TallySet(s.slots, w, t.slots[w], sel, Unremoved);
    TallySet(s.slots, w, t.slots[w], sel, DeadLettered);
    TallySet(s.slots, w, t.slots[w], sel, Refused);
  }

  /** A freshly booted worker adds nothing to any tally. */
  lemma TallyBoot(s: State, t: State, sel: Selection)
    requires t.slots == s.slots + [Slot([], Starting, Idle)]
    ensures Tally(t.slots, sel, Listed) == Tally(s.slots, sel, Listed)
    ensures Tally(t.slots, sel, Unanswered) == Tally(s.slots, sel, Unanswered)
    ensures Tally(t.slots, sel, Unremoved) == Tally(s.slots, sel, Unremoved)
    ensures Tally(t.slots, sel, DeadLettered) == Tally(s.slots, sel, DeadLettered)
    ensures Tally(t.slots, sel, Refused) == Tally(s.slots, sel, Refused)
  {
    assert t.slots[..|s.slots|] == s.slots;
  }

  predicate Moved(s: State, t: State, w: WorkerId, sel: Selection, m: Measure)
    requires w < |s.slots| == |t.slots|
  {
    Tally(t.slots, sel, m) - Weigh(t.slots[w], sel, m) == Tally(s.slots, sel, m) - Weigh(s.slots[w], sel, m)
  }

  lemma ResultsAppend(rs: seq<Answer>, a: Answer, sel: Selection)
    ensures Results(rs + [a], sel) == Results(rs, sel) + One(Picks(sel, a.source))
    ensures Refusals(rs + [a], sel) == Refusals(rs, sel) + One(Picks(sel, a.source) && a.overLimit && a.verdict == RE)
  {
    assert (rs + [a])[..|rs|] == rs;
  }

  lemma DeadAppend(ps: seq<Payload>, p: Payload, sel: Selection, malformed: bool)
    ensures DeadLetters(ps + [p], sel, malformed)
         == DeadLetters(ps, sel, malformed) + One(Picks(sel, p) && p.Malformed? == malformed)
  {
    assert (ps + [p])[..|ps|] == ps;
  }

  lemma RemoveKeepsAccounts(s: State, w: WorkerId, sel: Selection)
    requires Accounted(s, sel) && Sorted(s) && w < |s.slots| && (s.slots[w].pc.Dropping? || s.slots[w].pc.Removing?)
    ensures Accounted(WorkStep(s, w), sel)
  {
    hide Tally, Count, Results, Refusals, DeadLetters;
    var t := WorkStep(s, w);
    var raw := s.slots[w].pc.raw;
    TalliesSet(s, t, w, sel);
    CountWithout(s.slots[w].list, raw, sel);
    CountSnoc(s.removed, raw, sel);
  }

  lemma LetterKeepsAccounts(s: State, w: WorkerId, sel: Selection)
    requires Accounted(s, sel) && Sorted(s) && w < |s.slots| && (s.slots[w].pc.Parsing? || s.slots[w].pc.OverLimit?)
    ensures Accounted(WorkStep(s, w), sel)
  {
    hide Tally, Count, Results, Refusals, DeadLetters, Without, Attempts;
    var pc := s.slots[w].pc;
    assert SortedPc(pc);
    TalliesSet(s, WorkStep(s, w), w, sel);
    DeadAppend(s.dead, pc.raw, sel, true);
    DeadAppend(s.dead, pc.raw, sel, false);
  }

  lemma AnswerKeepsAccounts(s: State, w: WorkerId, sel: Selection)
    requires Accounted(s, sel) && Sorted(s) && w < |s.slots| && (s.slots[w].pc.Answering? || s.slots[w].pc.Refusing?)
    ensures Accounted(WorkStep(s, w), sel)
  {
    hide Tally, Count, Results, Refusals, DeadLetters, Without, Attempts;
    var pc := s.slots[w].pc;
    assert SortedPc(pc);
    TalliesSet(s, WorkStep(s, w), w, sel);
    if pc.Answering? {
      ResultsAppend(s.results, Answer(pc.raw, pc.verdict, false), sel);
    } else {
      ResultsAppend(s.results, Answer(pc.raw, INTERNAL_FAILURE, true), sel);
    }
  }

  lemma WorkKeepsAccounts(s: State, w: WorkerId, sel: Selection)
    requires Accounted(s, sel) && Sorted(s) && w < |s.slots|
    ensures Accounted(WorkStep(s, w), sel)
  {
    hide Tally, Count, Results, Refusals, DeadLetters, Without, Attempts;
    var pc := s.slots[w].pc;
    if pc.Dropping? || pc.Removing? {
      RemoveKeepsAccounts(s, w, sel);
    } else if pc.Parsing? || pc.OverLimit? {
      LetterKeepsAccounts(s, w, sel);
    } else if pc.Answering? || pc.Refusing? {
      AnswerKeepsAccounts(s, w, sel);
    } else {
      TalliesSet(s, WorkStep(s, w), w, sel);
      if pc.Clearing? {
        CountSnoc(s.finishedOver, pc.raw, sel);
      }
    }
  }

  lemma WeighList(slot: Slot, list: seq<Payload>, sel: Selection, m: Measure)
    ensures Weigh(slot.(list := list), sel, m) == if m.Listed? then Count(list, sel) else Weigh(slot, sel, m)
  {
  }

  /** Replacing one worker's list moves only the copies. */
  lemma TalliesSetList(s: State, t: State, o: WorkerId, list: seq<Payload>, sel: Selection)
    requires o < |s.slots| && t.slots == s.slots[o := s.slots[o].(list := list)]
    ensures Tally(t.slots, sel, Listed) == Tally(s.slots, sel, Listed) - Count(s.slots[o].list, sel) + Count(list, sel)
    ensures forall m: Measure :: !m.Listed? ==> Tally(t.slots, sel, m) == Tally(s.slots, sel, m)
  {
    hide Tally, Count;
    forall m: Measure
      ensures Tally(t.slots, sel, m)
           == Tally(s.slots, sel, m) + if m.Listed? then Count(list, sel) - Count(s.slots[o].list, sel) else 0
    {
      TallySet(s.slots, o, s.slots[o].(list := list), sel, m);
      WeighList(s.slots[o], list, sel, m);
    }
  }

  lemma DrainKeepsAccounts(s: State, w: WorkerId, sel: Selection)
    requires Accounted(s, sel) && w < |s.slots| && s.slots[w].sweep.Draining?
    ensures Accounted(DrainStep(s, w), sel)
  {
    hide Tally, Count, Results, Refusals, DeadLetters;
    var t := DrainStep(s, w);
    var o := s.slots[w].sweep.owner;
    if o < |s.slots| && s.slots[o].list != [] {
      var p := s.slots[o].list[0];
      TalliesSetList(s, t, o, s.slots[o].list[1..], sel);
      assert ([p] + s.queue)[1..] == s.queue;
      CountHead([p] + s.queue, sel);
      CountHead(s.slots[o].list, sel);
      CountSnoc(s.drained, p, sel);
    } else {
      TalliesSet(s, t, w, sel);
    }
  }

  lemma MoveKeepsAccounts(s: State, e: Event, sel: Selection)
    requires Accounted(s, sel) && Can(s, e)
    requires e.Open? || e.Judge? || e.Fail? || e.Cancel? || e.Withdraw? || e.Crash?
    ensures Accounted(Next(s, e), sel)
  {
    hide Tally, Count, Results, Refusals, DeadLetters, WorkStep, DrainStep, TakeFirst, Running;
    TalliesSet(s, Next(s, e), e.w, sel);
  }

  lemma SweepKeepsAccounts(s: State, e: Event, sel: Selection)
    requires Accounted(s, sel) && Can(s, e) && (e.Scan? || e.Check? || e.SweepFail?)
    ensures Accounted(Next(s, e), sel)
  {
    hide Tally, Count, Results, Refusals, DeadLetters, WorkStep, DrainStep, TakeFirst, Running;
    TalliesSet(s, Next(s, e), e.w, sel);
  }

  lemma QueueKeepsAccounts(s: State, e: Event, sel: Selection)
    requires Accounted(s, sel) && Can(s, e) && (e.Submit? || e.Boot? || e.Take?)
    ensures Accounted(Next(s, e), sel)
  {
    hide Tally, Count, Results, Refusals, DeadLetters;
    var t := Next(s, e);
    match e
    case Submit(p) =>
      CountSnoc(s.queue, p, sel);
      CountSnoc(s.pushed, p, sel);
    case Boot =>
      TallyBoot(s, t, sel);
    case Take(w) =>
      TalliesSet(s, t, w, sel);
      CountSnoc(s.slots[w].list, s.queue[0], sel);
      CountHead(s.queue, sel);
  }

  lemma KeysKeepAccounts(s: State, e: Event, sel: Selection)
    requires Accounted(s, sel) && (e.Beat? || e.Expire? || e.CounterExpire?)
    ensures Accounted(Next(s, e), sel)
  {
    hide Tally, Count, Results, Refusals, DeadLetters, WorkStep, DrainStep, TakeFirst;
  }

  lemma StepKeepsAccounts(s: State, e: Event, sel: Selection)
    requires Accounted(s, sel) && Sorted(s)
    ensures Accounted(Next(s, e), sel)
  {
    hide Accounted, Sorted, WorkStep, DrainStep;
    if Can(s, e) {
      match e
      case Submit(_) => QueueKeepsAccounts(s, e, sel);
      case Boot => QueueKeepsAccounts(s, e, sel);
      case Take(_) => QueueKeepsAccounts(s, e, sel);
      case Work(w) => WorkKeepsAccounts(s, w, sel);
      case Drain(w) => DrainKeepsAccounts(s, w, sel);
      case Beat(_) => KeysKeepAccounts(s, e, sel);
      case Expire(_) => KeysKeepAccounts(s, e, sel);
      case CounterExpire(_) => KeysKeepAccounts(s, e, sel);
      case Scan(_, _) => SweepKeepsAccounts(s, e, sel);
      case Check(_) => SweepKeepsAccounts(s, e, sel);
      case SweepFail(_) => SweepKeepsAccounts(s, e, sel);
      case _ => MoveKeepsAccounts(s, e, sel);
    }
  }

  lemma {:induction false} RunKeepsAccounts(s: State, es: seq<Event>, sel: Selection)
    requires Accounted(s, sel) && Sorted(s)
    ensures Accounted(Run(s, es), sel)
    decreases |es|
  {
    if es != [] {
      SortedStep(s, es[0]);
      StepKeepsAccounts(s, es[0], sel);
      RunKeepsAccounts(Next(s, es[0]), es[1..], sel);
    }
  }

  // ---------------------------------------------------------------- nothing lost, duplicates paid for

  function Pushes(s: State, p: Payload): nat { Count(s.pushed, Only(p)) }

  function Copies(s: State, p: Payload): nat {
    Count(s.queue, Only(p)) + Tally(s.slots, Only(p), Listed)
  }

  /** The payload is on the queue or on some worker's own list, dead workers included. */
  ghost predicate Stored(s: State, p: Payload) {
    p in s.queue || exists w: WorkerId :: w < |s.slots| && p in s.slots[w].list
  }

  lemma {:induction false} ListedIsStored(slots: seq<Slot>, p: Payload)
    ensures Tally(slots, Only(p), Listed) > 0 ==> exists w: WorkerId :: w < |slots| && p in slots[w].list
  {
    if slots != [] {
      var n := |slots| - 1;
      ListedIsStored(slots[..n], p);
      CountZero(slots[n].list, p);
      if w: WorkerId :| w < n && p in slots[..n][w].list {
        assert p in slots[w].list;
      } else if Tally(slots, Only(p), Listed) > 0 {
        assert p in slots[n].list;
      }
    }
  }

  /** Conservation, for every schedule: each push is still a copy or was removed, and each removal was
      preceded by an answer of its own. A payload short of answers is still stored somewhere. */
  lemma NothingIsLost(limit: nat, es: seq<Event>, p: Payload)
    ensures var s := Run(Init(limit), es);
      && Pushes(s, p) == Copies(s, p) + Count(s.removed, Only(p))
      && Count(s.removed, Only(p)) <= Answered(s, Only(p))
      && (Answered(s, Only(p)) < Pushes(s, p) ==> Stored(s, p))
  {
    var s := Run(Init(limit), es);
    RunKeepsAccounts(Init(limit), es, Only(p));
    if Answered(s, Only(p)) < Pushes(s, p) {
      ListedIsStored(s.slots, p);
      CountZero(s.queue, p);
    }
  }

  /** Every answer past the pushes of a submission id is paid for by a recovery of that id,
      and what is still queued has not been answered for yet. */
  lemma DuplicatesArePaidFor(limit: nat, es: seq<Event>, id: int)
    ensures var s := Run(Init(limit), es);
      Results(s.results, ForId(id)) + Count(s.queue, ForId(id))
        <= Count(s.pushed, ForId(id)) + Count(s.drained, ForId(id))
  {
    RunKeepsAccounts(Init(limit), es, ForId(id));
  }

  /** A pickup past the limit that ran to its end left an RE result, and a dead letter before that. */
  lemma RefusalsLeaveDeadLetters(limit: nat, es: seq<Event>, id: int)
    ensures var s := Run(Init(limit), es);
      Count(s.finishedOver, ForId(id)) <= Refusals(s.results, ForId(id)) <= DeadLetters(s.dead, ForId(id), false)
  {
    RunKeepsAccounts(Init(limit), es, ForId(id));
  }

  // ---------------------------------------------------------------- poison payloads

  /** The event is the INCR of a pickup of `id` that stays within the limit, so it goes on to judging. */
  predicate Admits(s: State, e: Event, id: int) {
    && e.Work? && Can(s, e) && s.slots[e.w].pc.Parsing?
    && var raw := s.slots[e.w].pc.raw; raw.Request? && raw.id == id && Attempts(s, id) + 1 <= s.limit
  }

  /** The event takes the counter of `id` away: the DELETE in _finish, or its expiry. */
  predicate Resets(s: State, e: Event, id: int) {
    || e == CounterExpire(id)
    || (e.Work? && Can(s, e) && s.slots[e.w].pc.Clearing?
        && s.slots[e.w].pc.raw.Request? && s.slots[e.w].pc.raw.id == id)
  }

  function Admissions(s: State, es: seq<Event>, id: int): nat
    decreases |es|
  {
    if es == [] then 0 else One(Admits(s, es[0], id)) + Admissions(Next(s, es[0]), es[1..], id)
  }

  ghost predicate NeverResets(s: State, es: seq<Event>, id: int)
    decreases |es|
  {
    es == [] || (!Resets(s, es[0], id) && NeverResets(Next(s, es[0]), es[1..], id))
  }

  /** The event takes a pickup of `id` into run_submission. */
  predicate StartsJudging(s: State, e: Event, id: int) {
    && e.Work? && Can(s, e) && s.slots[e.w].pc.Counted?
    && Picks(ForId(id), s.slots[e.w].pc.raw) && s.slots[e.w].pc.attempts <= s.limit
  }

  function Judgings(s: State, es: seq<Event>, id: int): nat
    decreases |es|
  {
    if es == [] then 0 else One(StartsJudging(s, es[0], id)) + Judgings(Next(s, es[0]), es[1..], id)
  }

  /** Pickups of `id` counted within the limit that have not gone on to judging yet. */
  function AboutToJudge(s: State, id: int): nat { Tally(s.slots, ForId(id), Admitted(s.limit)) }

  lemma CounterStep(s: State, e: Event, id: int)
    requires !Resets(s, e, id)
    ensures Attempts(Next(s, e), id) >= Attempts(s, id) + One(Admits(s, e, id))
  {
  }

  /** A reset forgets every attempt made so far. */
  lemma ResetForgets(s: State, e: Event, id: int)
    requires Resets(s, e, id)
    ensures Attempts(Next(s, e), id) == 0
  {
  }

  lemma CounterLimit(s: State, e: Event)
    ensures Next(s, e).limit == s.limit
  {
  }

  /** Between two resets of its counter, across all workers, at most `limit` pickups of an id are let
      through to judging; every counted attempt before the stretch uses one of them up. */
  lemma {:induction false} PoisonIsBounded(s: State, es: seq<Event>, id: int)
    requires NeverResets(s, es, id)
    ensures Admissions(s, es, id) + Attempts(s, id) <= s.limit || Admissions(s, es, id) == 0
    decreases |es|
  {
    if es != [] {
      CounterStep(s, es[0], id);
      CounterLimit(s, es[0]);
      PoisonIsBounded(Next(s, es[0]), es[1..], id);
    }
  }

  /** A command of handle_one touches only its own worker, which keeps its sweep. */
  lemma WorkKeepsWorkers(s: State, w: WorkerId)
    requires w < |s.slots|
    ensures var t := WorkStep(s, w);
      && |t.slots| == |s.slots| && t.beats == s.beats && t.drained == s.drained
      && t.slots == s.slots[w := t.slots[w]] && t.slots[w].sweep == s.slots[w].sweep
  {
    hide Without, Attempts;
    var pc := s.slots[w].pc;
    if pc.Dropping? || pc.Removing? {
      var next := if pc.Dropping? then Polling else Clearing(pc.raw, pc.over);
      assert WorkStep(s, w) == RemoveOwn(s, w, pc.raw, next);
    } else {
      assert WorkStep(s, w).slots == s.slots[w := s.slots[w].(pc := WorkStep(s, w).slots[w].pc)];
    }
  }

  /** The commands of handle_one do not stop the worker. */
  lemma WorkTouchesOne(s: State, w: WorkerId)
    requires w < |s.slots| && Running(s.slots[w])
    ensures var t := WorkStep(s, w);
      && |t.slots| == |s.slots| && t.slots == s.slots[w := t.slots[w]] && t.beats == s.beats
      && Running(t.slots[w]) && t.slots[w].sweep == s.slots[w].sweep && t.drained == s.drained
  {
    hide Without, Attempts;
    WorkKeepsWorkers(s, w);
  }

  lemma DrainTouchesOne(s: State, w: WorkerId)
    requires w < |s.slots| && s.slots[w].sweep.Draining?
    ensures var t := DrainStep(s, w);
      var o := s.slots[w].sweep.owner;
      && |t.slots| == |s.slots| && t.beats == s.beats
      && t.results == s.results
      && (t == AtSweep(s, w, Idle) || (o < |s.slots| && t.slots == s.slots[o := s.slots[o].(list := t.slots[o].list)]))
  {
  }

  lemma WorkJudging(s: State, w: WorkerId, id: int)
    requires Can(s, Work(w))
    ensures var m := Admitted(s.limit);
      One(StartsJudging(s, Work(w), id)) + Weigh(WorkStep(s, w).slots[w], ForId(id), m)
        <= One(Admits(s, Work(w), id)) + Weigh(s.slots[w], ForId(id), m)
  {
    hide Without;
  }

  /** Any other event at one worker leaves what is about to be judged as it was, or drops it. */
  lemma OtherJudging(s: State, e: Event, id: int)
    requires Can(s, e)
    requires e.Open? || e.Take? || e.Judge? || e.Fail? || e.Cancel? || e.Withdraw? || e.Crash?
          || e.Scan? || e.Check? || e.SweepFail?
    ensures var (t, m) := (Next(s, e), Admitted(s.limit));
      && |t.slots| == |s.slots| && t.slots == s.slots[e.w := t.slots[e.w]]
      && Weigh(t.slots[e.w], ForId(id), m) <= Weigh(s.slots[e.w], ForId(id), m)
  {
    hide WorkStep, DrainStep;
  }

  lemma JudgingStep(s: State, e: Event, id: int)
    ensures One(StartsJudging(s, e, id)) + AboutToJudge(Next(s, e), id) <= One(Admits(s, e, id)) + AboutToJudge(s, id)
  {
    CounterLimit(s, e);
    var (t, m) := (Next(s, e), Admitted(s.limit));
    hide WorkStep, DrainStep;
    if !Can(s, e) || e.Submit? || e.Beat? || e.Expire? || e.CounterExpire? {
    } else if e.Boot? {
      assert t.slots[..|s.slots|] == s.slots;
    } else if e.Drain? {
      hide Tally, Weigh;
      DrainTouchesOne(s, e.w);
      var o := s.slots[e.w].sweep.owner;
      if t == AtSweep(s, e.w, Idle) {
        TallySet(s.slots, e.w, t.slots[e.w], ForId(id), m);
        WeighSweep(s.slots[e.w], Idle, ForId(id), m);
      } else {
        TalliesSetList(s, t, o, t.slots[o].list, ForId(id));
      }
    } else if e.Work? {
      hide Tally, Weigh;
      WorkKeepsWorkers(s, e.w);
      WorkJudging(s, e.w, id);
      TallySet(s.slots, e.w, t.slots[e.w], ForId(id), m);
    } else {
      hide Tally, Weigh;
      OtherJudging(s, e, id);
      hide Next;
      TallySet(s.slots, e.w, t.slots[e.w], ForId(id), m);
    }
  }

  lemma WeighSweep(slot: Slot, sweep: Sweep, sel: Selection, m: Measure)
    ensures Weigh(slot.(sweep := sweep), sel, m) == Weigh(slot, sel, m)
  {
  }

  /** Only an admitted pickup is ever judged. */
  lemma {:induction false} JudgedWereAdmitted(s: State, es: seq<Event>, id: int)
    ensures Judgings(s, es, id) <= Admissions(s, es, id) + AboutToJudge(s, id)
    decreases |es|
  {
    if es != [] {
      JudgingStep(s, es[0], id);
      JudgedWereAdmitted(Next(s, es[0]), es[1..], id);
    }
  }

  // ---------------------------------------------------------------- the verdict that is pushed is the one given

  /** Results that report the payload as judged with this verdict. */
  function Given(rs: seq<Answer>, p: Payload, v: Verdict): nat {
    if rs == [] then 0 else Given(rs[..|rs| - 1], p, v) + One(rs[|rs| - 1] == Answer(p, v, false))
  }

  /** The event is a run of run_submission on the payload that returned this verdict, or that raised, which is
      reported as RE. */
  predicate Gives(s: State, e: Event, p: Payload, v: Verdict) {
    && e.Judge? && e.w < |s.slots| && s.slots[e.w].pc == Judging(p)
    && (e.outcome == Returned(v) || (e.outcome == Raised && v == RE))
  }

  function TimesGiven(s: State, es: seq<Event>, p: Payload, v: Verdict): nat
    decreases |es|
  {
    if es == [] then 0 else One(Gives(s, es[0], p, v)) + TimesGiven(Next(s, es[0]), es[1..], p, v)
  }

  /** Results pushed, and verdicts on their way to being pushed. */
  function Reported(s: State, p: Payload, v: Verdict): nat {
    Given(s.results, p, v) + Tally(s.slots, Only(p), Judged(v))
  }

  lemma GivenAppend(rs: seq<Answer>, a: Answer, p: Payload, v: Verdict)
    ensures Given(rs + [a], p, v) == Given(rs, p, v) + One(a == Answer(p, v, false))
  {
    assert (rs + [a])[..|rs|] == rs;
  }

  lemma WorkReports(s: State, w: WorkerId, p: Payload, v: Verdict)
    requires Can(s, Work(w))
    ensures var t := WorkStep(s, w);
      Given(t.results, p, v) + Weigh(t.slots[w], Only(p), Judged(v))
        <= Given(s.results, p, v) + Weigh(s.slots[w], Only(p), Judged(v))
  {
    hide Without, Given;
    var pc := s.slots[w].pc;
    if pc.Answering? {
      GivenAppend(s.results, Answer(pc.raw, pc.verdict, false), p, v);
    } else if pc.Refusing? {
      GivenAppend(s.results, Answer(pc.raw, INTERNAL_FAILURE, true), p, v);
    }
  }

  lemma OtherReports(s: State, e: Event, p: Payload, v: Verdict)
    requires Can(s, e)
    requires e.Open? || e.Take? || e.Judge? || e.Fail? || e.Cancel? || e.Withdraw? || e.Crash?
          || e.Scan? || e.Check? || e.SweepFail?
    ensures var (t, m) := (Next(s, e), Judged(v));
      && t.results == s.results && |t.slots| == |s.slots| && t.slots == s.slots[e.w := t.slots[e.w]]
      && Weigh(t.slots[e.w], Only(p), m) <= Weigh(s.slots[e.w], Only(p), m) + One(Gives(s, e, p, v))
  {
    hide WorkStep, DrainStep;
  }

  lemma ReportStep(s: State, e: Event, p: Payload, v: Verdict)
    ensures Reported(Next(s, e), p, v) <= Reported(s, p, v) + One(Gives(s, e, p, v))
  {
    var (t, m) := (Next(s, e), Judged(v));
    hide WorkStep, DrainStep, Given, Gives;
    if !Can(s, e) || e.Submit? || e.Beat? || e.Expire? || e.CounterExpire? {
    } else if e.Boot? {
      assert t.slots[..|s.slots|] == s.slots;
    } else if e.Drain? {
      hide Tally, Weigh;
      DrainTouchesOne(s, e.w);
      var o := s.slots[e.w].sweep.owner;
      if t == AtSweep(s, e.w, Idle) {
        TallySet(s.slots, e.w, t.slots[e.w], Only(p), m);
        WeighSweep(s.slots[e.w], Idle, Only(p), m);
      } else {
        TalliesSetList(s, t, o, t.slots[o].list, Only(p));
      }
    } else if e.Work? {
      hide Tally, Weigh;
      WorkKeepsWorkers(s, e.w);
      WorkReports(s, e.w, p, v);
      TallySet(s.slots, e.w, t.slots[e.w], Only(p), m);
    } else {
      hide Tally, Weigh;
      OtherReports(s, e, p, v);
      hide Next;
      TallySet(s.slots, e.w, t.slots[e.w], Only(p), m);
    }
  }

  lemma {:induction false} RunReports(s: State, es: seq<Event>, p: Payload, v: Verdict)
    ensures Reported(Run(s, es), p, v) <= Reported(s, p, v) + TimesGiven(s, es, p, v)
    decreases |es|
  {
    if es != [] {
      hide Reported, Gives;
      ReportStep(s, es[0], p, v);
      RunReports(Next(s, es[0]), es[1..], p, v);
    }
  }

  /** For every schedule: a verdict reported for a payload was given to it by a run of its own, returned as it is
      or, for RE, possibly raised. */
  lemma VerdictsWereGiven(limit: nat, es: seq<Event>, p: Payload, v: Verdict)
    ensures Given(Run(Init(limit), es).results, p, v) <= TimesGiven(Init(limit), es, p, v)
  {
    RunReports(Init(limit), es, p, v);
  }

  // ---------------------------------------------------------------- whose list a sweep takes from

  predicate IsRunning(s: State, w: WorkerId) { w < |s.slots| && Running(s.slots[w]) }

  /** No heartbeat of a running worker runs out during the schedule. Crashes, cancellations and Redis errors
      may happen. */
  ghost predicate BeatsKept(s: State, es: seq<Event>)
    decreases |es|
  {
    es == [] || ((es[0].Expire? ==> !IsRunning(s, es[0].w)) && BeatsKept(Next(s, es[0]), es[1..]))
  }

  /** A running worker has its heartbeat; the list it drains, if any, belongs to one that is not running. */
  predicate SweepsTheGoneAt(s: State, w: WorkerId) {
    w < |s.slots| ==>
      && (Running(s.slots[w]) ==> w in s.beats)
      && (match s.slots[w].sweep
          case Idle => true
          case Found(o) => o < |s.slots|
          case Draining(o) => o < |s.slots| && !Running(s.slots[o]))
  }

  ghost predicate SweepsTheGone(s: State) {
    forall w: WorkerId :: SweepsTheGoneAt(s, w)
  }

  /** What one step can do to one worker: no worker comes back, and a drain starts only past the EXISTS. */
  predicate SlotMoves(s: State, e: Event, t: State, w: WorkerId)
    requires w < |s.slots|
  {
    && |s.slots| <= |t.slots| <= |s.slots| + 1
    && (Running(t.slots[w]) ==> Running(s.slots[w]))
    && (t.slots[w].sweep == s.slots[w].sweep
        || t.slots[w].sweep == Idle
        || (t.slots[w].sweep.Found? && t.slots[w].sweep.owner < |s.slots|)
        || (s.slots[w].sweep.Found? && t.slots[w].sweep == Draining(s.slots[w].sweep.owner)
            && s.slots[w].sweep.owner !in s.beats))
    && (w in s.beats && w !in t.beats ==> e == Expire(w) || !Running(t.slots[w]))
  }

  lemma SlotStep(s: State, e: Event, w: WorkerId)
    requires w < |s.slots|
    ensures SlotMoves(s, e, Next(s, e), w)
  {
    hide WorkStep, DrainStep;
    if Can(s, e) {
      match e
      case Work(x) => WorkTouchesOne(s, x);
      case Drain(x) => DrainTouchesOne(s, x);
      case _ =>
    }
  }

  lemma NewSlotStep(s: State, e: Event)
    ensures var t := Next(s, e);
      && |s.slots| <= |t.slots| <= |s.slots| + 1
      && (|t.slots| > |s.slots| ==> t.slots[|s.slots|] == Slot([], Starting, Idle) && |s.slots| in t.beats)
  {
    hide WorkStep, DrainStep;
    if Can(s, e) {
      if e.Work? {
        WorkKeepsWorkers(s, e.w);
      } else if e.Drain? {
        DrainTouchesOne(s, e.w);
      }
    }
  }

  lemma SweepStep(s: State, e: Event)
    requires SweepsTheGone(s) && (e.Expire? ==> !IsRunning(s, e.w))
    ensures SweepsTheGone(Next(s, e))
  {
    var t := Next(s, e);
    hide Next;
    NewSlotStep(s, e);
    forall w: WorkerId ensures SweepsTheGoneAt(t, w) {
      assert SweepsTheGoneAt(s, w);
      if w < |s.slots| {
        SlotStep(s, e, w);
        var sweep := t.slots[w].sweep;
        if sweep.Draining? {
          assert sweep.owner < |s.slots|;
          assert SweepsTheGoneAt(s, sweep.owner);
          SlotStep(s, e, sweep.owner);
        }
      } else if |s.slots| > 0 {
        SlotStep(s, e, 0);
      }
    }
  }

  lemma {:induction false} RunSweepsTheGone(s: State, es: seq<Event>)
    requires SweepsTheGone(s) && BeatsKept(s, es)
    ensures SweepsTheGone(Run(s, es))
    decreases |es|
  {
    if es != [] {
      SweepStep(s, es[0]);
      RunSweepsTheGone(Next(s, es[0]), es[1..]);
    }
  }

  /** While running workers keep their heartbeats, a recovery never touches the list of a running worker. */
  lemma RecoverySparesTheRunning(limit: nat, es: seq<Event>, sweeper: WorkerId, w: WorkerId)
    requires BeatsKept(Init(limit), es)
    ensures var s := Run(Init(limit), es);
      var after := Next(s, Drain(sweeper));
      IsRunning(s, w) ==> w < |after.slots| && after.slots[w].list == s.slots[w].list
  {
    RunSweepsTheGone(Init(limit), es);
    var s := Run(Init(limit), es);
    assert SweepsTheGoneAt(s, sweeper);
    if Can(s, Drain(sweeper)) {
      hide WorkStep;
      assert Next(s, Drain(sweeper)) == DrainStep(s, sweeper);
    }
  }

  /** And what a worker that is gone left behind does come back: once its heartbeat has run out, a sweep by any
      running worker puts the first entry of its list at the head of the queue. */
  lemma OrphansComeBack(s: State, w: WorkerId, x: WorkerId)
    requires w < |s.slots| && x < |s.slots| && x != w
    requires s.slots[w].list != [] && Running(s.slots[x]) && s.slots[x].sweep.Idle?
    ensures var t := Next(Next(Next(Next(s, Expire(w)), Scan(x, w)), Check(x)), Drain(x));
      && t.queue == [s.slots[w].list[0]] + s.queue
      && w < |t.slots| && t.slots[w].list == s.slots[w].list[1..]
      && x < |t.slots| && t.slots[x].sweep == Draining(w)
  {
    hide WorkStep;
    var s1 := Next(s, Expire(w));
    var s2 := Next(s1, Scan(x, w));
    var s3 := Next(s2, Check(x));
    assert s3.slots[x].sweep == Draining(w) && s3.slots[w].list == s.slots[w].list;
  }

  // ---------------------------------------------------------------- exactly one result

  /** A schedule in which nothing goes wrong: no crash, cancellation, Redis error or lost heartbeat. */
  ghost predicate Calm(es: seq<Event>) {
    forall e :: e in es ==> !e.Fail? && !e.Cancel? && !e.Crash? && !e.Expire?
  }

  predicate AllRunningAt(s: State, w: WorkerId) {
    w < |s.slots| ==> Running(s.slots[w]) && !s.slots[w].sweep.Draining?
  }

  /** Nobody stops, so with the heartbeats in place nothing is ever drained. */
  ghost predicate AllRunning(s: State) {
    SweepsTheGone(s) && s.drained == [] && forall w: WorkerId :: AllRunningAt(s, w)
  }

  lemma CalmSlotStep(s: State, e: Event, w: WorkerId)
    requires w < |s.slots| && !e.Fail? && !e.Cancel? && !e.Crash?
    requires Running(s.slots[w])
    ensures w < |Next(s, e).slots| && Running(Next(s, e).slots[w])
  {
    hide WorkStep, DrainStep;
    if Can(s, e) {
      if e.Work? && Running(s.slots[e.w]) {
        WorkTouchesOne(s, e.w);
      } else if e.Drain? {
        DrainTouchesOne(s, e.w);
      }
    }
  }

  lemma CalmDrainsNothing(s: State, e: Event)
    requires AllRunning(s)
    ensures Next(s, e).drained == []
  {
    hide WorkStep, DrainStep, SweepsTheGone;
    if Can(s, e) && (e.Work? || e.Drain?) {
      assert AllRunningAt(s, e.w);
      if e.Work? {
        WorkKeepsWorkers(s, e.w);
      }
    }
  }

  /** A found list's owner runs and so has its heartbeat: the check lets the list be. */
  lemma CalmWorkerStep(s: State, e: Event, w: WorkerId)
    requires AllRunning(s) && !e.Fail? && !e.Cancel? && !e.Crash? && w < |s.slots|
    requires SweepsTheGone(Next(s, e))
    ensures AllRunningAt(Next(s, e), w)
  {
    var t := Next(s, e);
    hide Next, Can;
    assert AllRunningAt(s, w) && SweepsTheGoneAt(s, w);
    CalmSlotStep(s, e, w);
    SlotStep(s, e, w);
    assert SweepsTheGoneAt(t, w);
    var sweep := s.slots[w].sweep;
    if sweep.Found? {
      assert AllRunningAt(s, sweep.owner) && SweepsTheGoneAt(s, sweep.owner);
    }
  }

  lemma CalmStep(s: State, e: Event)
    requires AllRunning(s) && !e.Fail? && !e.Cancel? && !e.Crash? && !e.Expire?
    ensures AllRunning(Next(s, e))
  {
    hide Next, Can, SweepsTheGone;
    SweepStep(s, e);
    CalmDrainsNothing(s, e);
    NewSlotStep(s, e);
    forall w: WorkerId ensures AllRunningAt(Next(s, e), w) {
      if w < |s.slots| {
        CalmWorkerStep(s, e, w);
      }
    }
  }

  lemma {:induction false} CalmRun(s: State, es: seq<Event>)
    requires AllRunning(s) && Calm(es)
    ensures AllRunning(Run(s, es))
    decreases |es|
  {
    if es != [] {
      CalmStep(s, es[0]);
      CalmRun(Next(s, es[0]), es[1..]);
    }
  }

  lemma {:induction false} RequestsAreNotDropped(ps: seq<Payload>, p: Payload)
    requires p.Request?
    ensures DeadLetters(ps, Only(p), true) == 0
  {
    if ps != [] {
      RequestsAreNotDropped(ps[..|ps| - 1], p);
    }
  }

  /** In a calm schedule a well-formed payload never has more results than pushes, and once it is
      stored nowhere it has exactly one result for each time it was pushed. */
  lemma CalmMeansExactlyOnce(limit: nat, es: seq<Event>, p: Payload)
    requires Calm(es) && p.Request?
    ensures var s := Run(Init(limit), es);
      && Results(s.results, Only(p)) <= Pushes(s, p)
      && (!Stored(s, p) ==> Results(s.results, Only(p)) == Pushes(s, p))
  {
    RequestsAreNotDropped(Run(Init(limit), es).dead, p);
    NothingIsLost(limit, es, p);
    RunKeepsAccounts(Init(limit), es, Only(p));
    CalmRun(Init(limit), es);
    var s := Run(Init(limit), es);
    if !Stored(s, p) {
      ListedIsStored(s.slots, p);
      CountZero(s.queue, p);
    }
  }
}
