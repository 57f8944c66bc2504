/**
 The worker's own code over a Redis it shares: handle_one, _finish, _drain and recover_orphans as
 they run when nobody interleaves. Each command is one event of `JudgeQueue`; the ghost `trace`
 records them, so every state this class reaches is a state of the protocol.
 */
module JudgeWorker {
  import opened JudgeQueue
  import opened Schemas

  class Redis {
    var queue: seq<Payload>
    var lists: seq<seq<Payload>>
    var beats: set<WorkerId>
    var attempts: map<int, nat>
    var results: seq<Answer>
    var dead: seq<Payload>

    const limit: nat
    ghost var trace: seq<Event>

    ghost function Machine(): State
      reads this`trace
    {
      Run(Init(limit), trace)
    }

    /** The keys hold exactly what the protocol state says they hold. */
    ghost predicate Valid()
      reads this
    {
      KeysOf(Machine())
    }

    ghost predicate KeysOf(s: State)
      reads this
    {
      && queue == s.queue && beats == s.beats && attempts == s.attempts && results == s.results && dead == s.dead
      && |lists| == |s.slots| && s.limit == limit
      && forall w: WorkerId :: w < |lists| ==> lists[w] == s.slots[w].list
    }

    ghost predicate At(w: WorkerId, pc: Pc)
      reads this
    {
      w < |Machine().slots| && Machine().slots[w].pc == pc
    }

    constructor (limit: nat)
      ensures Valid() && this.limit == limit && trace == []
    {
      this.limit := limit;
      queue, lists, beats, attempts, results, dead, trace := [], [], {}, map[], [], [], [];
    }

    /** The event just performed by a command joins the trace. */
    ghost method Happened(e: Event)
      modifies this`trace
      ensures trace == old(trace) + [e] && Machine() == Next(old(Machine()), e)
    {
      RunSnoc(Init(limit), trace, e);
      trace := trace + [e];
    }

    // One Redis command each, at the place in the code where it is issued.

    /** RPUSH judge:dead raw */
    method DeadLetter(w: WorkerId, raw: Payload)
      requires Valid() && At(w, if raw.Malformed? then Parsing(raw) else OverLimit(raw))
      modifies this`dead, this`trace
      ensures Valid() && At(w, if raw.Malformed? then Dropping(raw) else Refusing(raw))
      ensures dead == old(dead) + [raw] && trace == old(trace) + [Work(w)]
    {
      dead := dead + [raw];
      Happened(Work(w));
    }

    /** INCR the attempts counter */
    method CountAttempt(w: WorkerId, raw: Payload) returns (n: nat)
      requires Valid() && raw.Request? && At(w, Parsing(raw))
      modifies this`attempts, this`trace
      ensures Valid() && At(w, Counted(raw, n))
      ensures n == Attempts(old(Machine()), raw.id) + 1 && attempts == old(attempts)[raw.id := n]
      ensures trace == old(trace) + [Work(w)]
    {
      n := (if raw.id in attempts then attempts[raw.id] else 0) + 1;
      attempts := attempts[raw.id := n];
      Happened(Work(w));
    }

    /** EXPIRE the counter; the branch on the limit follows */
    method ArmExpiry(w: WorkerId, raw: Payload, n: nat)
      requires Valid() && At(w, Counted(raw, n))
      modifies this`trace
      ensures Valid() && At(w, if n > limit then OverLimit(raw) else Judging(raw))
      ensures trace == old(trace) + [Work(w)]
    {
      Happened(Work(w));
    }

    /** run_submission, wrapped so that an exception becomes the internal failure */
    method RunSubmission(w: WorkerId, raw: Payload, outcome: Outcome) returns (v: Verdict)
      requires Valid() && At(w, Judging(raw))
      modifies this`trace
      ensures Valid() && At(w, Answering(raw, v))
      ensures (outcome.Returned? ==> v == outcome.verdict) && (outcome.Raised? ==> v == RE)
      ensures trace == old(trace) + [Judge(w, outcome)]
    {
      v := VerdictOf(outcome);
      Happened(Judge(w, outcome));
    }

    /** RPUSH judge:results response */
    method PushResult(w: WorkerId, answer: Answer)
      requires Valid() && At(w, BeforeResult(answer)) && BeforeResult(answer) != Gone
      modifies this`results, this`trace
      ensures Valid() && At(w, Removing(answer.source, answer.overLimit))
      ensures results == old(results) + [answer] && trace == old(trace) + [Work(w)]
    {
      results := results + [answer];
      Happened(Work(w));
    }

    /** LREM own-list 1 raw */
    method RemoveOwnEntry(w: WorkerId, raw: Payload, ghost over: bool)
      requires Valid() && At(w, if raw.Malformed? then Dropping(raw) else Removing(raw, over))
      modifies this`lists, this`trace
      ensures Valid() && At(w, if raw.Malformed? then Polling else Clearing(raw, over))
      ensures w < |old(lists)| && lists == old(lists)[w := Without(old(lists)[w], raw)]
      ensures trace == old(trace) + [Work(w)]
    {
      hide Without, Run;
      lists := lists[w := Without(lists[w], raw)];
      Happened(Work(w));
    }

    /** DELETE the attempts counter */
    method ClearCounter(w: WorkerId, raw: Payload, ghost over: bool)
      requires Valid() && raw.Request? && At(w, Clearing(raw, over))
      modifies this`attempts, this`trace
      ensures Valid() && At(w, Polling)
      ensures attempts == old(attempts) - {raw.id} && trace == old(trace) + [Work(w)]
    {
      attempts := attempts - {raw.id};
      Happened(Work(w));
    }

    /** Where handle_one stands when it calls _finish with this answer. */
    ghost function BeforeResult(answer: Answer): Pc {
      if !answer.overLimit then Answering(answer.source, answer.verdict)
      else if answer.verdict == INTERNAL_FAILURE then Refusing(answer.source)
      else Gone
    }

    /** RPUSH the result, LREM the payload, DELETE the counter: in that order, so that a crash in between
        repeats an answer and never drops one. */
    method Finish(w: WorkerId, answer: Answer)
      requires Valid() && answer.source.Request? && At(w, BeforeResult(answer)) && BeforeResult(answer) != Gone
      modifies this
      ensures Valid() && At(w, Polling)
      ensures trace == old(trace) + [Work(w), Work(w), Work(w)]
      ensures results == old(results) + [answer] && dead == old(dead) && queue == old(queue)
      ensures w < |old(lists)| && lists == old(lists)[w := Without(old(lists)[w], answer.source)]
      ensures attempts == old(attempts) - {answer.source.id}
    {
      hide *;
      PushResult(w, answer);
      RemoveOwnEntry(w, answer.source, answer.overLimit);
      ClearCounter(w, answer.source, answer.overLimit);
    }

    /** One call of handle_one. `outcome` is what run_submission does if it is reached. */
    method HandleOne(w: WorkerId, raw: Payload, outcome: Outcome)
      requires Valid() && At(w, Parsing(raw))
      modifies this
      ensures Valid() && At(w, Polling) && queue == old(queue)
      ensures w < |old(lists)| && lists == old(lists)[w := Without(old(lists)[w], raw)]
      ensures raw.Malformed? ==>
        && trace == old(trace) + [Work(w), Work(w)]
        && dead == old(dead) + [raw] && results == old(results) && attempts == old(attempts)
      ensures raw.Request? && Attempts(old(Machine()), raw.id) < limit ==>
        && trace == old(trace) + [Work(w), Work(w), Judge(w, outcome), Work(w), Work(w), Work(w)]
        && (outcome.Returned? ==> results == old(results) + [Answer(raw, outcome.verdict, false)])
        && (outcome.Raised? ==> results == old(results) + [Answer(raw, RE, false)])
        && dead == old(dead) && attempts == old(attempts) - {raw.id}
      ensures raw.Request? && Attempts(old(Machine()), raw.id) >= limit ==>
        && trace == old(trace) + [Work(w), Work(w), Work(w), Work(w), Work(w), Work(w)]
        && results == old(results) + [Answer(raw, RE, true)] && dead == old(dead) + [raw]
        && attempts == old(attempts) - {raw.id}
    {
      hide Run, Without, At, Valid, Machine, Attempts;
      if raw.Malformed? {
        DeadLetter(w, raw);
        RemoveOwnEntry(w, raw, false);
        return;
      }
      var n := CountAttempt(w, raw);
      ArmExpiry(w, raw, n);
      if n > limit {
        DeadLetter(w, raw);
        Finish(w, Answer(raw, INTERNAL_FAILURE, true));
      } else {
        var v := RunSubmission(w, raw, outcome);
        Finish(w, Answer(raw, v, false));
      }
    }

    // ------------------------------------------------------------ heartbeats and recovery

    /** The worker runs and its sweep is where the code is. */
    ghost predicate SweepingAt(w: WorkerId, sweep: Sweep)
      reads this
    {
      w < |Machine().slots| && Running(Machine().slots[w]) && Machine().slots[w].sweep == sweep
    }

    ghost function PcOf(w: WorkerId): Pc
      reads this`trace
    {
      if w < |Machine().slots| then Machine().slots[w].pc else Gone
    }

    method Announce(w: WorkerId)
      requires Valid() && w < |Machine().slots| && Running(Machine().slots[w])
      modifies this`beats, this`trace
      ensures Valid() && beats == old(beats) + {w} && trace == old(trace) + [Beat(w)]
    {
      beats := beats + {w};
      Happened(Beat(w));
    }

    method Withdraw(w: WorkerId)
      requires Valid() && At(w, Stopping)
      modifies this`beats, this`trace
      ensures Valid() && beats == old(beats) - {w} && PcOf(w) == Gone
      ensures trace == old(trace) + [JudgeQueue.Withdraw(w)]
    {
      beats := beats - {w};
      Happened(JudgeQueue.Withdraw(w));
    }

    /** LMOVE own-list-of-`owner` queue LEFT LEFT; false when there was nothing to move */
    method MoveBack(w: WorkerId, owner: WorkerId) returns (moved: bool)
      requires Valid() && owner < |lists| && SweepingAt(w, Draining(owner))
      modifies this`queue, this`lists, this`trace
      ensures Valid() && |lists| == |old(lists)| && trace == old(trace) + [JudgeQueue.Drain(w)]
      ensures moved == (old(lists)[owner] != [])
      ensures SweepingAt(w, if moved then Draining(owner) else Idle) && PcOf(w) == old(PcOf(w))
      ensures moved ==> queue == [old(lists)[owner][0]] + old(queue)
      ensures moved ==> lists == old(lists)[owner := old(lists)[owner][1..]]
      ensures !moved ==> queue == old(queue) && lists == old(lists)
    {
      hide Run;
      moved := lists[owner] != [];
      if moved {
        queue, lists := [lists[owner][0]] + queue, lists[owner := lists[owner][1..]];
      }
      Happened(JudgeQueue.Drain(w));
    }

    /** Everything on the list goes back to the head of the queue, the last entry first. */
    method Drain(w: WorkerId, owner: WorkerId) returns (count: nat)
      requires Valid() && owner < |lists| && SweepingAt(w, Draining(owner))
      modifies this`queue, this`lists, this`trace
      ensures Valid() && SweepingAt(w, Idle) && PcOf(w) == old(PcOf(w)) && |lists| == |old(lists)|
      ensures count == |old(lists)[owner]|
      ensures queue == Reversed(old(lists)[owner]) + old(queue)
      ensures lists == old(lists)[owner := []]
    {
      count := 0;
      ghost var was := lists[owner];
      hide Run, Valid, SweepingAt, PcOf, Reversed;
      ReversedAt([]);
      assert was[..0] == [] && was[0..] == was && lists[owner := was] == lists;
      if was != [] {
        OneMoreMoved(was, 0, lists, owner, queue);
      }
      var moved := MoveBack(w, owner);
      while moved
        invariant Valid() && |lists| == |old(lists)| && SweepingAt(w, if moved then Draining(owner) else Idle)
        invariant PcOf(w) == old(PcOf(w))
        invariant var k := if moved then count + 1 else count;
          k <= |was| && lists == old(lists)[owner := was[k..]] && queue == Reversed(was[..k]) + old(queue)
        invariant !moved ==> count == |was|
        decreases |was| - count, moved
      {
        count := count + 1;
        if count < |was| {
          OneMoreMoved(was, count, old(lists), owner, old(queue));
        }
        moved := MoveBack(w, owner);
      }
      assert was[..count] == was;
    }

    /** Every listed worker that is not this one and left no word gets its list taken, and nobody else's is touched;
        what was on those lists, and nothing else, is now in front of the queue. A key may be listed twice. */
    method RecoverOrphans(me: WorkerId, keys: seq<WorkerId>) returns (count: nat)
      requires Valid() && SweepingAt(me, Idle)
      requires forall k :: k in keys ==> k < |lists|
      modifies this`queue, this`lists, this`trace
      ensures Valid() && SweepingAt(me, Idle) && PcOf(me) == old(PcOf(me)) && |lists| == |old(lists)|
      ensures forall w: WorkerId :: w < |lists| ==>
        lists[w] == if w in Silent(keys, me, beats) then [] else old(lists)[w]
      ensures count == |queue| - |old(queue)| && old(queue) == queue[count..]
      ensures multiset(queue[..count]) == Stranded(old(lists), Silent(keys, me, beats))
    {
      ghost var queue0, lists0 := queue, lists;
      hide Run, Valid, SweepingAt, PcOf;
      count := 0;
      NobodyStranded(lists);
      assert Silent(keys[..0], me, beats) == {} && queue[..0] == [] && Swept(queue0, lists0, {}, 0);
      hide Silent, Swept;
      for i := 0 to |keys|
        invariant Valid() && SweepingAt(me, Idle) && PcOf(me) == old(PcOf(me)) && |lists| == |lists0|
        invariant Swept(queue0, lists0, Silent(keys[..i], me, beats), count)
      {
        assert keys[i] in keys;
        SilentStep(keys, me, beats, i);
        if keys[i] != me {
          count := SweepOne(me, keys[i], count, queue0, lists0, Silent(keys[..i], me, beats));
        }
      }
      assert keys[..|keys|] == keys;
      assert Swept(queue0, lists0, Silent(keys, me, beats), count);
      SweptMeans(queue0, lists0, Silent(keys, me, beats), count);
    }

    /** How far a recovery has come: the lists of these workers are empty, and what was on them, `count` entries,
        is in front of the queue as it was. */
    ghost predicate Swept(queue0: seq<Payload>, lists0: seq<seq<Payload>>, silent: set<WorkerId>, count: nat)
      reads this
    {
      && |lists| == |lists0|
      && (forall w: WorkerId :: w < |lists| ==> lists[w] == if w in silent then [] else lists0[w])
      && count <= |queue| && queue0 == queue[count..]
      && multiset(queue[..count]) == Stranded(lists0, silent)
    }

    lemma SweptMeans(queue0: seq<Payload>, lists0: seq<seq<Payload>>, silent: set<WorkerId>, count: nat)
      requires Swept(queue0, lists0, silent, count)
      ensures |lists| == |lists0|
      ensures forall w: WorkerId :: w < |lists| ==> lists[w] == if w in silent then [] else lists0[w]
      ensures count <= |queue| && count == |queue| - |queue0| && queue0 == queue[count..]
      ensures multiset(queue[..count]) == Stranded(lists0, silent)
    {
    }

    /** One key of the scan: the EXISTS, and the drain if it finds nothing. */
    method SweepOne(me: WorkerId, owner: WorkerId, count: nat,
                    ghost queue0: seq<Payload>, ghost lists0: seq<seq<Payload>>, ghost silent: set<WorkerId>)
      returns (total: nat)
      requires Valid() && SweepingAt(me, Idle) && owner < |lists| && owner != me
      requires Swept(queue0, lists0, silent, count)
      modifies this`queue, this`lists, this`trace
      ensures Valid() && SweepingAt(me, Idle) && PcOf(me) == old(PcOf(me)) && |lists| == |old(lists)|
      ensures Swept(queue0, lists0, if owner in beats then silent else silent + {owner}, total)
    {
      hide Run, Valid, SweepingAt, PcOf, Reversed, Stranded;
      total := count;
      BeginSweep(me, owner);
      if owner !in beats {
        ghost var taken := lists[owner];
        TakenOver(lists0, silent, owner, taken, queue, count);
        var n := Drain(me, owner);
        total := count + n;
      }
    }

    /** SCAN comes to the list and EXISTS looks for its owner's heartbeat. */
    ghost method BeginSweep(me: WorkerId, owner: WorkerId)
      requires Valid() && SweepingAt(me, Idle) && owner != me && owner < |lists|
      modifies this`trace
      ensures Valid() && SweepingAt(me, if owner in beats then Idle else Draining(owner)) && PcOf(me) == old(PcOf(me))
    {
      hide Run;
      Happened(Scan(me, owner));
      Happened(Check(me));
    }

    // ------------------------------------------------------------ a worker's life

    /** The web side pushes a submission. */
    method Submit(p: Payload)
      requires Valid()
      modifies this`queue, this`trace
      ensures Valid() && queue == old(queue) + [p] && trace == old(trace) + [JudgeQueue.Submit(p)]
    {
      hide Run;
      queue := queue + [p];
      Happened(JudgeQueue.Submit(p));
    }

    /** A new worker leaves word under a name of its own before anything else. */
    method Boot() returns (w: WorkerId)
      requires Valid()
      modifies this`lists, this`beats, this`trace
      ensures Valid() && SweepingAt(w, Idle) && PcOf(w) == Starting
      ensures w == |old(lists)| && lists == old(lists) + [[]] && beats == old(beats) + {w}
      ensures trace == old(trace) + [JudgeQueue.Boot]
    {
      hide Run;
      w := |lists|;
      lists, beats := lists + [[]], beats + {w};
      Happened(JudgeQueue.Boot);
    }

    ghost method Open(w: WorkerId)
      requires Valid() && SweepingAt(w, Idle) && PcOf(w) == Starting
      modifies this`trace
      ensures Valid() && At(w, Polling) && trace == old(trace) + [JudgeQueue.Open(w)]
    {
      hide Run;
      Happened(JudgeQueue.Open(w));
    }

    /** The start of the application: word first, then one sweep, then the loops. */
    method StartUp(keys: seq<WorkerId>) returns (w: WorkerId, recovered: nat)
      requires Valid() && forall k :: k in keys ==> k < |lists|
      modifies this`queue, this`lists, this`beats, this`trace
      ensures Valid() && At(w, Polling) && w == |old(lists)| && |lists| == w + 1 && lists[w] == []
      ensures beats == old(beats) + {w}
      ensures recovered == |queue| - |old(queue)| && old(queue) == queue[recovered..]
      ensures multiset(queue[..recovered]) == Stranded(old(lists), Silent(keys, w, beats))
    {
      hide Run, Valid, SweepingAt, PcOf, At;
      w := Boot();
      recovered := RecoverOrphans(w, keys);
      StrangerStrandsNothing(old(lists), Silent(keys, w, beats));
      Open(w);
    }

    /** The end of the application: the tasks are cancelled, then the word is taken back. */
    method ShutDown(w: WorkerId)
      requires Valid() && SweepingAt(w, Idle) && PcOf(w) != Starting
      modifies this`beats, this`trace
      ensures Valid() && beats == old(beats) - {w} && PcOf(w) == Gone
      ensures trace == old(trace) + [JudgeQueue.Cancel(w), JudgeQueue.Withdraw(w)]
    {
      hide Run;
      Happened(JudgeQueue.Cancel(w));
      Withdraw(w);
    }

    /** BLMOVE queue own-list LEFT RIGHT */
    method Take(w: WorkerId) returns (raw: Payload)
      requires Valid() && At(w, Polling) && queue != []
      modifies this`queue, this`lists, this`trace
      ensures Valid() && At(w, Parsing(raw)) && raw == old(queue)[0] && queue == old(queue)[1..]
      ensures w < |old(lists)| && lists == old(lists)[w := old(lists)[w] + [raw]]
      ensures trace == old(trace) + [JudgeQueue.Take(w)]
      ensures forall id :: Attempts(Machine(), id) == Attempts(old(Machine()), id)
    {
      hide Run;
      raw := queue[0];
      queue, lists := queue[1..], lists[w := lists[w] + [raw]];
      Happened(JudgeQueue.Take(w));
    }

    /** One pass of worker_loop: nothing when the wait runs out on an empty queue, otherwise the head of the queue
        is taken and dealt with, and the own list holds again what it held before. */
    method WorkOnce(w: WorkerId, outcome: Outcome)
      requires Valid() && At(w, Polling)
      modifies this
      ensures Valid() && At(w, Polling) && |lists| == |old(lists)|
      ensures old(queue) == [] ==> trace == old(trace)
      ensures old(queue) != [] ==>
        var raw := old(queue)[0];
        && queue == old(queue)[1..]
        && (forall x: WorkerId :: x < |lists| ==> multiset(lists[x]) == multiset(old(lists)[x]))
        && (raw.Malformed? ==> dead == old(dead) + [raw] && results == old(results))
        && (raw.Request? && Attempts(old(Machine()), raw.id) < limit ==>
              && dead == old(dead)
              && (outcome.Returned? ==> results == old(results) + [Answer(raw, outcome.verdict, false)])
              && (outcome.Raised? ==> results == old(results) + [Answer(raw, RE, false)]))
        && (raw.Request? && Attempts(old(Machine()), raw.id) >= limit ==>
              dead == old(dead) + [raw] && results == old(results) + [Answer(raw, RE, true)])
    {
      hide Run, Without, At, Valid, Attempts, Machine;
      if queue == [] {
        return;
      }
      var raw := Take(w);
      ghost var held := old(lists)[w];
      HandleOne(w, raw, outcome);
      TakenIsRemoved(held, raw);
    }
  }

  /** The listed workers whose lists are anybody's to take. */
  function Silent(keys: seq<WorkerId>, me: WorkerId, beats: set<WorkerId>): set<WorkerId> {
    set k | k in keys && k != me && k !in beats
  }

  lemma SilentStep(keys: seq<WorkerId>, me: WorkerId, beats: set<WorkerId>, i: nat)
    requires i < |keys|
    ensures var before := Silent(keys[..i], me, beats);
      Silent(keys[..i + 1], me, beats) == if keys[i] != me && keys[i] !in beats then before + {keys[i]} else before
  {
    assert keys[..i + 1] == keys[..i] + [keys[i]];
  }

  /** Everything on the lists of these workers. */
  ghost function Stranded(lists: seq<seq<Payload>>, silent: set<WorkerId>): multiset<Payload> {
    if lists == [] then multiset{} else
    var n := |lists| - 1;
    Stranded(lists[..n], silent) + if n in silent then multiset(lists[n]) else multiset{}
  }

  lemma {:induction false} NobodyStranded(lists: seq<seq<Payload>>)
    ensures Stranded(lists, {}) == multiset{}
  {
    if lists != [] {
      NobodyStranded(lists[..|lists| - 1]);
    }
  }

  lemma {:induction false} SameStranded(lists: seq<seq<Payload>>, a: set<WorkerId>, b: set<WorkerId>)
    requires forall w: WorkerId :: w < |lists| ==> (w in a <==> w in b)
    ensures Stranded(lists, a) == Stranded(lists, b)
  {
    if lists != [] {
      SameStranded(lists[..|lists| - 1], a, b);
    }
  }

  lemma {:induction false} OneMoreStranded(lists: seq<seq<Payload>>, silent: set<WorkerId>, owner: WorkerId)
    requires owner < |lists|
    ensures Stranded(lists, silent + {owner})
         == Stranded(lists, silent) + if owner in silent then multiset{} else multiset(lists[owner])
  {
    var n := |lists| - 1;
    if owner in silent {
      assert silent + {owner} == silent;
    } else if owner == n {
      SameStranded(lists[..n], silent + {owner}, silent);
    } else {
      OneMoreStranded(lists[..n], silent, owner);
    }
  }

  /** Once a list is reversed onto the queue, its entries are in front with those taken over before. */
  lemma TakenOver(lists: seq<seq<Payload>>, silent: set<WorkerId>, owner: WorkerId, taken: seq<Payload>,
                  queue: seq<Payload>, count: nat)
    requires owner < |lists| && taken == (if owner in silent then [] else lists[owner])
    requires count <= |queue| && multiset(queue[..count]) == Stranded(lists, silent)
    ensures var (after, n) := (Reversed(taken) + queue, count + |taken|);
      && n <= |after| && after[n..] == queue[count..]
      && multiset(after[..n]) == Stranded(lists, silent + {owner})
  {
    hide Reversed, Stranded;
    OneMoreStranded(lists, silent, owner);
    ReversedKeeps(taken);
    FrontOf(Reversed(taken), taken, queue, count);
    if owner in silent {
      assert multiset(queue[..count]) + multiset(taken) == multiset(queue[..count]);
    }
  }

  lemma FrontOf(head: seq<Payload>, taken: seq<Payload>, queue: seq<Payload>, count: nat)
    requires count <= |queue| && |head| == |taken| && multiset(head) == multiset(taken)
    ensures var (after, n) := (head + queue, count + |taken|);
      && n <= |after| && after[n..] == queue[count..]
      && multiset(after[..n]) == multiset(queue[..count]) + multiset(taken)
  {
    assert (head + queue)[..count + |taken|] == head + queue[..count];
  }

  /** A worker that just started has nothing to lose. */
  lemma StrangerStrandsNothing(lists: seq<seq<Payload>>, silent: set<WorkerId>)
    ensures Stranded(lists + [[]], silent) == Stranded(lists, silent)
  {
    assert (lists + [[]])[..|lists|] == lists;
  }

  lemma {:induction false} ReversedKeeps(ps: seq<Payload>)
    ensures multiset(Reversed(ps)) == multiset(ps) && |Reversed(ps)| == |ps|
  {
    if ps != [] {
      ReversedKeeps(ps[..|ps| - 1]);
      assert ps == ps[..|ps| - 1] + [ps[|ps| - 1]];
    }
  }

  lemma {:induction false} WithoutTakesOne(ps: seq<Payload>, p: Payload)
    requires p in ps
    ensures multiset(Without(ps, p)) == multiset(ps) - multiset{p}
  {
    assert ps == [ps[0]] + ps[1..];
    if ps[0] != p {
      WithoutTakesOne(ps[1..], p);
    }
  }

  /** Taking an entry onto the list and removing one equal to it leaves the same entries. */
  lemma TakenIsRemoved(ps: seq<Payload>, p: Payload)
    ensures multiset(Without(ps + [p], p)) == multiset(ps)
  {
    assert (ps + [p])[|ps|] == p;
    WithoutTakesOne(ps + [p], p);
  }

  function Reversed(ps: seq<Payload>): seq<Payload> {
    if ps == [] then [] else [ps[|ps| - 1]] + Reversed(ps[..|ps| - 1])
  }

  lemma {:induction false} ReversedAt(ps: seq<Payload>)
    ensures |Reversed(ps)| == |ps| && forall k :: 0 <= k < |ps| ==> Reversed(ps)[k] == ps[|ps| - 1 - k]
  {
    if ps != [] {
      ReversedAt(ps[..|ps| - 1]);
    }
  }

  /** Moving entry k of a drained list: what is left of the list, and what is in front of the queue. */
  lemma OneMoreMoved(ps: seq<Payload>, k: nat, lists: seq<seq<Payload>>, owner: WorkerId, queue: seq<Payload>)
    requires k < |ps| && owner < |lists|
    ensures ps[k..][1..] == ps[k + 1..]
    ensures lists[owner := ps[k..]][owner := ps[k + 1..]] == lists[owner := ps[k + 1..]]
    ensures [ps[k]] + (Reversed(ps[..k]) + queue) == Reversed(ps[..k + 1]) + queue
  {
    assert ps[..k + 1][..k] == ps[..k];
  }
}
