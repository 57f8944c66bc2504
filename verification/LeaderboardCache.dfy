/**
 The leaderboard page cache of one contest: pages are stored under a generation counter, writers
 commit, then bump the counter, then signal; readers build their key, look it up, read the database
 and store what they read. Each of these is one step, and the steps interleave freely.
 */
module LeaderboardCache {
  import opened Bounds
  import opened Sets
  import opened Wrappers

  type Page = string

  /** A request for a page. `floor` is the newest version that had been signalled when it started. */
  datatype Reader =
    | Seeding(page: Page, floor: nat)                        // found no generation; will write 0
    | Keyed(page: Page, floor: nat, gen: nat)
    | Missed(page: Page, floor: nat, gen: nat)
    | Fetched(page: Page, floor: nat, gen: nat, version: nat) // rows read, response not stored yet
    | Served(page: Page, floor: nat, version: nat)

  datatype Writer = Committed(version: nat) | Reseeding(version: nat) | Busted(version: nat) | Signalled(version: nat)

  /** `version` counts commits to the standings; `covered` is the newest version a bust has been run for,
      and `floors` remembers it for each generation at the moment the generation began. */
  datatype State = State(
    version: nat,
    gen: Option<nat>,
    pages: map<(nat, Page), nat>,
    readers: seq<Reader>,
    writers: seq<Writer>,
    signalled: nat,
    covered: nat,
    floors: map<nat, nat>)

  datatype Event =
    | Start(page: Page)            // get_generation, first half: cache.get
    | Seed(r: nat)                 // get_generation, second half: cache.set(key, 0)
    | Lookup(r: nat)
    | Fetch(r: nat)
    | Store(r: nat)
    | Commit
    | Incr(w: nat)                 // bust: cache.incr
    | Reseed(w: nat)               // bust after ValueError: cache.set(key, 1)
    | Signal(w: nat)
    | ExpirePage(key: (nat, Page)) // TTL or eviction
    | EvictGeneration

  function NextReader(s: State, r: nat, e: Event): State
    requires r < |s.readers|
  {
    match (e, s.readers[r])
    case (Seed(_), Seeding(p, f)) =>
      s.(gen := Some(0), readers := s.readers[r := Keyed(p, f, 0)],
         floors := if s.gen.None? then s.floors[0 := s.covered] else s.floors)
    case (Lookup(_), Keyed(p, f, g)) =>
      s.(readers := s.readers[r := if (g, p) in s.pages then Served(p, f, s.pages[(g, p)]) else Missed(p, f, g)])
    case (Fetch(_), Missed(p, f, g)) => s.(readers := s.readers[r := Fetched(p, f, g, s.version)])
    case (Store(_), Fetched(p, f, g, v)) =>
      s.(pages := s.pages[(g, p) := v], readers := s.readers[r := Served(p, f, v)])
    case _ => s
  }

  function NextWriter(s: State, w: nat, e: Event): State
    requires w < |s.writers|
  {
    match (e, s.writers[w])
    case (Incr(_), Committed(v)) =>
      if s.gen.None? then s.(writers := s.writers[w := Reseeding(v)])
      else
        var covered := Max(s.covered, v);
        s.(gen := Some(s.gen.value + 1), writers := s.writers[w := Busted(v)], covered := covered,
           floors := s.floors[s.gen.value + 1 := covered])
    case (Reseed(_), Reseeding(v)) =>
      var covered := Max(s.covered, v);
      s.(gen := Some(1), writers := s.writers[w := Busted(v)], covered := covered, floors := s.floors[1 := covered])
    case (Signal(_), Busted(v)) => s.(writers := s.writers[w := Signalled(v)], signalled := Max(s.signalled, v))
    case _ => s
  }

  function Next(s: State, e: Event): State {
    match e
    case Start(p) =>
      s.(readers := s.readers + [if s.gen.None? then Seeding(p, s.signalled) else Keyed(p, s.signalled, s.gen.value)])
    case Commit => s.(version := s.version + 1, writers := s.writers + [Committed(s.version + 1)])
    case ExpirePage(key) => s.(pages := s.pages - {key})
    case EvictGeneration => s.(gen := None)
    case Seed(r) => if r < |s.readers| then NextReader(s, r, e) else s
    case Lookup(r) => if r < |s.readers| then NextReader(s, r, e) else s
    case Fetch(r) => if r < |s.readers| then NextReader(s, r, e) else s
    case Store(r) => if r < |s.readers| then NextReader(s, r, e) else s
    case Incr(w) => if w < |s.writers| then NextWriter(s, w, e) else s
    case Reseed(w) => if w < |s.writers| then NextWriter(s, w, e) else s
    case Signal(w) => if w < |s.writers| then NextWriter(s, w, e) else s
  }

  function Run(s: State, es: seq<Event>): State
    decreases |es|
  {
    if es == [] then s else Run(Next(s, es[0]), es[1..])
  }

  /** An empty cache over some version of the standings, with the generation key present or not. */
  function Init(version: nat, gen: Option<nat>): State {
    State(version, gen, map[], [], [], 0, 0, if gen.Some? then map[gen.value := 0] else map[])
  }

  // ---------------------------------------------------------------- freshness

  /** A plain set that takes back a counter others have moved on: the key was absent when its caller looked, and
      by now stands at the value to be written, or past it, through someone's bust. */
  predicate Overtaken(s: State, e: Event) {
    match e
    case Seed(r) => r < |s.readers| && s.readers[r].Seeding? && s.gen.Some? && s.gen.value > 0
    case Reseed(w) => w < |s.writers| && s.writers[w].Reseeding? && s.gen.Some? && s.gen.value > 0
    case _ => false
  }

  /** The key is never evicted and no set is overtaken. */
  predicate InTime(s: State, es: seq<Event>)
    decreases |es|
  {
    es == [] || (es[0] != EvictGeneration && !Overtaken(s, es[0]) && InTime(Next(s, es[0]), es[1..]))
  }

  /** A version read under generation g is new enough for g. */
  predicate NewEnough(s: State, g: nat, v: nat) {
    g in s.floors && s.floors[g] <= v
  }

  predicate ReaderOk(s: State, r: nat) {
    r < |s.readers| ==>
      match s.readers[r]
      case Seeding(_, f) => f == 0
      case Keyed(_, f, g) => g in s.floors && f <= s.floors[g]
      case Missed(_, f, g) => g in s.floors && f <= s.floors[g]
      case Fetched(_, f, g, v) => g in s.floors && f <= s.floors[g] <= v
      case Served(_, f, v) => f <= v
  }

  predicate WriterOk(s: State, w: nat) {
    w < |s.writers| ==>
      match s.writers[w]
      case Committed(v) => v <= s.version
      case Reseeding(v) => v <= s.version
      case Busted(v) => v <= s.covered
      case Signalled(v) => v <= s.covered
  }

  /** The generation only grows, each generation's floor is the newest version busted before it began, and no
      page is older than the floor of the generation it is stored under. Until the key is first set, nothing is. */
  ghost predicate Fresh(s: State) {
    && s.signalled <= s.covered <= s.version
    && (if s.gen.None? then s.floors == map[] && s.covered == 0
        else s.gen.value in s.floors && s.floors[s.gen.value] == s.covered)
    && (forall g :: g in s.floors ==> s.gen.Some? && g <= s.gen.value && s.floors[g] <= s.covered)
    && (forall g, p :: (g, p) in s.pages ==> NewEnough(s, g, s.pages[(g, p)]))
    && (forall r: nat :: ReaderOk(s, r))
    && (forall w: nat :: WriterOk(s, w))
  }

  lemma ReaderStepKeepsFresh(s: State, r: nat, e: Event)
    requires Fresh(s) && r < |s.readers| && (e.Seed? ==> e.r == r) && !Overtaken(s, e)
    ensures Fresh(NextReader(s, r, e))
  {
    var t := NextReader(s, r, e);
    assert ReaderOk(s, r);
    forall x: nat ensures ReaderOk(t, x) { assert ReaderOk(s, x); }
    forall x: nat ensures WriterOk(t, x) { assert WriterOk(s, x); }
  }

  lemma WriterStepKeepsFresh(s: State, w: nat, e: Event)
    requires Fresh(s) && w < |s.writers| && (e.Reseed? ==> e.w == w) && !Overtaken(s, e)
    ensures Fresh(NextWriter(s, w, e))
  {
    var t := NextWriter(s, w, e);
    assert WriterOk(s, w);
    forall x: nat ensures ReaderOk(t, x) { assert ReaderOk(s, x); }
    forall x: nat ensures WriterOk(t, x) { assert WriterOk(s, x); }
  }

  lemma StepKeepsFresh(s: State, e: Event)
    requires Fresh(s) && e != EvictGeneration && !Overtaken(s, e)
    ensures Fresh(Next(s, e))
  {
    if e.Start? || e.Commit? || e.ExpirePage? {
      var t := Next(s, e);
      forall x: nat ensures ReaderOk(t, x) { assert ReaderOk(s, x); }
      forall x: nat ensures WriterOk(t, x) { assert WriterOk(s, x); }
    } else if e.Incr? || e.Reseed? || e.Signal? {
      if e.w < |s.writers| { WriterStepKeepsFresh(s, e.w, e); }
    } else if e.r < |s.readers| {
      ReaderStepKeepsFresh(s, e.r, e);
    }
  }

  lemma {:induction false} RunKeepsFresh(s: State, es: seq<Event>)
    requires Fresh(s) && InTime(s, es)
    ensures Fresh(Run(s, es))
    decreases |es|
  {
    if es != [] {
      StepKeepsFresh(s, es[0]);
      RunKeepsFresh(Next(s, es[0]), es[1..]);
    }
  }

  /** For every interleaving in which the key is not evicted and no set of it is overtaken, the first setting
      included: a request that starts after a signal is never answered with standings older than the signal was
      about, and every stored page is at least as new as every commit whose bust led to the generation it is
      stored under. */
  lemma ReadersSeeWhatWasSignalled(version: nat, gen: Option<nat>, es: seq<Event>, r: nat, g: nat, p: Page)
    requires InTime(Init(version, gen), es)
    ensures var s := Run(Init(version, gen), es);
      && (r < |s.readers| && s.readers[r].Served? ==> s.readers[r].floor <= s.readers[r].version)
      && ((g, p) in s.pages ==> g in s.floors && s.floors[g] <= s.pages[(g, p)])
      && (s.gen.Some? ==> s.gen.value in s.floors && s.signalled <= s.floors[s.gen.value])
  {
    RunKeepsFresh(Init(version, gen), es);
    var s := Run(Init(version, gen), es);
    assert ReaderOk(s, r);
    assert (g, p) in s.pages ==> NewEnough(s, g, s.pages[(g, p)]);
  }

  /** Nobody is about to set the key outright. */
  ghost predicate NoSetPending(s: State) {
    && s.gen.Some?
    && (forall r :: 0 <= r < |s.readers| ==> !s.readers[r].Seeding?)
    && (forall w :: 0 <= w < |s.writers| ==> !s.writers[w].Reseeding?)
  }

  /** With the key in place and not evicted, every schedule whatsoever is in time. */
  lemma {:induction false} KeyInPlaceIsInTime(s: State, es: seq<Event>)
    requires NoSetPending(s) && EvictGeneration !in es
    ensures InTime(s, es)
    decreases |es|
  {
    if es != [] {
      assert es[0] in es;
      KeyInPlaceIsInTime(Next(s, es[0]), es[1..]);
    }
  }

  // ---------------------------------------------------------------- exactly when the promise holds

  /** Some request was answered with standings older than what had been signalled before it started. */
  ghost predicate ServesStale(s: State) {
    exists r: nat :: StaleAt(s, r)
  }

  predicate StaleAt(s: State, r: nat) {
    r < |s.readers| && s.readers[r].Served? && s.readers[r].version < s.readers[r].floor
  }

  lemma FreshIsNotStale(s: State)
    requires Fresh(s)
    ensures !ServesStale(s)
  {
    forall r: nat ensures !StaleAt(s, r) { assert ReaderOk(s, r); }
  }

  lemma {:induction false} RunConcat(s: State, a: seq<Event>, b: seq<Event>)
    ensures Run(s, a + b) == Run(Run(s, a), b)
    decreases |a|
  {
    if a == [] {
      assert a + b == b;
    } else {
      assert (a + b)[1..] == a[1..] + b;
      RunConcat(Next(s, a[0]), a[1..], b);
    }
  }

  lemma RunThree(s: State, a: Event, b: Event, c: Event)
    ensures Run(s, [a, b, c]) == Next(Next(Next(s, a), b), c)
    ensures Run(s, [a]) == Next(s, a)
  {
    assert [a, b, c][1..] == [b, c] && [b, c][1..] == [c];
    assert Run(Next(s, a), [b, c]) == Run(Next(Next(s, a), b), [c]);
  }

  /** One commit, bust and signal: the counter moves on by one, pages and requests stay. */
  lemma OneWrite(s: State) returns (es: seq<Event>)
    requires s.gen.Some?
    ensures EvictGeneration !in es
    ensures var t := Run(s, es);
      && t.gen == Some(s.gen.value + 1) && t.pages == s.pages && t.readers == s.readers && s.writers <= t.writers
      && t.version == s.version + 1 && t.signalled > s.version
  {
    var w := |s.writers|;
    es := [Commit, Incr(w), Signal(w)];
    RunThree(s, es[0], es[1], es[2]);
    hide Run;
    var t := Next(Next(s, Commit), Incr(w));
    assert t.writers == s.writers + [Busted(s.version + 1)];
  }

  lemma {:induction false} Writes(s: State, n: nat) returns (es: seq<Event>)
    requires s.gen.Some?
    ensures EvictGeneration !in es
    ensures var t := Run(s, es);
      && t.gen == Some(s.gen.value + n) && t.pages == s.pages && t.readers == s.readers && s.writers <= t.writers
      && t.version == s.version + n && (n > 0 ==> t.signalled > s.version)
  {
    if n == 0 {
      es := [];
    } else {
      var before := Writes(s, n - 1);
      var last := OneWrite(Run(s, before));
      RunConcat(s, before, last);
      es := before + last;
    }
  }

  /** One request from start to answer leaves its page stored under the present generation. */
  lemma OneRead(s: State, p: Page) returns (es: seq<Event>)
    requires s.gen.Some? && forall g :: (g, p) !in s.pages
    ensures EvictGeneration !in es
    ensures var (t, key) := (Run(s, es), (s.gen.value, p));
      && t.gen == s.gen && t.version == s.version && t.writers == s.writers && s.readers <= t.readers
      && key in t.pages && t.pages[key] == t.version
  {
    var r := |s.readers|;
    es := [Start(p), Lookup(r), Fetch(r)] + [Store(r)];
    RunConcat(s, [Start(p), Lookup(r), Fetch(r)], [Store(r)]);
    RunThree(s, Start(p), Lookup(r), Fetch(r));
    RunThree(Run(s, [Start(p), Lookup(r), Fetch(r)]), Store(r), Commit, Commit);
    hide Run;
    var keyed := Next(s, Start(p));
    assert keyed.readers == s.readers + [Keyed(p, s.signalled, s.gen.value)];
    var looked := Next(keyed, Lookup(r));
    assert looked.readers[r] == Missed(p, s.signalled, s.gen.value);
    assert Next(looked, Fetch(r)).readers[r] == Fetched(p, s.signalled, s.gen.value, s.version);
  }

  /** A request that starts now and finds its page stored is answered from the store. */
  lemma OneHit(s: State, p: Page) returns (es: seq<Event>)
    requires s.gen.Some? && (s.gen.value, p) in s.pages && s.pages[(s.gen.value, p)] < s.signalled
    ensures EvictGeneration !in es && ServesStale(Run(s, es))
  {
    var r := |s.readers|;
    es := [Start(p)] + [Lookup(r)];
    RunConcat(s, [Start(p)], [Lookup(r)]);
    RunThree(s, Start(p), Commit, Commit);
    RunThree(Next(s, Start(p)), Lookup(r), Commit, Commit);
    hide Run;
    assert StaleAt(Next(Next(s, Start(p)), Lookup(r)), r);
  }

  /** There is always a page nobody has asked for yet: one with a longer name than all that are stored. */
  lemma {:induction false} UnaskedPage(keys: set<(nat, Page)>) returns (p: Page)
    ensures forall key :: key in keys ==> |key.1| < |p|
    decreases |keys|
  {
    if keys == {} {
      p := "1";
    } else {
      var key := Any(keys);
      p := UnaskedPage(keys - {key});
      if |key.1| >= |p| {
        p := key.1 + "1";
      }
      forall k | k in keys ensures |k.1| < |p| {
        assert k == key || k in keys - {key};
      }
    }
  }

  /** Where the counter stands after the pending set, and where the set comes from. */
  predicate Pending(s: State, e: Event, low: nat) {
    || (e.Seed? && e.r < |s.readers| && s.readers[e.r].Seeding? && low == 0)
    || (e.Reseed? && e.w < |s.writers| && s.writers[e.w].Reseeding? && low == 1)
  }

  /** A set of the counter that somebody is about to make can wait until the counter is past it and a page is
      stored, take it back, and let it come up to that page's generation again over newer standings. */
  lemma PendingSetStrikes(s: State, e: Event, low: nat) returns (es: seq<Event>)
    requires s.gen.Some? && Pending(s, e, low)
    ensures EvictGeneration !in es && ServesStale(Run(s, es))
  {
    var p := UnaskedPage(s.pages.Keys);
    hide Run, ServesStale;
    var es1 := Writes(s, 2);
    var s1 := Run(s, es1);
    forall g ensures (g, p) !in s1.pages {
      assert (g, p) in s.pages.Keys ==> |(g, p).1| < |p|;
    }
    var es2 := OneRead(s1, p);
    var s2 := Run(s1, es2);
    RunThree(s2, e, Commit, Commit);
    var s3 := Next(s2, e);
    assert s2.readers[..|s.readers|] == s.readers && s2.writers[..|s.writers|] == s.writers;
    assert s3.gen == Some(low) && s3.pages == s2.pages && s3.version == s2.version;
    var es4 := Writes(s3, s2.gen.value - low);
    var s4 := Run(s3, es4);
    var es5 := OneHit(s4, p);
    es := es1 + (es2 + ([e] + (es4 + es5)));
    RunConcat(s, es1, es2 + ([e] + (es4 + es5)));
    RunConcat(s1, es2, [e] + (es4 + es5));
    RunConcat(s2, [e], es4 + es5);
    RunConcat(s3, es4, es5);
  }

  /** Without the key, two requests find it missing; once the first has seeded it, the second's set is pending. */
  lemma MissingKeyStrikes(s: State) returns (es: seq<Event>)
    requires s.gen.None?
    ensures EvictGeneration !in es && ServesStale(Run(s, es))
  {
    var p, r := "1", |s.readers|;
    var es1 := [Start(p), Start(p), Seed(r)];
    var t := Run(s, es1);
    RunThree(s, Start(p), Start(p), Seed(r));
    hide Run, ServesStale;
    assert Next(Next(s, Start(p)), Start(p)).readers == s.readers + [Seeding(p, s.signalled), Seeding(p, s.signalled)];
    var es2 := PendingSetStrikes(t, Seed(r + 1), 0);
    RunConcat(s, es1, es2);
    es := es1 + es2;
  }

  lemma SetPendingStrikes(s: State) returns (es: seq<Event>)
    requires !NoSetPending(s)
    ensures EvictGeneration !in es && ServesStale(Run(s, es))
  {
    hide Run, ServesStale;
    if s.gen.None? {
      es := MissingKeyStrikes(s);
    } else if r: nat :| r < |s.readers| && s.readers[r].Seeding? {
      es := PendingSetStrikes(s, Seed(r), 0);
    } else {
      var w: nat :| w < |s.writers| && s.writers[w].Reseeding?;
      es := PendingSetStrikes(s, Reseed(w), 1);
    }
  }

  /** The exact condition. From a fresh state nobody is ever served stale standings, whatever the schedule short of
      an eviction, if and only if the key is present and nobody is about to set it outright. */
  lemma SafeIff(s: State)
    requires Fresh(s)
    ensures NoSetPending(s) <==> forall es :: EvictGeneration !in es ==> !ServesStale(Run(s, es))
  {
    if NoSetPending(s) {
      forall es | EvictGeneration !in es ensures !ServesStale(Run(s, es)) {
        KeyInPlaceIsInTime(s, es);
        RunKeepsFresh(s, es);
        FreshIsNotStale(Run(s, es));
      }
    } else {
      var es := SetPendingStrikes(s);
    }
  }

  /** In particular the first seeding is a gap: two early requests are enough to open it. */
  lemma LateSeedServesStalePage(version: nat)
    ensures exists es :: EvictGeneration !in es && ServesStale(Run(Init(version, None), es))
  {
    var es := SetPendingStrikes(Init(version, None));
  }

  /** And an eviction is never safe: from any state at all, losing the key opens the way to stale standings. */
  lemma EvictionIsNeverSafe(s: State)
    ensures exists es :: EvictGeneration !in es && ServesStale(Run(Next(s, EvictGeneration), es))
  {
    var es := SetPendingStrikes(Next(s, EvictGeneration));
  }

  // ---------------------------------------------------------------- the calls themselves

  /** The cache and the standings behind it as one process sees them, when nobody interleaves: get_generation,
      bust_leaderboard_cache, the leaderboard view, and a score commit with what it publishes. */
  class Cache {
    var gen: Option<nat>
    var pages: map<(nat, Page), nat>
    var version: nat

    const origin: nat
    ghost var trace: seq<Event>

    ghost function Machine(): State
      reads this`trace
    {
      Run(Init(origin, None), trace)
    }

    /** Cache and database hold exactly what the protocol state says they hold. */
    ghost predicate Valid()
      reads this
    {
      gen == Machine().gen && pages == Machine().pages && version == Machine().version
    }

    constructor (version: nat)
      ensures Valid() && Fresh(Machine()) && this.version == version && trace == []
    {
      origin, this.version := version, version;
      gen, pages, trace := None, map[], [];
    }

    /** The event just performed joins the trace. */
    ghost method Happened(e: Event)
      modifies this`trace
      ensures trace == old(trace) + [e] && Machine() == Next(old(Machine()), e)
    {
      RunConcat(Init(origin, None), trace, [e]);
      trace := trace + [e];
    }

    /** The request it is called for ends up keyed with what is now the stored counter, so every further call
        answers the same until a bust or an eviction. */
    method GetGeneration(ghost page: Page) returns (g: nat)
      requires Valid()
      modifies this`gen, this`trace
      ensures Valid() && gen == Some(g) && (old(gen).Some? ==> gen == old(gen))
      ensures Machine().readers == old(Machine()).readers + [Keyed(page, old(Machine()).signalled, g)]
      ensures Machine().signalled == old(Machine()).signalled && Machine().writers == old(Machine()).writers
      ensures Fresh(old(Machine())) ==> Fresh(Machine())
    {
      ghost var r := |Machine().readers|;
      if Fresh(Machine()) { StepKeepsFresh(Machine(), Start(page)); }
      hide Fresh, Run;
      Happened(Start(page));
      if gen.None? {
        if Fresh(Machine()) { StepKeepsFresh(Machine(), Seed(r)); }
        gen := Some(0);
        Happened(Seed(r));
      }
      g := gen.value;
    }

    /** The view: a hit answers with what was stored, a miss with the standings as they are, now stored. From a
        fresh cache the answer is at least as new as everything signalled before the call. */
    method Leaderboard(page: Page) returns (answer: nat)
      requires Valid()
      modifies this`gen, this`pages, this`trace
      ensures Valid() && gen.Some? && (old(gen).Some? ==> gen == old(gen))
      ensures answer == if (gen.value, page) in old(pages) then old(pages)[(gen.value, page)] else version
      ensures pages == old(pages)[(gen.value, page) := answer]
      ensures Machine().readers == old(Machine()).readers + [Served(page, old(Machine()).signalled, answer)]
      ensures Fresh(old(Machine())) ==> Fresh(Machine()) && old(Machine()).signalled <= answer
    {
      ghost var r := |Machine().readers|;
      ghost var wasFresh := Fresh(Machine());
      hide Fresh, Run, Next;
      var g := GetGeneration(page);
      if wasFresh { StepKeepsFresh(Machine(), Lookup(r)); }
      LooksUp(Machine(), r);
      Happened(Lookup(r));
      if (g, page) in pages {
        answer := pages[(g, page)];
      } else {
        if wasFresh { StepKeepsFresh(Machine(), Fetch(r)); }
        Fetches(Machine(), r);
        Happened(Fetch(r));
        answer := version;
        if wasFresh { StepKeepsFresh(Machine(), Store(r)); }
        Stores(Machine(), r);
        pages := pages[(g, page) := version];
        Happened(Store(r));
      }
      if wasFresh { AnsweredInTime(Machine(), r); }
    }

    /** A score commit; `w` is the writer that will publish it. */
    method CommitScore() returns (ghost w: nat)
      requires Valid()
      modifies this`version, this`trace
      ensures Valid() && version == old(version) + 1
      ensures w < |Machine().writers| && Machine().writers[w] == Committed(version)
      ensures Fresh(old(Machine())) ==> Fresh(Machine())
    {
      w := |Machine().writers|;
      if Fresh(Machine()) { StepKeepsFresh(Machine(), Commit); }
      hide Fresh, Run;
      version := version + 1;
      Happened(Commit);
    }

    /** The counter moves on, or starts again at 1 when there is none. From a fresh cache no stored page answers
        any request afterwards. */
    method Bust(ghost w: nat)
      requires Valid() && w < |Machine().writers| && Machine().writers[w].Committed?
      modifies this`gen, this`trace
      ensures Valid() && gen.Some? && gen.value > 0 && (old(gen).Some? ==> gen.value == old(gen).value + 1)
      ensures Machine().writers == old(Machine()).writers[w := Busted(old(Machine()).writers[w].version)]
      ensures Fresh(old(Machine())) ==> Fresh(Machine()) && forall p :: (gen.value, p) !in pages
    {
      ghost var before := Machine();
      if Fresh(before) { StepKeepsFresh(before, Incr(w)); }
      if Fresh(before) { NoPageAhead(before); }
      hide Fresh, Run, Next;
      Increments(Machine(), w);
      Happened(Incr(w));
      if gen.Some? {
        gen := Some(gen.value + 1);
      } else {
        if Fresh(Machine()) { StepKeepsFresh(Machine(), Reseed(w)); }
        gen := Some(1);
        Reseeds(Machine(), w);
        Happened(Reseed(w));
      }
    }

    /** What runs once the commit is durable: bust, then signal. */
    method Publish(ghost w: nat)
      requires Valid() && w < |Machine().writers| && Machine().writers[w].Committed?
      modifies this`gen, this`trace
      ensures Valid() && gen.Some? && Machine().signalled >= old(Machine()).writers[w].version
      ensures Machine().writers == old(Machine()).writers[w := Signalled(old(Machine()).writers[w].version)]
      ensures Fresh(old(Machine())) ==> Fresh(Machine()) && forall p :: (gen.value, p) !in pages
    {
      ghost var wasFresh := Fresh(Machine());
      hide Fresh, Run;
      Bust(w);
      if wasFresh { StepKeepsFresh(Machine(), Signal(w)); }
      Happened(Signal(w));
    }

    method Evict()
      requires Valid()
      modifies this`gen, this`trace
      ensures Valid() && gen == None && pages == old(pages)
    {
      gen := None;
      Happened(EvictGeneration);
    }
  }

  // The steps of one request, and of one bust, spelled out.

  lemma LooksUp(s: State, r: nat)
    requires r < |s.readers| && s.readers[r].Keyed?
    ensures var c, hit := s.readers[r], (s.readers[r].gen, s.readers[r].page);
      Next(s, Lookup(r)) == s.(readers := s.readers[r :=
        if hit in s.pages then Served(c.page, c.floor, s.pages[hit]) else Missed(c.page, c.floor, c.gen)])
  {
  }

  lemma Fetches(s: State, r: nat)
    requires r < |s.readers| && s.readers[r].Missed?
    ensures var c := s.readers[r];
      Next(s, Fetch(r)) == s.(readers := s.readers[r := Fetched(c.page, c.floor, c.gen, s.version)])
  {
  }

  lemma Stores(s: State, r: nat)
    requires r < |s.readers| && s.readers[r].Fetched?
    ensures var c := s.readers[r];
      Next(s, Store(r)) == s.(pages := s.pages[(c.gen, c.page) := c.version],
                              readers := s.readers[r := Served(c.page, c.floor, c.version)])
  {
  }

  lemma Increments(s: State, w: nat)
    requires w < |s.writers| && s.writers[w].Committed?
    ensures var (t, v) := (Next(s, Incr(w)), s.writers[w].version);
      && t.version == s.version && t.pages == s.pages
      && (s.gen.Some? ==> t.gen == Some(s.gen.value + 1) && t.writers == s.writers[w := Busted(v)])
      && (s.gen.None? ==> t.gen == None && t.writers == s.writers[w := Reseeding(v)])
  {
  }

  lemma Reseeds(s: State, w: nat)
    requires w < |s.writers| && s.writers[w].Reseeding?
    ensures var t := Next(s, Reseed(w));
      && t.version == s.version && t.pages == s.pages && t.gen == Some(1)
      && t.writers == s.writers[w := Busted(s.writers[w].version)]
  {
  }

  lemma NoPageAhead(s: State)
    requires Fresh(s)
    ensures forall g, p :: (g, p) in s.pages ==> s.gen.Some? && g <= s.gen.value
  {
  }

  lemma AnsweredInTime(s: State, r: nat)
    requires Fresh(s) && r < |s.readers| && s.readers[r].Served?
    ensures s.readers[r].floor <= s.readers[r].version
  {
    assert ReaderOk(s, r);
  }
}
