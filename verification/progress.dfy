/**
 How much a run can still do: creations are counted against the missing keys, the aborts of an
 owner's passes against its distinct keys, and from every state every owner can finish.
 */
module Progress {
  import opened Feed
  import opened Naming
  import opened Objects
  import opened Protocol
  import opened Growth
  import opened Confluence

  // ----- Counting -----

  predicate Creating(cat: Catalog, w: World, l: Label, id: OwnerId) {
    (l == Create(id) || l == Lose(id)) && Creates(cat, w, id)
  }

  // A pass ends early by itself: its builder fails, or its key is taken.
  predicate Aborting(cat: Catalog, w: World, l: Label, id: OwnerId) {
    (l == Create(id) || l == Lose(id)) && CanCreate(cat, w, id) && !Creates(cat, w, id)
  }

  predicate Ending(cat: Catalog, w: World, l: Label, id: OwnerId) {
    id in w.passes && id !in Step(cat, w, l).passes
  }

  predicate Learning(w: World, l: Label, keys: set<Key>) {
    l.Sync? && l.key in keys && l.key !in w.cache && l.key in SyncStep(w, l.key, l.n).cache
  }

  function Count(b: bool): nat {
    if b then 1 else 0
  }

  function Creations(cat: Catalog, w: World, trace: seq<Label>, id: OwnerId): nat {
    if trace == [] then 0 else
      var front, l := trace[..|trace| - 1], trace[|trace| - 1];
      Creations(cat, w, front, id) + Count(Creating(cat, Exec(cat, w, front), l, id))
  }

  function Aborts(cat: Catalog, w: World, trace: seq<Label>, id: OwnerId): nat {
    if trace == [] then 0 else
      var front, l := trace[..|trace| - 1], trace[|trace| - 1];
      Aborts(cat, w, front, id) + Count(Aborting(cat, Exec(cat, w, front), l, id))
  }

  // The keys at which the owner's passes have aborted.
  function AbortedAt(cat: Catalog, w: World, trace: seq<Label>, id: OwnerId): set<Key> {
    if trace == [] then {} else
      var front, l := trace[..|trace| - 1], trace[|trace| - 1];
      var before := Exec(cat, w, front);
      AbortedAt(cat, w, front, id)
      + if Aborting(cat, before, l, id) then {cat.plan(id)[before.passes[id].step]} else {}
  }

  // The owner's passes that have begun and ended.
  function Ended(cat: Catalog, w: World, trace: seq<Label>, id: OwnerId): nat {
    if trace == [] then 0 else
      var front, l := trace[..|trace| - 1], trace[|trace| - 1];
      Ended(cat, w, front, id) + Count(Ending(cat, Exec(cat, w, front), l, id))
  }

  function Lessons(cat: Catalog, w: World, trace: seq<Label>, keys: set<Key>): nat {
    if trace == [] then 0 else
      var front, l := trace[..|trace| - 1], trace[|trace| - 1];
      Lessons(cat, w, front, keys) + Count(Learning(Exec(cat, w, front), l, keys))
  }

  function Missing(keys: set<Key>, from: map<Key, Object>): set<Key> {
    set k | k in keys && k !in from
  }

  function PlanSet(cat: Catalog, id: OwnerId): set<Key> {
    set k | k in cat.plan(id)
  }

  lemma SubsetIsNoLarger<T>(a: set<T>, b: set<T>)
    requires a <= b
    ensures |a| <= |b|
  {
    assert b == a + (b - a);
  }

  lemma MissingOneLess(keys: set<Key>, from: map<Key, Object>, k: Key, o: Object)
    ensures |Missing(keys, from[k := o])| + Count(k in keys && k !in from) == |Missing(keys, from)|
  {
    if k in keys && k !in from {
      assert Missing(keys, from) == Missing(keys, from[k := o]) + {k};
    } else {
      assert Missing(keys, from) == Missing(keys, from[k := o]);
    }
  }

  // ----- Creations -----

  lemma StoreKept(cat: Catalog, w: World, l: Label)
    requires Additive(l) && !((l.Create? || l.Lose?) && Creates(cat, w, l.id))
    ensures Step(cat, w, l).store == w.store
  {
    match l
    case Look(id) => LookOnlyMoves(cat, w, id);
    case Create(id) => CreateOnlyAdds(cat, w, id);
    case Lose(id) => CreateOnlyAdds(cat, w, id);
    case Begin(id) =>
    case Fault(id) =>
    case Sync(k, n) =>
    case SyncOwner(id, n) =>
    case Apply(id, spec) =>
  }

  lemma StoreMade(cat: Catalog, w: World, l: Label)
    requires (l.Create? || l.Lose?) && Creates(cat, w, l.id)
    ensures Step(cat, w, l).store == Made(cat, w, l.id).store
  {
    CreateOnlyAdds(cat, w, l.id);
  }

  // What `actor` creates is one of its own keys.
  lemma StoredByCreate(cat: Catalog, w: World, actor: OwnerId, id: OwnerId) returns (k: Key)
    requires WellFormed(cat) && Sound(cat, w) && Creates(cat, w, actor)
    ensures k in cat.plan(actor) && k !in w.store
    ensures |Missing(PlanSet(cat, id), Made(cat, w, actor).store)| + Count(k in cat.plan(id))
         == |Missing(PlanSet(cat, id), w.store)|
  {
    var p := w.passes[actor];
    assert SoundPass(cat, w.history, w.uids, actor, p);
    BuiltAtPlan(cat, p.owner, p.step);
    var made := cat.build(p.owner, p.step).result;
    k := KeyOf(made);
    MissingOneLess(PlanSet(cat, id), w.store, k, made);
  }

  lemma StoredByStep(cat: Catalog, w: World, l: Label, id: OwnerId)
    requires WellFormed(cat) && Sound(cat, w) && Additive(l)
    ensures |Missing(PlanSet(cat, id), Step(cat, w, l).store)| + Count(Creating(cat, w, l, id))
         <= |Missing(PlanSet(cat, id), w.store)|
  {
    if (l.Create? || l.Lose?) && Creates(cat, w, l.id) {
      StoreMade(cat, w, l);
      var k := StoredByCreate(cat, w, l.id, id);
    } else {
      StoreKept(cat, w, l);
    }
  }

  /** No run creates more than there was to create: along any deletion-free run, with edits, stale
      reads and names that clash, an owner's creations and the keys of its plan still missing are
      together no more than the keys that were missing at the start. */
  lemma {:induction false} CreationsAreBounded(cat: Catalog, w0: World, trace: seq<Label>, id: OwnerId)
    requires WellFormed(cat) && Starts(w0) && AllAdditive(trace)
    ensures Creations(cat, w0, trace, id) + |Missing(PlanSet(cat, id), Exec(cat, w0, trace).store)|
         <= |Missing(PlanSet(cat, id), w0.store)| <= |PlanSet(cat, id)|
  {
    SubsetIsNoLarger(Missing(PlanSet(cat, id), w0.store), PlanSet(cat, id));
    if trace == [] {
      assert Exec(cat, w0, trace) == w0;
    } else {
      var front, l := trace[..|trace| - 1], trace[|trace| - 1];
      CreationsAreBounded(cat, w0, front, id);
      SoundRun(cat, w0, front);
      StoredByStep(cat, Exec(cat, w0, front), l, id);
    }
  }

  // Of the missing keys of `id`, a creation by `actor` takes away one if they are the same.
  ghost predicate StoresItsOwn(cat: Catalog, w: World, actor: OwnerId, id: OwnerId) {
    Creates(cat, w, actor) ==>
      |Missing(PlanSet(cat, id), Made(cat, w, actor).store)| + Count(actor == id)
      == |Missing(PlanSet(cat, id), w.store)|
  }

  lemma OwnersStoreTheirOwn(cat: Catalog, w0: World, w: World, actor: OwnerId, id: OwnerId)
    requires QuietWorld(cat, w0, w) && id in w0.owners && Uncontested(cat, w0.owners, w0.store)
    ensures StoresItsOwn(cat, w, actor, id)
  {
    if Creates(cat, w, actor) {
      UndisturbedMade(cat, w0, w, actor);
      var k := StoredByCreate(cat, w, actor, id);
      assert !Contested(cat, w0.owners, w0.store, actor, id, k);
    }
  }

  lemma StoredByOwner(cat: Catalog, w: World, l: Label, id: OwnerId)
    requires Quiet(l) && (l.Create? || l.Lose? ==> StoresItsOwn(cat, w, l.id, id))
    ensures |Missing(PlanSet(cat, id), Step(cat, w, l).store)| + Count(Creating(cat, w, l, id))
         == |Missing(PlanSet(cat, id), w.store)|
  {
    if (l.Create? || l.Lose?) && Creates(cat, w, l.id) {
      StoreMade(cat, w, l);
    } else {
      StoreKept(cat, w, l);
    }
  }

  /** And where no two owners want a key that is not there and no specs change, none is lost:
      creations and missing keys add up to the keys that were missing at the start. */
  lemma {:induction false} CreationsAreConserved(cat: Catalog, w0: World, trace: seq<Label>, id: OwnerId)
    requires StartsQuiet(cat, w0) && Uncontested(cat, w0.owners, w0.store) && AllQuiet(trace) && id in w0.owners
    ensures Creations(cat, w0, trace, id) + |Missing(PlanSet(cat, id), Exec(cat, w0, trace).store)|
         == |Missing(PlanSet(cat, id), w0.store)|
  {
    if trace == [] {
      assert Exec(cat, w0, trace) == w0;
    } else {
      var front, l := trace[..|trace| - 1], trace[|trace| - 1];
      CreationsAreConserved(cat, w0, front, id);
      QuietReached(cat, w0, front);
      if l.Create? || l.Lose? {
        OwnersStoreTheirOwn(cat, w0, Exec(cat, w0, front), l.id, id);
      }
      StoredByOwner(cat, Exec(cat, w0, front), l, id);
    }
  }

  lemma QuietReached(cat: Catalog, w0: World, trace: seq<Label>)
    requires StartsQuiet(cat, w0) && AllQuiet(trace)
    ensures QuietWorld(cat, w0, Exec(cat, w0, trace)) && CaughtUp(Exec(cat, w0, trace))
  {
    QuietStart(cat, w0);
    QuietFrom(cat, w0, w0, trace);
    CaughtUpRun(cat, w0, trace);
  }

  // ----- What the cache learns -----

  lemma CacheKept(cat: Catalog, w: World, l: Label)
    requires !l.Sync?
    ensures Step(cat, w, l).cache == w.cache
  {
    if l.Look? {
      LookOnlyMoves(cat, w, l.id);
    } else if l.Create? || l.Lose? {
      CreateOnlyAdds(cat, w, l.id);
    } else {
      CacheKeptElsewhere(cat, w, l);
    }
  }

  lemma CacheKeptElsewhere(cat: Catalog, w: World, l: Label)
    requires !l.Look? && !l.Create? && !l.Lose? && !l.Sync?
    ensures Step(cat, w, l).cache == w.cache
  {
  }

  lemma CacheGrows(cat: Catalog, w: World, l: Label)
    requires Growing(cat, w)
    ensures w.cache.Keys <= Step(cat, w, l).cache.Keys
  {
    if l.Sync? {
      BehindLearn(w.store, w.cache, w.news, l.key, l.n);
    } else {
      CacheKept(cat, w, l);
    }
  }

  lemma MissingInLarger(keys: set<Key>, a: map<Key, Object>, b: map<Key, Object>, k: Key)
    requires a.Keys <= b.Keys && b.Keys <= a.Keys + {k}
    ensures |Missing(keys, b)| + Count(k in keys && k !in a && k in b) == |Missing(keys, a)|
  {
    if k in keys && k !in a && k in b {
      assert Missing(keys, a) == Missing(keys, b) + {k};
    } else {
      assert Missing(keys, a) == Missing(keys, b);
    }
  }

  lemma LearnedByStep(cat: Catalog, w: World, l: Label, keys: set<Key>)
    requires Growing(cat, w)
    ensures |Missing(keys, Step(cat, w, l).cache)| + Count(Learning(w, l, keys)) == |Missing(keys, w.cache)|
  {
    if l.Sync? {
      BehindLearn(w.store, w.cache, w.news, l.key, l.n);
      MissingInLarger(keys, w.cache, SyncStep(w, l.key, l.n).cache, l.key);
    } else {
      CacheKept(cat, w, l);
    }
  }

  /** Without deletions the cache never unlearns a key: what it has learned and what it does not
      know add up to what it did not know at the start. */
  lemma {:induction false} LessonsAreConserved(cat: Catalog, w0: World, trace: seq<Label>, keys: set<Key>)
    requires WellFormed(cat) && StartsBehind(w0) && AllAdditive(trace)
    ensures Lessons(cat, w0, trace, keys) + |Missing(keys, Exec(cat, w0, trace).cache)| == |Missing(keys, w0.cache)|
  {
    if trace == [] {
      assert Exec(cat, w0, trace) == w0;
    } else {
      var front, l := trace[..|trace| - 1], trace[|trace| - 1];
      LessonsAreConserved(cat, w0, front, keys);
      GrowingRun(cat, w0, front);
      LearnedByStep(cat, Exec(cat, w0, front), l, keys);
    }
  }

  // ----- Aborts -----

  predicate Begins(w: World, id: OwnerId) {
    id !in w.passes && id in w.ownerCache
  }

  // Whenever a pass of the owner begins, the cache knows every key at which it aborted before.
  predicate Heeds(cat: Catalog, w: World, trace: seq<Label>, id: OwnerId) {
    if trace == [] then true else
      var front, l := trace[..|trace| - 1], trace[|trace| - 1];
      && Heeds(cat, w, front, id)
      && (l == Begin(id) && Begins(Exec(cat, w, front), id) ==>
            AbortedAt(cat, w, front, id) <= Exec(cat, w, front).cache.Keys)
  }

  // A pass in flight has the keys aborted at in its cache, and one it missed is not among them.
  ghost predicate Warned(cat: Catalog, w: World, id: OwnerId, aborted: set<Key>) {
    id in w.passes ==>
      && aborted <= w.cache.Keys
      && (0 < w.passes[id].misses ==>
            w.passes[id].step < |cat.plan(id)| && cat.plan(id)[w.passes[id].step] !in aborted)
  }

  lemma WarnedLook(cat: Catalog, w: World, id: OwnerId, aborted: set<Key>)
    requires Warned(cat, w, id, aborted)
    ensures Warned(cat, LookStep(cat, w, id), id, aborted)
  {
    if Hits(cat, w, id) {
      WarnedAdvance(cat, w, id, aborted);
    } else if CanLook(cat, w, id) {
      WarnedMiss(cat, w, id, aborted);
    }
  }

  lemma WarnedAdvance(cat: Catalog, w: World, id: OwnerId, aborted: set<Key>)
    requires Warned(cat, w, id, aborted) && id in w.passes
    ensures Warned(cat, Advance(cat, w, id, w.passes[id]), id, aborted)
  {
  }

  lemma WarnedMiss(cat: Catalog, w: World, id: OwnerId, aborted: set<Key>)
    requires Warned(cat, w, id, aborted) && CanLook(cat, w, id) && !Hits(cat, w, id)
    ensures Warned(cat, Miss(w, id, w.passes[id]), id, aborted)
  {
  }

  lemma WarnedCreate(cat: Catalog, w: World, id: OwnerId, aborted: set<Key>)
    requires Warned(cat, w, id, aborted)
    ensures Warned(cat, CreateStep(cat, w, id), id, aborted) && Warned(cat, LoseStep(cat, w, id), id, aborted)
    ensures CanCreate(cat, w, id) && !Creates(cat, w, id) ==>
      id !in CreateStep(cat, w, id).passes && id !in LoseStep(cat, w, id).passes
  {
  }

  // A step of anyone else, or of the cache.
  lemma WarnedElsewhere(cat: Catalog, w: World, w': World, id: OwnerId, aborted: set<Key>)
    requires Warned(cat, w, id, aborted) && w.cache.Keys <= w'.cache.Keys && SamePass(w, w', id)
    ensures Warned(cat, w', id, aborted)
  {
  }

  lemma WarnedBegin(cat: Catalog, w: World, id: OwnerId, aborted: set<Key>)
    requires Warned(cat, w, id, aborted) && (Begins(w, id) ==> aborted <= w.cache.Keys)
    ensures Warned(cat, BeginStep(w, id), id, aborted)
  {
  }

  lemma WarnedStep(cat: Catalog, w: World, l: Label, id: OwnerId, aborted: set<Key>)
    requires Growing(cat, w) && Warned(cat, w, id, aborted)
    requires l == Begin(id) && Begins(w, id) ==> aborted <= w.cache.Keys
    ensures Warned(cat, Step(cat, w, l), id, aborted)
    ensures Aborting(cat, w, l, id) ==> id !in Step(cat, w, l).passes
  {
    if Own(id, l) {
      match l
      case Begin(_) => WarnedBegin(cat, w, id, aborted);
      case Look(_) => WarnedLook(cat, w, id, aborted);
      case Create(_) => WarnedCreate(cat, w, id, aborted);
      case Lose(_) => WarnedCreate(cat, w, id, aborted);
      case Fault(_) =>
    } else {
      CacheGrows(cat, w, l);
      OthersKeepPass(cat, w, l, id);
      WarnedElsewhere(cat, w, Step(cat, w, l), id, aborted);
    }
  }

  lemma {:induction false} WarnedRun(cat: Catalog, w0: World, trace: seq<Label>, id: OwnerId)
    requires WellFormed(cat) && StartsBehind(w0) && AllAdditive(trace) && Heeds(cat, w0, trace, id)
    ensures Warned(cat, Exec(cat, w0, trace), id, AbortedAt(cat, w0, trace, id))
  {
    if trace == [] {
      assert Exec(cat, w0, trace) == w0;
    } else {
      var front, l := trace[..|trace| - 1], trace[|trace| - 1];
      WarnedRun(cat, w0, front, id);
      GrowingRun(cat, w0, front);
      WarnedStep(cat, Exec(cat, w0, front), l, id, AbortedAt(cat, w0, front, id));
    }
  }

  lemma AbortIsNew(cat: Catalog, w: World, l: Label, id: OwnerId, aborted: set<Key>)
    requires WellFormed(cat) && Warned(cat, w, id, aborted) && Aborting(cat, w, l, id)
    ensures cat.plan(id)[w.passes[id].step] in PlanSet(cat, id) && cat.plan(id)[w.passes[id].step] !in aborted
  {
  }

  /** Termination of retries. In any run without deletions, whatever is edited, whatever fails and
      is misread, and whoever else wants the owner's keys: if whenever a pass of an owner begins
      the cache knows the keys at which the owner aborted before, then its passes abort at most
      once at each key, so no more often than its plan has keys. */
  lemma {:induction false} AbortsAreBounded(cat: Catalog, w0: World, trace: seq<Label>, id: OwnerId)
    requires WellFormed(cat) && StartsBehind(w0) && AllAdditive(trace) && Heeds(cat, w0, trace, id)
    ensures Aborts(cat, w0, trace, id) == |AbortedAt(cat, w0, trace, id)|
    ensures AbortedAt(cat, w0, trace, id) <= PlanSet(cat, id)
    ensures Aborts(cat, w0, trace, id) <= |PlanSet(cat, id)|
  {
    if trace == [] {
    } else {
      var front, l := trace[..|trace| - 1], trace[|trace| - 1];
      AbortsAreBounded(cat, w0, front, id);
      WarnedRun(cat, w0, front, id);
      if Aborting(cat, Exec(cat, w0, front), l, id) {
        AbortIsNew(cat, Exec(cat, w0, front), l, id, AbortedAt(cat, w0, front, id));
      }
    }
    SubsetIsNoLarger(AbortedAt(cat, w0, trace, id), PlanSet(cat, id));
  }

  // No call of the owner's passes fails for a reason of its own.
  ghost predicate Unfailing(trace: seq<Label>, id: OwnerId) {
    forall i :: 0 <= i < |trace| ==> trace[i] != Fault(id) && trace[i] != Lose(id)
  }

  lemma LookEnds(cat: Catalog, w: World, id: OwnerId)
    requires id in w.passes && id !in LookStep(cat, w, id).passes
    ensures id in LookStep(cat, w, id).done
  {
    if Hits(cat, w, id) {
      AdvanceKeepsDone(cat, w, id, w.passes[id]);
    }
  }

  lemma CreateEnds(cat: Catalog, w: World, id: OwnerId)
    requires id in w.passes && id !in CreateStep(cat, w, id).passes
    ensures Aborting(cat, w, Create(id), id) || id in CreateStep(cat, w, id).done
  {
  }

  lemma EndsWell(cat: Catalog, w: World, l: Label, id: OwnerId)
    requires l != Fault(id) && l != Lose(id) && Ending(cat, w, l, id)
    ensures Aborting(cat, w, l, id) || id in Step(cat, w, l).done
  {
    if l == Look(id) {
      LookEnds(cat, w, id);
    } else if l == Create(id) {
      CreateEnds(cat, w, id);
    } else if l != Begin(id) {
      OthersKeepPass(cat, w, l, id);
    }
  }

  lemma {:induction false} EndsInDone(cat: Catalog, w: World, trace: seq<Label>, id: OwnerId)
    requires Unfailing(trace, id)
    ensures id in Exec(cat, w, trace).done || Ended(cat, w, trace, id) <= Aborts(cat, w, trace, id)
  {
    if trace == [] {
    } else {
      var front, l := trace[..|trace| - 1], trace[|trace| - 1];
      var before := Exec(cat, w, front);
      EndsInDone(cat, w, front, id);
      DoneStays(cat, before, l);
      if Ending(cat, before, l, id) {
        EndsWell(cat, before, l, id);
      }
    }
  }

  /** So passes stop aborting: in every such run without failing calls of its own, once more of
      an owner's passes have begun and ended than its plan has keys, one of them was free of
      errors. */
  lemma RetriesSucceed(cat: Catalog, w0: World, trace: seq<Label>, id: OwnerId)
    requires WellFormed(cat) && StartsBehind(w0) && AllAdditive(trace)
    requires Heeds(cat, w0, trace, id) && Unfailing(trace, id)
    requires |PlanSet(cat, id)| < Ended(cat, w0, trace, id)
    ensures id in Exec(cat, w0, trace).done
  {
    AbortsAreBounded(cat, w0, trace, id);
    EndsInDone(cat, w0, trace, id);
  }

  ghost predicate ValidSpecs(cat: Catalog, owners: map<OwnerId, Owner>) {
    forall id, i: nat :: id in owners && i < |cat.plan(id)| ==> cat.build(owners[id], i).Built?
  }

  /** In every run from any start, a pass whose builder does not fail aborts for one reason only:
      the key it missed in the cache is in the store. So there is something for the cache to
      learn, unless it has learned it since. */
  lemma AbortMeansTaken(cat: Catalog, w0: World, trace: seq<Label>, w: World, l: Label, id: OwnerId)
    requires WellFormed(cat) && Starts(w0) && w == Exec(cat, w0, trace)
    requires Aborting(cat, w, l, id) && cat.build(w.passes[id].owner, w.passes[id].step).Built?
    ensures cat.plan(id)[w.passes[id].step] in w.store
  {
    SoundRun(cat, w0, trace);
    TakenIn(cat, w, id);
  }

  lemma TakenIn(cat: Catalog, w: World, id: OwnerId)
    requires WellFormed(cat) && Sound(cat, w) && CanCreate(cat, w, id) && !Creates(cat, w, id)
    requires cat.build(w.passes[id].owner, w.passes[id].step).Built?
    ensures cat.plan(id)[w.passes[id].step] in w.store
  {
    assert SoundPass(cat, w.history, w.uids, id, w.passes[id]);
    BuiltAtPlan(cat, w.passes[id].owner, w.passes[id].step);
  }

  // ----- A pass against a cache that knows its keys -----

  // The cache shows the first n keys of a plan.
  ghost predicate Known(plan: seq<Key>, cache: map<Key, Object>, n: nat) {
    forall i :: 0 <= i < n && i < |plan| ==> plan[i] in cache
  }

  function Looks(id: OwnerId, n: nat): seq<Label> {
    seq(n, i => Look(id))
  }

  lemma OneLook(cat: Catalog, w: World, id: OwnerId, n: nat)
    ensures Exec(cat, w, Looks(id, n + 1)) == LookStep(cat, Exec(cat, w, Looks(id, n)), id)
  {
    assert Looks(id, n + 1) == Looks(id, n) + [Look(id)];
    ExecOneMore(cat, w, Looks(id, n), Look(id));
  }

  // The world with the owner's pass at p.
  function With(w: World, id: OwnerId, p: Pass): World {
    w.(passes := w.passes[id := p])
  }

  lemma WithAgain(w: World, id: OwnerId, p: Pass, q: Pass)
    ensures With(With(w, id, p), id, q) == With(w, id, q)
    ensures Finished(With(w, id, p), id) == Finished(w, id)
    ensures id in w.passes && w.passes[id] == p ==> With(w, id, p) == w
  {
    assert w.passes[id := p][id := q] == w.passes[id := q];
    assert w.passes[id := p] - {id} == w.passes - {id};
    assert id in w.passes && w.passes[id] == p ==> w.passes[id := p] == w.passes;
  }

  lemma LookThrough(cat: Catalog, w: World, id: OwnerId, o: Owner, step: nat)
    requires step < |cat.plan(id)| && cat.plan(id)[step] in w.cache && 0 < cat.looks(id.kind)
    ensures LookStep(cat, With(w, id, Pass(o, step, 0)), id) ==
      if step + 1 < |cat.plan(id)| then With(w, id, Pass(o, step + 1, 0)) else Finished(w, id)
  {
    WithAgain(w, id, Pass(o, step, 0), Pass(o, step + 1, 0));
  }

  lemma {:induction false} LooksSucceed(cat: Catalog, w: World, id: OwnerId, o: Owner, n: nat)
    requires WellFormed(cat) && n < |cat.plan(id)| && Known(cat.plan(id), w.cache, n)
    requires id in w.passes && w.passes[id] == Pass(o, 0, 0)
    ensures Exec(cat, w, Looks(id, n)) == With(w, id, Pass(o, n, 0))
  {
    if n == 0 {
      WithAgain(w, id, Pass(o, 0, 0), Pass(o, 0, 0));
    } else {
      LooksSucceed(cat, w, id, o, n - 1);
      OneLook(cat, w, id, n - 1);
      LookThrough(cat, w, id, o, n - 1);
    }
  }

  // The pass of an owner returns without an error.
  function Finished(w: World, id: OwnerId): World {
    w.(passes := w.passes - {id}, done := w.done + {id})
  }

  lemma FinishesByLooking(cat: Catalog, w: World, id: OwnerId, o: Owner)
    requires WellFormed(cat) && Known(cat.plan(id), w.cache, |cat.plan(id)|)
    requires id in w.passes && w.passes[id] == Pass(o, 0, 0)
    ensures Exec(cat, w, Looks(id, |cat.plan(id)|)) == Finished(w, id)
  {
    var n := |cat.plan(id)|;
    LooksSucceed(cat, w, id, o, n - 1);
    OneLook(cat, w, id, n - 1);
    LookThrough(cat, w, id, o, n - 1);
  }

  /** A pass against a cache that shows every key of its plan creates nothing and cannot abort by
      itself: it looks each key up once and returns without an error, and it leaves the store,
      the cache and everybody else's passes exactly as they were. */
  lemma KnownPassOnlyLooks(cat: Catalog, w: World, id: OwnerId)
    requires WellFormed(cat) && Known(cat.plan(id), w.cache, |cat.plan(id)|) && id in w.ownerCache && id !in w.passes
    ensures Exec(cat, w, [Begin(id)] + Looks(id, |cat.plan(id)|)) == w.(done := w.done + {id})
  {
    ExecAppend(cat, w, [Begin(id)], Looks(id, |cat.plan(id)|));
    OneStep(cat, w, Begin(id));
    BegunAndFinished(w, id);
    FinishesByLooking(cat, BeginStep(w, id), id, w.ownerCache[id]);
  }

  lemma BegunAndFinished(w: World, id: OwnerId)
    requires id in w.ownerCache && id !in w.passes
    ensures BeginStep(w, id) == With(w, id, Pass(w.ownerCache[id], 0, 0))
    ensures Finished(BeginStep(w, id), id) == w.(done := w.done + {id})
  {
    assert BeginStep(w, id).passes - {id} == w.passes;
  }

  // ----- Every owner can finish -----

  lemma OneStep(cat: Catalog, w: World, l: Label)
    ensures Exec(cat, w, [l]) == Step(cat, w, l)
  {
    ExecOneMore(cat, w, [], l);
  }

  // Everything that finishing needs to know of a world.
  ghost predicate Ready(cat: Catalog, w: World) {
    WellFormed(cat) && Sound(cat, w) && Growing(cat, w) && CaughtUp(w)
  }

  // What the owner's current spec needs for finishing: it builds at every step.
  ghost predicate Valid(cat: Catalog, owners: map<OwnerId, Owner>, id: OwnerId) {
    id in owners && owners[id].id == id && forall i: nat :: i < |cat.plan(id)| ==> cat.build(owners[id], i).Built?
  }

  lemma OwnersKept(cat: Catalog, w: World, l: Label)
    requires Quiet(l)
    ensures Step(cat, w, l).owners == w.owners
  {
    match l
    case Look(id) => LookOnlyMoves(cat, w, id);
    case Create(id) => CreateOnlyAdds(cat, w, id);
    case Lose(id) => CreateOnlyAdds(cat, w, id);
    case Begin(id) =>
    case Fault(id) =>
    case Sync(k, n) =>
    case SyncOwner(id, n) =>
  }

  lemma ReadyStep(cat: Catalog, w: World, l: Label)
    requires Ready(cat, w) && Quiet(l)
    ensures Ready(cat, Step(cat, w, l)) && StoreGrows(w, Step(cat, w, l))
  {
    SoundStep(cat, w, l);
    GrowingStep(cat, w, l);
    CaughtUpStep(cat, w, l);
  }

  lemma {:induction false} ReadyFrom(cat: Catalog, w: World, trace: seq<Label>)
    requires Ready(cat, w) && AllQuiet(trace)
    ensures Ready(cat, Exec(cat, w, trace)) && StoreGrows(w, Exec(cat, w, trace))
    ensures Exec(cat, w, trace).owners == w.owners && w.done <= Exec(cat, w, trace).done
  {
    if trace == [] {
      assert Exec(cat, w, trace) == w;
    } else {
      var before, l := Exec(cat, w, trace[..|trace| - 1]), trace[|trace| - 1];
      ReadyFrom(cat, w, trace[..|trace| - 1]);
      ReadyStep(cat, before, l);
      OwnersKept(cat, before, l);
      DoneStays(cat, before, l);
    }
  }

  // A step of the owner's pass, or of the cache.
  predicate OfPass(id: OwnerId, l: Label) {
    l.Sync? || l.SyncOwner? || Own(id, l)
  }

  ghost predicate Alone(trace: seq<Label>, id: OwnerId) {
    forall i :: 0 <= i < |trace| ==> OfPass(id, trace[i])
  }

  lemma AloneIsQuiet(trace: seq<Label>, id: OwnerId)
    requires Alone(trace, id)
    ensures AllQuiet(trace)
  {
  }

  // No pass of the owner begins on the way.
  ghost predicate Onward(trace: seq<Label>, id: OwnerId) {
    Alone(trace, id) && Begin(id) !in trace
  }

  // The pass is past its step, or done.
  ghost predicate Past(cat: Catalog, w: World, id: OwnerId, o: Owner, step: nat) {
    if step + 1 < |cat.plan(id)| then id in w.passes && w.passes[id] == Pass(o, step + 1, 0)
    else id in w.done
  }

  // The cache shows the key.
  lemma PassByLook(cat: Catalog, w: World, id: OwnerId, o: Owner, step: nat) returns (trace: seq<Label>)
    requires WellFormed(cat) && id in w.passes && w.passes[id] == Pass(o, step, 0) && step < |cat.plan(id)|
    requires cat.plan(id)[step] in w.cache
    ensures Onward(trace, id) && Past(cat, Exec(cat, w, trace), id, o, step)
  {
    trace := [Look(id)];
    OneStep(cat, w, Look(id));
    WithAgain(w, id, Pass(o, step, 0), Pass(o, step, 0));
    LookThrough(cat, w, id, o, step);
  }

  // The key is stored; the cache learns of it first.
  lemma PassBySync(cat: Catalog, w: World, id: OwnerId, o: Owner, step: nat) returns (trace: seq<Label>)
    requires WellFormed(cat) && id in w.passes && w.passes[id] == Pass(o, step, 0) && step < |cat.plan(id)|
    requires CaughtUp(w) && cat.plan(id)[step] in w.store
    ensures Onward(trace, id) && Past(cat, Exec(cat, w, trace), id, o, step)
  {
    var k := cat.plan(id)[step];
    var sync := Sync(k, LastNews(w.news, k));
    LearnLatest(w.store, w.cache, w.news, k);
    OneStep(cat, w, sync);
    var look := PassByLook(cat, Step(cat, w, sync), id, o, step);
    ExecAppend(cat, w, [sync], look);
    trace := [sync] + look;
  }

  lemma LookAgain(cat: Catalog, w: World, id: OwnerId, o: Owner, step: nat, n: nat)
    requires step < |cat.plan(id)| && cat.plan(id)[step] !in w.cache && n < cat.looks(id.kind)
    ensures LookStep(cat, With(w, id, Pass(o, step, n)), id) == With(w, id, Pass(o, step, n + 1))
  {
    WithAgain(w, id, Pass(o, step, n), Pass(o, step, n + 1));
  }

  lemma {:induction false} LooksMiss(cat: Catalog, w: World, id: OwnerId, o: Owner, step: nat, n: nat)
    requires id in w.passes && w.passes[id] == Pass(o, step, 0) && step < |cat.plan(id)|
    requires cat.plan(id)[step] !in w.cache && n <= cat.looks(id.kind)
    ensures Exec(cat, w, Looks(id, n)) == With(w, id, Pass(o, step, n))
  {
    if n == 0 {
      WithAgain(w, id, Pass(o, step, 0), Pass(o, step, 0));
    } else {
      LooksMiss(cat, w, id, o, step, n - 1);
      OneLook(cat, w, id, n - 1);
      LookAgain(cat, w, id, o, step, n - 1);
    }
  }

  // The key is not stored, so the cache, which is behind, cannot show it; the pass creates it.
  lemma PassByCreate(cat: Catalog, w: World, id: OwnerId, o: Owner, step: nat) returns (trace: seq<Label>)
    requires WellFormed(cat) && id in w.passes && w.passes[id] == Pass(o, step, 0) && step < |cat.plan(id)|
    requires o.id == id && cat.build(o, step).Built?
    requires cat.plan(id)[step] !in w.store && cat.plan(id)[step] !in w.cache
    ensures Onward(trace, id) && Past(cat, Exec(cat, w, trace), id, o, step)
  {
    var looks := Looks(id, cat.looks(id.kind));
    trace := looks + [Create(id)];
    LooksMiss(cat, w, id, o, step, cat.looks(id.kind));
    ExecOneMore(cat, w, looks, Create(id));
    BuiltAtPlan(cat, o, step);
    CreateGoesThrough(cat, With(w, id, Pass(o, step, cat.looks(id.kind))), id, o, step);
  }

  lemma CreateGoesThrough(cat: Catalog, w: World, id: OwnerId, o: Owner, step: nat)
    requires id in w.passes && w.passes[id] == Pass(o, step, cat.looks(id.kind)) && step < |cat.plan(id)|
    requires cat.build(o, step).Built? && KeyOf(cat.build(o, step).result) !in w.store
    ensures Past(cat, CreateStep(cat, w, id), id, o, step)
  {
    assert Creates(cat, w, id);
  }

  lemma PassStep(cat: Catalog, w: World, id: OwnerId, step: nat) returns (trace: seq<Label>)
    requires Ready(cat, w) && Valid(cat, w.owners, id) && step < |cat.plan(id)|
    requires id in w.passes && w.passes[id] == Pass(w.owners[id], step, 0)
    ensures Onward(trace, id) && Past(cat, Exec(cat, w, trace), id, w.owners[id], step)
  {
    var o := w.owners[id];
    if cat.plan(id)[step] in w.store {
      trace := PassBySync(cat, w, id, o, step);
    } else {
      trace := PassByCreate(cat, w, id, o, step);
    }
  }

  lemma {:induction false} PassOn(cat: Catalog, w: World, id: OwnerId, step: nat) returns (trace: seq<Label>)
    requires Ready(cat, w) && Valid(cat, w.owners, id) && step < |cat.plan(id)|
    requires id in w.passes && w.passes[id] == Pass(w.owners[id], step, 0)
    ensures Onward(trace, id) && id in Exec(cat, w, trace).done
    decreases |cat.plan(id)| - step
  {
    trace := PassStep(cat, w, id, step);
    if step + 1 == |cat.plan(id)| {
    } else {
      AloneIsQuiet(trace, id);
      ReadyFrom(cat, w, trace);
      var rest := PassOn(cat, Exec(cat, w, trace), id, step + 1);
      OnwardAppend(cat, w, trace, rest, id);
      trace := trace + rest;
    }
  }

  lemma OnwardAppend(cat: Catalog, w: World, a: seq<Label>, b: seq<Label>, id: OwnerId)
    requires Onward(a, id) && Onward(b, id)
    ensures Onward(a + b, id) && Exec(cat, w, a + b) == Exec(cat, Exec(cat, w, a), b)
  {
    ExecAppend(cat, w, a, b);
  }

  lemma BeginsOnce(cat: Catalog, w: World, a: seq<Label>, b: seq<Label>, id: OwnerId)
    requires Alone(a, id) && multiset(a)[Begin(id)] == 1 && Onward(b, id)
    ensures Alone(a + b, id) && multiset(a + b)[Begin(id)] == 1
    ensures Exec(cat, w, a + b) == Exec(cat, Exec(cat, w, a), b)
  {
    ExecAppend(cat, w, a, b);
  }

  // A pass gives up, the cache catches up with the owner, and a new pass begins.
  lemma Restart(cat: Catalog, w: World, id: OwnerId) returns (trace: seq<Label>)
    requires CaughtUp(w) && id in w.owners
    ensures Alone(trace, id) && multiset(trace)[Begin(id)] == 1
    ensures var w' := Exec(cat, w, trace); id in w'.passes && w'.passes[id] == Pass(w.owners[id], 0, 0)
  {
    var n := LastNews(w.ownerNews, id);
    var w1 := Drop(w, id);
    var w2 := SyncOwnerStep(w1, id, n);
    trace := [Fault(id)] + [SyncOwner(id, n)] + [Begin(id)];
    OneStep(cat, w, Fault(id));
    ExecOneMore(cat, w, [Fault(id)], SyncOwner(id, n));
    ExecOneMore(cat, w, [Fault(id)] + [SyncOwner(id, n)], Begin(id));
    LearnLatest(w.owners, w.ownerCache, w.ownerNews, id);
    assert BeginStep(w2, id).passes[id] == Pass(w.owners[id], 0, 0);
  }

  /** No owner is ever stuck. From every state that a deletion-free run can reach, whatever was
      edited, whatever is stale, half done or in flight, and whoever else wants its keys, an
      owner whose current spec is valid can finish with a single further pass. */
  lemma EveryOwnerCanFinish(cat: Catalog, w0: World, past: seq<Label>, w: World, id: OwnerId)
    returns (trace: seq<Label>)
    requires WellFormed(cat) && StartsBehind(w0) && AllAdditive(past) && w == Exec(cat, w0, past)
    requires Valid(cat, w.owners, id)
    ensures AllQuiet(trace) && id in Exec(cat, w, trace).done
    ensures multiset(trace)[Begin(id)] == 1
  {
    GrowingRun(cat, w0, past);
    CaughtUpRun(cat, w0, past);
    trace := FinishFrom(cat, w, id);
    AloneIsQuiet(trace, id);
  }

  lemma FinishFrom(cat: Catalog, w: World, id: OwnerId) returns (trace: seq<Label>)
    requires Ready(cat, w) && Valid(cat, w.owners, id)
    ensures Alone(trace, id) && id in Exec(cat, w, trace).done
    ensures multiset(trace)[Begin(id)] == 1
  {
    var start := Restart(cat, w, id);
    AloneIsQuiet(start, id);
    ReadyFrom(cat, w, start);
    var rest := PassOn(cat, Exec(cat, w, start), id, 0);
    BeginsOnce(cat, w, start, rest, id);
    trace := start + rest;
  }

  // The owners that are not done finish one after the other.
  lemma {:induction false} FinishAll(cat: Catalog, w: World) returns (trace: seq<Label>)
    requires Ready(cat, w) && forall id :: id in w.owners ==> Valid(cat, w.owners, id)
    ensures AllQuiet(trace) && w.owners.Keys <= Exec(cat, w, trace).done
    decreases w.owners.Keys - w.done
  {
    if w.owners.Keys <= w.done {
      trace := [];
    } else {
      var id := NotDone(w.owners, w.done);
      var first := FinishFrom(cat, w, id);
      AloneIsQuiet(first, id);
      ReadyFrom(cat, w, first);
      var rest := FinishAll(cat, Exec(cat, w, first));
      ExecAppend(cat, w, first, rest);
      trace := first + rest;
    }
  }

  lemma NotDone(owners: map<OwnerId, Owner>, done: set<OwnerId>) returns (id: OwnerId)
    requires !(owners.Keys <= done)
    ensures id in owners && id !in done
  {
    id :| id in owners && id !in done;
  }

  lemma AllValid(cat: Catalog, w: World)
    requires Sound(cat, w) && ValidSpecs(cat, w.owners)
    ensures forall id :: id in w.owners ==> Valid(cat, w.owners, id)
  {
    forall id | id in w.owners
      ensures Valid(cat, w.owners, id)
    {
      assert Genuine(w.history, w.uids, id, w.owners[id]);
    }
  }

  lemma QuietReady(cat: Catalog, w0: World, w: World)
    requires QuietWorld(cat, w0, w) && CaughtUp(w) && ValidSpecs(cat, w0.owners)
    ensures Ready(cat, w) && forall id :: id in w.owners ==> Valid(cat, w.owners, id)
  {
    AllValid(cat, w);
  }

  // From a world of a quiet run with valid specs all owners can finish.
  lemma AllFinish(cat: Catalog, w0: World, w: World) returns (trace: seq<Label>)
    requires QuietWorld(cat, w0, w) && CaughtUp(w) && ValidSpecs(cat, w0.owners)
    ensures AllQuiet(trace) && QuietWorld(cat, w0, Exec(cat, w, trace)) && StoreGrows(w, Exec(cat, w, trace))
    ensures Exec(cat, w, trace).done == w0.owners.Keys
  {
    QuietReady(cat, w0, w);
    trace := FinishAll(cat, w);
    QuietFrom(cat, w0, w, trace);
  }

  /** So the end that confluence speaks of can always be reached: from every state of a quiet run
      with valid specs there is a way on, on which every owner has an error-free pass, and then
      the store is the one and only final store, if no two owners want a key that was not there. */
  lemma TheEndIsReachable(cat: Catalog, w0: World, past: seq<Label>, w: World) returns (trace: seq<Label>)
    requires StartsQuiet(cat, w0) && AllQuiet(past) && w == Exec(cat, w0, past)
    requires ValidSpecs(cat, w0.owners)
    ensures AllQuiet(trace) && Exec(cat, w, trace).done == w0.owners.Keys
    ensures Uncontested(cat, w0.owners, w0.store) ==> Final(cat, w0, Exec(cat, w, trace).store)
  {
    QuietReached(cat, w0, past);
    trace := AllFinish(cat, w0, w);
    if Uncontested(cat, w0.owners, w0.store) {
      DoneMeansFinal(cat, w0, Exec(cat, w, trace));
    }
  }
}
