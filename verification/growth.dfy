/**
 Runs without deletions: the store only grows, an owner's objects appear in the order of its
 plan, and the spec versions they were rendered from never decrease along it.
 */
module Growth {
  import opened Text
  import opened Feed
  import opened Specs
  import opened Naming
  import opened Objects
  import opened Protocol

  predicate Additive(l: Label) {
    !l.Remove? && !l.Collect?
  }

  ghost predicate AllAdditive(trace: seq<Label>) {
    forall i :: 0 <= i < |trace| ==> Additive(trace[i])
  }

  // The first n keys of a plan are stored.
  ghost predicate Reached(plan: seq<Key>, store: map<Key, Object>, n: nat) {
    forall i :: 0 <= i < n && i < |plan| ==> plan[i] in store
  }

  // Everything before the creating step was stored, and the step is the first one for its key.
  ghost predicate InOrder(plan: seq<Key>, store: map<Key, Object>, step: nat, k: Key) {
    && Reached(plan, store, step)
    && forall i :: 0 <= i < step && i < |plan| ==> plan[i] != k
  }

  ghost predicate OriginInOrder(cat: Catalog, store: map<Key, Object>, a: Origin, k: Key) {
    InOrder(cat.plan(a.owner.id), store, a.step, k)
  }

  ghost predicate PassesReached(cat: Catalog, passes: map<OwnerId, Pass>, store: map<Key, Object>) {
    forall id :: id in passes ==> Reached(cat.plan(id), store, passes[id].step)
  }

  ghost predicate DoneReached(cat: Catalog, done: set<OwnerId>, store: map<Key, Object>) {
    forall id :: id in done ==> Reached(cat.plan(id), store, |cat.plan(id)|)
  }

  ghost predicate OriginsInOrder(cat: Catalog, store: map<Key, Object>, origins: map<Key, Origin>) {
    forall k :: k in origins ==> OriginInOrder(cat, store, origins[k], k)
  }

  ghost predicate Growing(cat: Catalog, w: World) {
    && Behind(w.store, w.cache, w.news) && NoneGone(w.ownerNews)
    && PassesReached(cat, w.passes, w.store) && DoneReached(cat, w.done, w.store)
    && OriginsInOrder(cat, w.store, w.origins)
  }

  // No pass in flight and no cached copy is older than what an object was rendered from.
  ghost predicate NoneOlder(copies: map<OwnerId, Owner>, passes: map<OwnerId, Pass>, o: Owner) {
    && o.id in copies && o.version <= copies[o.id].version
    && (o.id in passes ==> o.version <= passes[o.id].owner.version)
  }

  ghost predicate PassesKnown(copies: map<OwnerId, Owner>, passes: map<OwnerId, Pass>) {
    forall id :: id in passes ==> id in copies && passes[id].owner.version <= copies[id].version
  }

  ghost predicate AllMonotone(origins: map<Key, Origin>) {
    forall j, k :: j in origins && k in origins ==> Monotone(origins[j], origins[k])
  }

  predicate Monotone(a: Origin, b: Origin) {
    a.owner.id == b.owner.id && a.step < b.step ==> a.owner.version <= b.owner.version
  }

  // What the cache has yet to learn about an owner is never older than what it has learned.
  ghost predicate Ascending(copies: map<OwnerId, Owner>, news: map<OwnerId, seq<Option<Owner>>>) {
    && (forall id, o :: id in copies && Heard(news, id, o) ==> copies[id].version <= o.version)
    && (forall id, i, j :: id in news && 0 <= i < j < |news[id]| && news[id][i].Some? && news[id][j].Some? ==>
          news[id][i].value.version <= news[id][j].value.version)
  }

  ghost predicate Ordered(w: World) {
    && Ascending(w.ownerCache, w.ownerNews)
    && PassesKnown(w.ownerCache, w.passes)
    && (forall k :: k in w.origins ==> NoneOlder(w.ownerCache, w.passes, w.origins[k].owner))
    && AllMonotone(w.origins)
  }

  ghost predicate StoreGrows(w: World, w': World) {
    forall k :: k in w.store ==> k in w'.store && w'.store[k] == w.store[k]
  }

  // A start without deletions or overwritten objects that the cache has still to learn.
  ghost predicate StartsBehind(w: World) {
    && Starts(w) && Behind(w.store, w.cache, w.news)
    && NoneGone(w.ownerNews) && Ascending(w.ownerCache, w.ownerNews)
  }

  // ----- One step: the store grows -----

  lemma ReachedInMore(plan: seq<Key>, store: map<Key, Object>, k: Key, o: Object, n: nat)
    requires Reached(plan, store, n)
    ensures Reached(plan, store[k := o], n)
  {
  }

  lemma GrowingAdvance(cat: Catalog, w: World, id: OwnerId, p: Pass)
    requires Growing(cat, w) && Reached(cat.plan(id), w.store, p.step + 1)
    ensures Growing(cat, Advance(cat, w, id, p))
  {
  }

  lemma GrowingMiss(cat: Catalog, w: World, id: OwnerId)
    requires Growing(cat, w) && id in w.passes
    ensures Growing(cat, Miss(w, id, w.passes[id]))
  {
  }

  lemma GrowingHit(cat: Catalog, w: World, id: OwnerId)
    requires Growing(cat, w) && Hits(cat, w, id)
    ensures Growing(cat, Advance(cat, w, id, w.passes[id]))
  {
    assert Reached(cat.plan(id), w.store, w.passes[id].step);
    GrowingAdvance(cat, w, id, w.passes[id]);
  }

  lemma GrowingLook(cat: Catalog, w: World, id: OwnerId)
    requires Growing(cat, w)
    ensures Growing(cat, LookStep(cat, w, id)) && StoreGrows(w, LookStep(cat, w, id))
  {
    if Hits(cat, w, id) {
      GrowingHit(cat, w, id);
    } else if CanLook(cat, w, id) {
      GrowingMiss(cat, w, id);
    }
  }

  lemma GrowingInsert(cat: Catalog, w: World, p: Pass, made: Object)
    requires Growing(cat, w) && KeyOf(made) !in w.store
    requires Reached(cat.plan(p.owner.id), w.store, p.step)
    ensures Growing(cat, Insert(w, p, made)) && StoreGrows(w, Insert(w, p, made))
  {
    BehindPost(w.store, w.cache, w.news, KeyOf(made), made);
  }

  lemma GrowingMade(cat: Catalog, w: World, id: OwnerId)
    requires WellFormed(cat) && Sound(cat, w) && Growing(cat, w) && Creates(cat, w, id)
    ensures Growing(cat, Made(cat, w, id)) && StoreGrows(w, Made(cat, w, id))
    ensures Reached(cat.plan(id), Made(cat, w, id).store, w.passes[id].step + 1)
  {
    var p := w.passes[id];
    var made := cat.build(p.owner, p.step).result;
    assert SoundPass(cat, w.history, w.uids, id, p) && Reached(cat.plan(id), w.store, p.step);
    BuiltAtPlan(cat, p.owner, p.step);
    GrowingInsert(cat, w, p, made);
    ReachedInMore(cat.plan(id), w.store, KeyOf(made), made, p.step);
  }

  lemma GrowingDrop(cat: Catalog, w: World, id: OwnerId)
    requires Growing(cat, w)
    ensures Growing(cat, Drop(w, id))
  {
  }

  lemma GrowingCreate(cat: Catalog, w: World, id: OwnerId)
    requires WellFormed(cat) && Sound(cat, w) && Growing(cat, w)
    ensures Growing(cat, CreateStep(cat, w, id)) && StoreGrows(w, CreateStep(cat, w, id))
    ensures Growing(cat, LoseStep(cat, w, id)) && StoreGrows(w, LoseStep(cat, w, id))
  {
    if Creates(cat, w, id) {
      GrowingMade(cat, w, id);
      GrowingAdvance(cat, Made(cat, w, id), id, w.passes[id]);
      GrowingDrop(cat, Made(cat, w, id), id);
    } else {
      Refuses(cat, w, id);
      GrowingDrop(cat, w, id);
    }
  }

  lemma GrowingSync(cat: Catalog, w: World, k: Key, n: nat)
    requires Growing(cat, w)
    ensures Growing(cat, SyncStep(w, k, n)) && StoreGrows(w, SyncStep(w, k, n))
  {
    BehindLearn(w.store, w.cache, w.news, k, n);
  }

  // Only what concerns owners differs.
  lemma GrowingOwners(cat: Catalog, w: World, w': World)
    requires Growing(cat, w) && NoneGone(w'.ownerNews)
    requires w' == w.(owners := w'.owners, ownerCache := w'.ownerCache, ownerNews := w'.ownerNews,
                      uids := w'.uids, history := w'.history)
    ensures Growing(cat, w') && StoreGrows(w, w')
  {
  }

  lemma GrowingApply(cat: Catalog, w: World, id: OwnerId, spec: Spec)
    requires Growing(cat, w)
    ensures Growing(cat, ApplyStep(w, id, spec)) && StoreGrows(w, ApplyStep(w, id, spec))
  {
    NoneGonePost(w.ownerNews, id, Edited(w, id, spec));
    GrowingOwners(cat, w, ApplyStep(w, id, spec));
  }

  lemma GrowingSyncOwner(cat: Catalog, w: World, id: OwnerId, n: nat)
    requires Growing(cat, w)
    ensures Growing(cat, SyncOwnerStep(w, id, n)) && StoreGrows(w, SyncOwnerStep(w, id, n))
  {
    NoneGoneRest(w.ownerNews, id, n);
    GrowingOwners(cat, w, SyncOwnerStep(w, id, n));
  }

  lemma GrowingBegin(cat: Catalog, w: World, id: OwnerId)
    requires Growing(cat, w)
    ensures Growing(cat, BeginStep(w, id))
  {
  }

  lemma GrowingStep(cat: Catalog, w: World, l: Label)
    requires WellFormed(cat) && Sound(cat, w) && Growing(cat, w) && Additive(l)
    ensures Growing(cat, Step(cat, w, l)) && StoreGrows(w, Step(cat, w, l))
  {
    match l
    case Begin(id) => GrowingBegin(cat, w, id);
    case Look(id) => GrowingLook(cat, w, id);
    case Create(id) => GrowingCreate(cat, w, id);
    case Lose(id) => GrowingCreate(cat, w, id);
    case Fault(id) => GrowingDrop(cat, w, id);
    case Sync(k, n) => GrowingSync(cat, w, k, n);
    case SyncOwner(id, n) => GrowingSyncOwner(cat, w, id, n);
    case Apply(id, spec) => GrowingApply(cat, w, id, spec);
  }

  // ----- One step: versions stay in order -----

  ghost predicate Newer(copies: map<OwnerId, Owner>, copies': map<OwnerId, Owner>) {
    forall id :: id in copies ==> id in copies' && copies[id].version <= copies'[id].version
  }

  ghost predicate KeepsCopies(passes: map<OwnerId, Pass>, passes': map<OwnerId, Pass>) {
    forall id :: id in passes' ==> id in passes && passes'[id].owner == passes[id].owner
  }

  lemma OrderedFrame(w: World, w': World)
    requires Ordered(w) && w'.origins == w.origins
    requires Newer(w.ownerCache, w'.ownerCache) && KeepsCopies(w.passes, w'.passes)
    requires Ascending(w'.ownerCache, w'.ownerNews)
    ensures Ordered(w')
  {
  }

  lemma OrderedBegin(w: World, id: OwnerId)
    requires Ordered(w)
    ensures Ordered(BeginStep(w, id))
  {
  }

  lemma OrderedInsert(cat: Catalog, w: World, id: OwnerId, made: Object)
    requires Growing(cat, w) && Ordered(w) && id in w.passes && w.passes[id].owner.id == id
    requires w.passes[id].step < |cat.plan(id)|
    requires KeyOf(made) == cat.plan(id)[w.passes[id].step] && KeyOf(made) !in w.store
    ensures Ordered(Insert(w, w.passes[id], made))
  {
  }

  lemma OrderedMade(cat: Catalog, w: World, id: OwnerId)
    requires WellFormed(cat) && Sound(cat, w) && Growing(cat, w) && Ordered(w) && Creates(cat, w, id)
    ensures Ordered(Made(cat, w, id))
  {
    var p := w.passes[id];
    assert SoundPass(cat, w.history, w.uids, id, p);
    BuiltAtPlan(cat, p.owner, p.step);
    OrderedInsert(cat, w, id, cat.build(p.owner, p.step).result);
  }

  lemma OrderedAdvance(cat: Catalog, w: World, id: OwnerId, p: Pass)
    requires Ordered(w) && id in w.passes && p.owner == w.passes[id].owner
    ensures Ordered(Advance(cat, w, id, p))
  {
    assert KeepsCopies(w.passes, Advance(cat, w, id, p).passes);
  }

  lemma OrderedMiss(w: World, id: OwnerId)
    requires Ordered(w) && id in w.passes
    ensures Ordered(Miss(w, id, w.passes[id]))
  {
    OrderedFrame(w, Miss(w, id, w.passes[id]));
  }

  lemma OrderedLook(cat: Catalog, w: World, id: OwnerId)
    requires Ordered(w)
    ensures Ordered(LookStep(cat, w, id))
  {
    if Hits(cat, w, id) {
      OrderedAdvance(cat, w, id, w.passes[id]);
    } else if CanLook(cat, w, id) {
      OrderedMiss(w, id);
    }
  }

  lemma OrderedDrop(w: World, id: OwnerId)
    requires Ordered(w)
    ensures Ordered(Drop(w, id))
  {
  }

  lemma OrderedCreate(cat: Catalog, w: World, id: OwnerId)
    requires WellFormed(cat) && Sound(cat, w) && Growing(cat, w) && Ordered(w)
    ensures Ordered(CreateStep(cat, w, id)) && Ordered(LoseStep(cat, w, id))
  {
    if Creates(cat, w, id) {
      OrderedMade(cat, w, id);
      OrderedAdvance(cat, Made(cat, w, id), id, w.passes[id]);
      OrderedDrop(Made(cat, w, id), id);
    } else {
      Refuses(cat, w, id);
      OrderedDrop(w, id);
    }
  }

  lemma AscendingLearn(copies: map<OwnerId, Owner>, news: map<OwnerId, seq<Option<Owner>>>, id: OwnerId, n: nat)
    requires Ascending(copies, news) && NoneGone(news)
    ensures Ascending(Learn(copies, news, id, n), Rest(news, id, n)) && Newer(copies, Learn(copies, news, id, n))
  {
    if n < |Pending(news, id)| {
      var p := news[id];
      assert p[n] in p && Heard(news, id, p[n].value);
      forall o | Heard(Rest(news, id, n), id, o)
        ensures p[n].value.version <= o.version
      {
        var i :| 0 <= i < |p[n + 1..]| && p[n + 1..][i] == Some(o);
        assert p[n + 1 + i] == Some(o);
      }
      forall j, o | Heard(Rest(news, id, n), j, o)
        ensures Heard(news, j, o)
      {
        HeardRest(news, id, n, j, o);
      }
    }
  }

  lemma OrderedSyncOwner(w: World, id: OwnerId, n: nat)
    requires Ordered(w) && NoneGone(w.ownerNews)
    ensures Ordered(SyncOwnerStep(w, id, n))
  {
    AscendingLearn(w.ownerCache, w.ownerNews, id, n);
    OrderedFrame(w, SyncOwnerStep(w, id, n));
  }

  lemma AscendingPost(copies: map<OwnerId, Owner>, news: map<OwnerId, seq<Option<Owner>>>, id: OwnerId, o: Owner)
    requires Ascending(copies, news)
    requires id in copies ==> copies[id].version <= o.version
    requires forall older :: Heard(news, id, older) ==> older.version <= o.version
    ensures Ascending(copies, Post(news, id, Some(o)))
  {
    forall j, p | Heard(Post(news, id, Some(o)), j, p)
      ensures Heard(news, j, p) || (j == id && p == o)
    {
      HeardPost(news, id, Some(o), j, p);
    }
    forall i | 0 <= i < |Pending(news, id)| && Pending(news, id)[i].Some?
      ensures Pending(news, id)[i].value.version <= o.version
    {
      assert Heard(news, id, Pending(news, id)[i].value);
    }
  }

  // A new version is newer than all that the cache shows or has yet to learn.
  lemma VersionsBelow(h: Histories, uids: seq<OwnerId>, copies: map<OwnerId, Owner>,
                      news: map<OwnerId, seq<Option<Owner>>>, id: OwnerId, versions: seq<Spec>)
    requires AllGenuine(h, uids, copies) && NewsGenuine(h, uids, news)
    requires id in h ==> versions == h[id]
    ensures id in copies ==> copies[id].version < |versions|
    ensures forall o :: Heard(news, id, o) ==> o.version < |versions|
  {
    assert id in copies ==> Genuine(h, uids, id, copies[id]);
    assert forall o :: Heard(news, id, o) ==> Genuine(h, uids, id, o);
  }

  lemma OrderedApply(cat: Catalog, w: World, id: OwnerId, spec: Spec)
    requires Sound(cat, w) && Ordered(w)
    ensures Ordered(ApplyStep(w, id, spec))
  {
    if Fits(id.kind, spec) {
      VersionsBelow(w.history, w.uids, w.ownerCache, w.ownerNews, id, Versions(w, id));
      OrderedPost(w, Edit(w, id, Edited(w, id, spec)), id, Edited(w, id, spec));
    }
  }

  lemma OrderedPost(w: World, w': World, id: OwnerId, o: Owner)
    requires Ordered(w) && w'.origins == w.origins && w'.passes == w.passes && w'.ownerCache == w.ownerCache
    requires w'.ownerNews == Post(w.ownerNews, id, Some(o))
    requires id in w.ownerCache ==> w.ownerCache[id].version <= o.version
    requires forall older :: Heard(w.ownerNews, id, older) ==> older.version <= o.version
    ensures Ordered(w')
  {
    AscendingPost(w.ownerCache, w.ownerNews, id, o);
  }

  lemma OrderedStep(cat: Catalog, w: World, l: Label)
    requires WellFormed(cat) && Sound(cat, w) && Growing(cat, w) && Ordered(w) && Additive(l)
    ensures Ordered(Step(cat, w, l))
  {
    match l
    case Begin(id) => OrderedBegin(w, id);
    case Look(id) => OrderedLook(cat, w, id);
    case Create(id) => OrderedCreate(cat, w, id);
    case Lose(id) => OrderedCreate(cat, w, id);
    case Fault(id) => OrderedDrop(w, id);
    case Sync(k, n) => OrderedFrame(w, SyncStep(w, k, n));
    case SyncOwner(id, n) => OrderedSyncOwner(w, id, n);
    case Apply(id, spec) => OrderedApply(cat, w, id, spec);
  }

  // ----- Whole runs -----

  lemma {:induction false} GrowingRun(cat: Catalog, w: World, trace: seq<Label>)
    requires WellFormed(cat) && StartsBehind(w) && AllAdditive(trace)
    ensures Sound(cat, Exec(cat, w, trace))
    ensures Growing(cat, Exec(cat, w, trace))
    ensures Ordered(Exec(cat, w, trace))
    ensures StoreGrows(w, Exec(cat, w, trace))
  {
    if trace == [] {
      assert Exec(cat, w, trace) == w;
    } else {
      var before, l := Exec(cat, w, trace[..|trace| - 1]), trace[|trace| - 1];
      GrowingRun(cat, w, trace[..|trace| - 1]);
      SoundStep(cat, before, l);
      GrowingStep(cat, before, l);
      OrderedStep(cat, before, l);
    }
  }

  // Passes of `id` created the objects at a and b, a at the same or an earlier step.
  ghost predicate CreatedInTurn(w: World, id: OwnerId, a: Key, b: Key) {
    && a in w.origins && b in w.origins
    && w.origins[a].owner.id == w.origins[b].owner.id == id
    && w.origins[a].step <= w.origins[b].step
  }

  // The object at k is the rendering of the version its origin names.
  ghost predicate FromItsVersion(cat: Catalog, w: World, k: Key)
    requires k in w.origins
  {
    var a := w.origins[k];
    && k in w.store && cat.build(a.owner, a.step) == Built(w.store[k])
    && a.owner.id in w.history && a.owner.version < |w.history[a.owner.id]|
    && a.owner.spec == w.history[a.owner.id][a.owner.version]
  }

  lemma ItsVersion(cat: Catalog, w: World, k: Key)
    requires Sound(cat, w) && k in w.origins
    ensures FromItsVersion(cat, w, k)
  {
    assert Rendered(cat, w.history, w.uids, w.store, w.origins[k], k);
  }

  lemma VersionsInTurn(cat: Catalog, w: World, id: OwnerId, a: Key, b: Key)
    requires Sound(cat, w) && Ordered(w) && CreatedInTurn(w, id, a, b)
    ensures w.origins[a].owner.version <= w.origins[b].owner.version
  {
    if w.origins[a].step == w.origins[b].step {
      assert Rendered(cat, w.history, w.uids, w.store, w.origins[a], a);
      assert Rendered(cat, w.history, w.uids, w.store, w.origins[b], b);
    } else {
      assert Monotone(w.origins[a], w.origins[b]);
    }
  }

  lemma SameVersionSameSpec(cat: Catalog, w: World, a: Key, b: Key)
    requires Sound(cat, w) && a in w.origins && b in w.origins
    requires w.origins[a].owner.id == w.origins[b].owner.id && w.origins[a].owner.version == w.origins[b].owner.version
    ensures w.origins[a].owner.spec == w.origins[b].owner.spec
  {
    ItsVersion(cat, w, a);
    ItsVersion(cat, w, b);
  }

  /** Spec versions along a deletion-free run with arbitrary edits and stale reads: the objects
      created for an owner are renderings of versions of its spec, and the versions never
      decrease along the order of its plan. */
  lemma SpecVersionsNeverDecrease(cat: Catalog, w0: World, trace: seq<Label>, w: World, id: OwnerId, a: Key, b: Key)
    requires WellFormed(cat) && StartsBehind(w0) && AllAdditive(trace) && w == Exec(cat, w0, trace)
    requires CreatedInTurn(w, id, a, b)
    ensures FromItsVersion(cat, w, a) && FromItsVersion(cat, w, b)
    ensures w.origins[a].owner.version <= w.origins[b].owner.version
  {
    GrowingRun(cat, w0, trace);
    ItsVersion(cat, w, a);
    ItsVersion(cat, w, b);
    VersionsInTurn(cat, w, id, a, b);
  }

  lemma OneSpecIn(cat: Catalog, w: World, id: OwnerId, a: Key, b: Key, c: Key)
    requires Sound(cat, w) && Ordered(w) && CreatedInTurn(w, id, a, b) && CreatedInTurn(w, id, b, c)
    requires w.origins[a].owner.version == w.origins[c].owner.version
    ensures w.origins[a].owner.spec == w.origins[b].owner.spec == w.origins[c].owner.spec
  {
    VersionsInTurn(cat, w, id, a, b);
    VersionsInTurn(cat, w, id, b, c);
    SameVersionSameSpec(cat, w, a, b);
    SameVersionSameSpec(cat, w, b, c);
  }

  /** So when the first and the last object of a stretch come from the same version, everything
      created between them was rendered from that very spec. */
  lemma OneSpecBetween(cat: Catalog, w0: World, trace: seq<Label>, w: World, id: OwnerId, a: Key, b: Key, c: Key)
    requires WellFormed(cat) && StartsBehind(w0) && AllAdditive(trace) && w == Exec(cat, w0, trace)
    requires CreatedInTurn(w, id, a, b) && CreatedInTurn(w, id, b, c)
    requires w.origins[a].owner.version == w.origins[c].owner.version
    ensures w.origins[a].owner.spec == w.origins[b].owner.spec == w.origins[c].owner.spec
  {
    GrowingRun(cat, w0, trace);
    OneSpecIn(cat, w, id, a, b, c);
  }

  lemma PrefixIn(cat: Catalog, w: World, k: Key, i: nat)
    requires Sound(cat, w) && Growing(cat, w) && k in w.origins && i < w.origins[k].step
    ensures var plan := cat.plan(w.origins[k].owner.id);
      i < |plan| && plan[i] in w.store && plan[i] != k
  {
  }

  /** Referential integrity in every state a deletion-free run reaches: when a pass has created
      the object at some step of a plan, everything at the steps before it is stored too, and
      the step is the first one of the plan that wants the object's key. */
  lemma PrefixStored(cat: Catalog, w0: World, trace: seq<Label>, w: World, k: Key, i: nat)
    requires WellFormed(cat) && StartsBehind(w0) && AllAdditive(trace) && w == Exec(cat, w0, trace)
    requires k in w.origins && i < w.origins[k].step
    ensures var plan := cat.plan(w.origins[k].owner.id);
      i < |plan| && plan[i] in w.store && plan[i] != k
  {
    GrowingRun(cat, w0, trace);
    PrefixIn(cat, w, k, i);
  }
}
