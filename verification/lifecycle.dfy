/**
 Facts about every run, deletions and collections included: whose the stored objects are, what
 a deleted owner leaves behind, and what a builder that always fails keeps from being created.
 */
module Lifecycle {
  import opened Text
  import opened Feed
  import opened Specs
  import opened Naming
  import opened Objects
  import opened Protocol

  // ----- Everything in a store that started empty was created by a pass -----

  ghost predicate AllCreated(w: World) {
    w.store.Keys == w.origins.Keys
  }

  lemma AllCreatedStep(cat: Catalog, w: World, l: Label)
    requires AllCreated(w)
    ensures AllCreated(Step(cat, w, l))
  {
    match l
    case Look(id) => LookOnlyMoves(cat, w, id);
    case Create(id) => AllCreatedCreate(cat, w, id);
    case Lose(id) => AllCreatedCreate(cat, w, id);
    case _ =>
  }

  lemma AllCreatedCreate(cat: Catalog, w: World, id: OwnerId)
    requires AllCreated(w)
    ensures AllCreated(CreateStep(cat, w, id)) && AllCreated(LoseStep(cat, w, id))
  {
    CreateOnlyAdds(cat, w, id);
    if Creates(cat, w, id) {
      assert AllCreated(Made(cat, w, id));
    }
  }

  lemma {:induction false} AllCreatedRun(cat: Catalog, w0: World, trace: seq<Label>)
    requires w0.store == map[] && w0.origins == map[]
    ensures AllCreated(Exec(cat, w0, trace))
  {
    if trace == [] {
      assert Exec(cat, w0, trace) == w0;
    } else {
      AllCreatedRun(cat, w0, trace[..|trace| - 1]);
      AllCreatedStep(cat, Exec(cat, w0, trace[..|trace| - 1]), trace[|trace| - 1]);
    }
  }

  // ----- Incarnations -----

  ghost predicate NoCopy(copies: map<OwnerId, Owner>, uid: nat) {
    forall id :: id in copies ==> copies[id].uid != uid
  }

  ghost predicate NoPass(passes: map<OwnerId, Pass>, uid: nat) {
    forall id :: id in passes ==> passes[id].owner.uid != uid
  }

  ghost predicate NoNews(news: map<OwnerId, seq<Option<Owner>>>, uid: nat) {
    forall id, o :: Heard(news, id, o) ==> o.uid != uid
  }

  // No user's object, no cached copy, nothing the cache has yet to learn and no pass in flight
  // has this UID any more.
  ghost predicate Retired(w: World, uid: nat) {
    && uid < |w.uids| && NoCopy(w.owners, uid)
    && NoCopy(w.ownerCache, uid) && NoNews(w.ownerNews, uid) && NoPass(w.passes, uid)
  }

  predicate OwnedBy(o: Object, uid: nat) {
    o.owner.Some? && o.owner.value.uid == uid
  }

  ghost predicate NoneNewFor(store: map<Key, Object>, store': map<Key, Object>, uid: nat) {
    forall k :: k in store' && OwnedBy(store'[k], uid) ==> k in store && store[k] == store'[k]
  }

  lemma RetiredAdvance(cat: Catalog, w: World, id: OwnerId, p: Pass, uid: nat)
    requires Retired(w, uid) && p.owner.uid != uid
    ensures Retired(Advance(cat, w, id, p), uid)
  {
  }

  lemma RetiredLook(cat: Catalog, w: World, id: OwnerId, uid: nat)
    requires Retired(w, uid)
    ensures Retired(LookStep(cat, w, id), uid) && NoneNewFor(w.store, LookStep(cat, w, id).store, uid)
  {
    LookOnlyMoves(cat, w, id);
    if Hits(cat, w, id) {
      RetiredAdvance(cat, w, id, w.passes[id], uid);
    } else if CanLook(cat, w, id) {
      assert Retired(Miss(w, id, w.passes[id]), uid);
    }
  }

  lemma RetiredMade(cat: Catalog, w: World, id: OwnerId, uid: nat)
    requires WellFormed(cat) && Sound(cat, w) && Retired(w, uid) && Creates(cat, w, id)
    ensures Retired(Made(cat, w, id), uid) && NoneNewFor(w.store, Made(cat, w, id).store, uid)
    ensures w.passes[id].owner.uid != uid
  {
    var p := w.passes[id];
    assert SoundPass(cat, w.history, w.uids, id, p);
    BuiltAtPlan(cat, p.owner, p.step);
  }

  lemma RetiredDrop(w: World, id: OwnerId, uid: nat)
    requires Retired(w, uid)
    ensures Retired(Drop(w, id), uid) && NoneNewFor(w.store, Drop(w, id).store, uid)
  {
  }

  lemma RetiredBegin(w: World, id: OwnerId, uid: nat)
    requires Retired(w, uid)
    ensures Retired(BeginStep(w, id), uid) && NoneNewFor(w.store, BeginStep(w, id).store, uid)
  {
  }

  lemma RetiredSync(w: World, k: Key, n: nat, uid: nat)
    requires Retired(w, uid)
    ensures Retired(SyncStep(w, k, n), uid) && NoneNewFor(w.store, SyncStep(w, k, n).store, uid)
  {
  }

  lemma RetiredCollect(w: World, k: Key, uid: nat)
    requires Retired(w, uid)
    ensures Retired(CollectStep(w, k), uid) && NoneNewFor(w.store, CollectStep(w, k).store, uid)
  {
    if Orphan(w, k) {
      assert Retired(Delete(w, k), uid);
    }
  }

  lemma RetiredCreate(cat: Catalog, w: World, id: OwnerId, uid: nat)
    requires WellFormed(cat) && Sound(cat, w) && Retired(w, uid)
    ensures Retired(CreateStep(cat, w, id), uid) && NoneNewFor(w.store, CreateStep(cat, w, id).store, uid)
    ensures Retired(LoseStep(cat, w, id), uid) && NoneNewFor(w.store, LoseStep(cat, w, id).store, uid)
  {
    if Creates(cat, w, id) {
      RetiredMade(cat, w, id, uid);
      RetiredAdvance(cat, Made(cat, w, id), id, w.passes[id], uid);
      RetiredDrop(Made(cat, w, id), id, uid);
    } else {
      Refuses(cat, w, id);
      RetiredDrop(w, id, uid);
    }
  }

  lemma RetiredSyncOwner(w: World, id: OwnerId, n: nat, uid: nat)
    requires Retired(w, uid)
    ensures Retired(SyncOwnerStep(w, id, n), uid) && NoneNewFor(w.store, SyncOwnerStep(w, id, n).store, uid)
  {
    forall j | j in Learn(w.ownerCache, w.ownerNews, id, n)
      ensures Learn(w.ownerCache, w.ownerNews, id, n)[j].uid != uid
    {
      Learned(w.ownerCache, w.ownerNews, id, n, j);
    }
    forall j, o | Heard(Rest(w.ownerNews, id, n), j, o)
      ensures o.uid != uid
    {
      HeardRest(w.ownerNews, id, n, j, o);
    }
  }

  lemma NoNewsPost(news: map<OwnerId, seq<Option<Owner>>>, id: OwnerId, state: Option<Owner>, uid: nat)
    requires NoNews(news, uid) && (state.Some? ==> state.value.uid != uid)
    ensures NoNews(Post(news, id, state), uid)
  {
    forall j, o | Heard(Post(news, id, state), j, o)
      ensures o.uid != uid
    {
      HeardPost(news, id, state, j, o);
    }
  }

  lemma RetiredEdit(w: World, id: OwnerId, o: Owner, uid: nat)
    requires Retired(w, uid) && o.uid != uid
    ensures Retired(Edit(w, id, o), uid)
  {
    NoNewsPost(w.ownerNews, id, Some(o), uid);
  }

  lemma RetiredApply(w: World, id: OwnerId, spec: Spec, uid: nat)
    requires Retired(w, uid)
    ensures Retired(ApplyStep(w, id, spec), uid) && NoneNewFor(w.store, ApplyStep(w, id, spec).store, uid)
  {
    if Fits(id.kind, spec) {
      assert Edited(w, id, spec).uid != uid;
      RetiredEdit(w, id, Edited(w, id, spec), uid);
    }
  }

  lemma RetiredRemove(w: World, id: OwnerId, uid: nat)
    requires Retired(w, uid)
    ensures Retired(RemoveStep(w, id), uid) && NoneNewFor(w.store, RemoveStep(w, id).store, uid)
  {
    NoNewsPost(w.ownerNews, id, None, uid);
  }

  lemma RetiredStep(cat: Catalog, w: World, l: Label, uid: nat)
    requires WellFormed(cat) && Sound(cat, w) && Retired(w, uid)
    ensures Retired(Step(cat, w, l), uid) && NoneNewFor(w.store, Step(cat, w, l).store, uid)
  {
    match l
    case Begin(id) => RetiredBegin(w, id, uid);
    case Look(id) => RetiredLook(cat, w, id, uid);
    case Create(id) => RetiredCreate(cat, w, id, uid);
    case Lose(id) => RetiredCreate(cat, w, id, uid);
    case Fault(id) => RetiredDrop(w, id, uid);
    case Sync(k, n) => RetiredSync(w, k, n, uid);
    case SyncOwner(id, n) => RetiredSyncOwner(w, id, n, uid);
    case Apply(id, spec) => RetiredApply(w, id, spec, uid);
    case Remove(id) => RetiredRemove(w, id, uid);
    case Collect(k) => RetiredCollect(w, k, uid);
  }

  /** Once a UID is retired it stays so, and no run of any kind ever stores another object that
      carries it; the ones that are stored can only disappear. */
  lemma {:induction false} RetiredRun(cat: Catalog, w: World, trace: seq<Label>, uid: nat)
    requires WellFormed(cat) && Sound(cat, w) && Retired(w, uid)
    ensures Sound(cat, Exec(cat, w, trace)) && Retired(Exec(cat, w, trace), uid)
    ensures NoneNewFor(w.store, Exec(cat, w, trace).store, uid)
  {
    if trace == [] {
      assert Exec(cat, w, trace) == w;
    } else {
      var before, l := Exec(cat, w, trace[..|trace| - 1]), trace[|trace| - 1];
      RetiredRun(cat, w, trace[..|trace| - 1], uid);
      SoundStep(cat, before, l);
      RetiredStep(cat, before, l, uid);
    }
  }

  /** A UID is retired as soon as the name it was given to no longer stands for it anywhere: the
      owner is deleted or was created anew, the cache neither shows the old one nor has still to
      learn of it, and no pass over the old copy is in flight. UIDs never move to another name. */
  lemma DeletionRetires(cat: Catalog, w0: World, trace: seq<Label>, w: World, uid: nat)
    requires WellFormed(cat) && Starts(w0) && w == Exec(cat, w0, trace) && uid < |w.uids|
    requires var id := w.uids[uid];
      && (id in w.owners ==> w.owners[id].uid != uid)
      && (id in w.ownerCache ==> w.ownerCache[id].uid != uid)
      && (forall o :: Heard(w.ownerNews, id, o) ==> o.uid != uid)
      && (id in w.passes ==> w.passes[id].owner.uid != uid)
    ensures Retired(w, uid)
  {
    SoundRun(cat, w0, trace);
    NamedOnce(cat, w, uid);
  }

  lemma NamedOnce(cat: Catalog, w: World, uid: nat)
    requires Sound(cat, w) && uid < |w.uids|
    ensures forall id :: id in w.owners && id != w.uids[uid] ==> w.owners[id].uid != uid
    ensures forall id :: id in w.ownerCache && id != w.uids[uid] ==> w.ownerCache[id].uid != uid
    ensures forall id, o :: Heard(w.ownerNews, id, o) && id != w.uids[uid] ==> o.uid != uid
    ensures forall id :: id in w.passes && id != w.uids[uid] ==> w.passes[id].owner.uid != uid
  {
    forall id | id in w.passes && id != w.uids[uid]
      ensures w.passes[id].owner.uid != uid
    {
      assert SoundPass(cat, w.history, w.uids, id, w.passes[id]);
    }
  }

  /** In particular when the owner is deleted, its passes are over, and the cache has learned all
      news of its name: the deletion among them, since it lags behind but is never wrong for good. */
  lemma SeenDeletionRetires(cat: Catalog, w0: World, trace: seq<Label>, w: World, uid: nat)
    requires WellFormed(cat) && Starts(w0) && w == Exec(cat, w0, trace) && uid < |w.uids|
    requires var id := w.uids[uid];
      && id !in w.owners && Pending(w.ownerNews, id) == [] && id !in w.passes
    ensures w.uids[uid] !in w.ownerCache && Retired(w, uid)
  {
    CaughtUpRun(cat, w0, trace);
    NothingLeft(w, w.uids[uid]);
    DeletionRetires(cat, w0, trace, w, uid);
  }

  lemma NothingLeft(w: World, id: OwnerId)
    requires CaughtUp(w) && id !in w.owners && Pending(w.ownerNews, id) == []
    ensures id !in w.ownerCache && forall o :: !Heard(w.ownerNews, id, o)
  {
    assert Newest(w.ownerCache, w.ownerNews, id) == Lookup(w.owners, id);
  }

  // ----- Cleaning up -----

  function CollectAll(keys: seq<Key>): seq<Label> {
    seq(|keys|, i requires 0 <= i < |keys| => Collect(keys[i]))
  }

  // What is left when every object with this UID is gone.
  ghost predicate CleanedOf(store: map<Key, Object>, store': map<Key, Object>, uid: nat) {
    forall k :: (k in store' <==> k in store && !OwnedBy(store[k], uid)) && (k in store' ==> store'[k] == store[k])
  }

  // In between: exactly the listed objects are gone.
  ghost predicate Without(store: map<Key, Object>, store': map<Key, Object>, keys: seq<Key>) {
    forall k :: (k in store' <==> k in store && k !in keys) && (k in store' ==> store'[k] == store[k])
  }

  lemma {:induction false} CollectAllRemoves(cat: Catalog, w: World, keys: seq<Key>, uid: nat)
    requires NoCopy(w.owners, uid)
    requires forall i :: 0 <= i < |keys| ==> keys[i] in w.store && OwnedBy(w.store[keys[i]], uid)
    ensures Without(w.store, Exec(cat, w, CollectAll(keys)).store, keys)
    ensures Exec(cat, w, CollectAll(keys)).owners == w.owners
  {
    if keys == [] {
      assert Exec(cat, w, CollectAll(keys)) == w;
    } else {
      var front, last := keys[..|keys| - 1], keys[|keys| - 1];
      CollectAllRemoves(cat, w, front, uid);
      var before := Exec(cat, w, CollectAll(front));
      CollectLast(cat, w, front, last);
      CollectOne(before, last, uid);
      WithoutOneMore(w.store, before.store, front, last);
      assert front + [last] == keys;
    }
  }

  lemma CollectLast(cat: Catalog, w: World, keys: seq<Key>, k: Key)
    ensures Exec(cat, w, CollectAll(keys + [k])) == CollectStep(Exec(cat, w, CollectAll(keys)), k)
  {
    assert CollectAll(keys + [k]) == CollectAll(keys) + [Collect(k)];
    ExecOneMore(cat, w, CollectAll(keys), Collect(k));
  }

  lemma WithoutOneMore(store: map<Key, Object>, store': map<Key, Object>, keys: seq<Key>, k: Key)
    requires Without(store, store', keys)
    ensures Without(store, store' - {k}, keys + [k])
  {
  }

  lemma CollectOne(w: World, k: Key, uid: nat)
    requires NoCopy(w.owners, uid) && (k in w.store ==> OwnedBy(w.store[k], uid))
    ensures CollectStep(w, k).store == w.store - {k} && CollectStep(w, k).owners == w.owners
  {
  }

  lemma CreatedForIn(cat: Catalog, w: World, uid: nat, k: Key)
    requires WellFormed(cat) && Sound(cat, w) && AllCreated(w)
    ensures k in w.store && OwnedBy(w.store[k], uid) <==> k in w.origins && w.origins[k].owner.uid == uid
  {
  }

  /** Ownership and cleanup. In any run from an empty store the stored objects with a UID are
      exactly those created by passes whose copy of the owner had it. Once the UID is retired,
      whatever happens next adds nothing to them, and collecting them removes exactly them:
      every other object stays as it is. */
  lemma CleanupIsExact(cat: Catalog, w0: World, trace: seq<Label>, w: World, uid: nat, keys: seq<Key>)
    requires WellFormed(cat) && Starts(w0) && w0.store == map[] && w == Exec(cat, w0, trace)
    requires Retired(w, uid)
    requires forall k :: k in keys <==> k in w.store && OwnedBy(w.store[k], uid)
    ensures forall k :: k in keys <==> k in w.origins && w.origins[k].owner.uid == uid
    ensures forall later :: NoneNewFor(w.store, Exec(cat, w, later).store, uid)
    ensures CleanedOf(w.store, Exec(cat, w, CollectAll(keys)).store, uid)
  {
    SoundRun(cat, w0, trace);
    AllCreatedRun(cat, w0, trace);
    CleanupIn(cat, w, uid, keys);
  }

  lemma CleanupIn(cat: Catalog, w: World, uid: nat, keys: seq<Key>)
    requires WellFormed(cat) && Sound(cat, w) && AllCreated(w) && Retired(w, uid)
    requires forall k :: k in keys <==> k in w.store && OwnedBy(w.store[k], uid)
    ensures forall k :: k in keys <==> k in w.origins && w.origins[k].owner.uid == uid
    ensures forall later :: NoneNewFor(w.store, Exec(cat, w, later).store, uid)
    ensures CleanedOf(w.store, Exec(cat, w, CollectAll(keys)).store, uid)
  {
    CreatedForAll(cat, w, uid, keys);
    NothingNewLater(cat, w, uid);
    CollectAllRemoves(cat, w, keys, uid);
  }

  lemma CreatedForAll(cat: Catalog, w: World, uid: nat, keys: seq<Key>)
    requires WellFormed(cat) && Sound(cat, w) && AllCreated(w)
    requires forall k :: k in keys <==> k in w.store && OwnedBy(w.store[k], uid)
    ensures forall k :: k in keys <==> k in w.origins && w.origins[k].owner.uid == uid
  {
    forall k
      ensures k in keys <==> k in w.origins && w.origins[k].owner.uid == uid
    {
      CreatedForIn(cat, w, uid, k);
    }
  }

  lemma NothingNewLater(cat: Catalog, w: World, uid: nat)
    requires WellFormed(cat) && Sound(cat, w) && Retired(w, uid)
    ensures forall later :: NoneNewFor(w.store, Exec(cat, w, later).store, uid)
  {
    forall later
      ensures NoneNewFor(w.store, Exec(cat, w, later).store, uid)
    {
      RetiredRun(cat, w, later, uid);
    }
  }

  // ----- What the living keep -----

  // The object at k is stored and belongs to this owner, which is there.
  ghost predicate Kept(w: World, id: OwnerId, k: Key, made: Object) {
    && k in w.store && w.store[k] == made && made.namespace == id.namespace
    && id in w.owners && made.owner == Some(OwnerRef(id.kind, id.name, w.owners[id].uid))
  }

  lemma KeptByCreate(cat: Catalog, w: World, actor: OwnerId, id: OwnerId, k: Key, made: Object)
    requires Kept(w, id, k, made)
    ensures Kept(CreateStep(cat, w, actor), id, k, made) && Kept(LoseStep(cat, w, actor), id, k, made)
  {
    CreateOnlyAdds(cat, w, actor);
  }

  lemma KeptByEdit(w: World, other: OwnerId, spec: Spec, id: OwnerId, k: Key, made: Object)
    requires Kept(w, id, k, made)
    ensures Kept(ApplyStep(w, other, spec), id, k, made)
  {
  }

  lemma KeptByCollect(w: World, j: Key, id: OwnerId, k: Key, made: Object)
    requires Kept(w, id, k, made)
    ensures Kept(CollectStep(w, j), id, k, made)
  {
  }

  lemma KeptStep(cat: Catalog, w: World, l: Label, id: OwnerId, k: Key, made: Object)
    requires Kept(w, id, k, made) && l != Remove(id)
    ensures Kept(Step(cat, w, l), id, k, made)
  {
    match l
    case Look(actor) => LookOnlyMoves(cat, w, actor);
    case Create(actor) => KeptByCreate(cat, w, actor, id, k, made);
    case Lose(actor) => KeptByCreate(cat, w, actor, id, k, made);
    case Apply(other, spec) => KeptByEdit(w, other, spec, id, k, made);
    case Collect(j) => KeptByCollect(w, j, id, k, made);
    case _ =>
  }

  /** As long as nobody deletes the owner, nothing happens to its objects: no other pass, edit or
      collection removes or changes one that carries the owner's reference. */
  lemma {:induction false} LivingKeepTheirs(cat: Catalog, w: World, trace: seq<Label>, id: OwnerId, k: Key)
    requires k in w.store && Kept(w, id, k, w.store[k])
    requires Remove(id) !in trace
    ensures Kept(Exec(cat, w, trace), id, k, w.store[k])
  {
    if trace == [] {
      assert Exec(cat, w, trace) == w;
    } else {
      var front := trace[..|trace| - 1];
      LivingKeepTheirs(cat, w, front, id, k);
      KeptStep(cat, Exec(cat, w, front), trace[|trace| - 1], id, k, w.store[k]);
    }
  }

  // ----- Failure containment -----

  // Whatever spec the owner has had, its builder fails at this step, and nobody else wants the
  // key of that step.
  ghost predicate Hopeless(cat: Catalog, h: Histories, id: OwnerId, step: nat) {
    && step < |cat.plan(id)|
    && (forall i :: 0 <= i < step ==> cat.plan(id)[i] != cat.plan(id)[step])
    && (forall o: Owner :: o.id == id && id in h && o.spec in h[id] && Fits(id.kind, o.spec) ==>
          cat.build(o, step).Failed?)
    && (forall other :: other in h && other != id ==> cat.plan(id)[step] !in cat.plan(other))
  }

  // Nothing has ever been stored, and the cache knows of nothing.
  ghost predicate StartsEmpty(w: World) {
    Starts(w) && w.store == map[] && w.cache == map[] && w.news == map[]
  }

  // The step was never passed and its object never stored, so the cache never shows it either.
  ghost predicate Blocked(w: World, id: OwnerId, step: nat, k: Key) {
    && k !in w.store && k !in w.cache && NeverNews(w.news, k)
    && (id in w.passes ==> w.passes[id].step <= step)
    && StepsBelow(w.origins, id, step)
  }

  ghost predicate NeverNews(news: map<Key, seq<Option<Object>>>, k: Key) {
    forall o :: !Heard(news, k, o)
  }

  ghost predicate StepsBelow(origins: map<Key, Origin>, id: OwnerId, step: nat) {
    forall j :: j in origins && origins[j].owner.id == id ==> origins[j].step < step
  }

  lemma BlockedAdvance(cat: Catalog, w: World, other: OwnerId, p: Pass, id: OwnerId, step: nat, k: Key)
    requires Blocked(w, id, step, k) && (other == id ==> p.step < step)
    ensures Blocked(Advance(cat, w, other, p), id, step, k)
  {
  }

  lemma BlockedLook(cat: Catalog, w: World, other: OwnerId, id: OwnerId, step: nat, k: Key)
    requires step < |cat.plan(id)| && cat.plan(id)[step] == k && Blocked(w, id, step, k)
    ensures Blocked(LookStep(cat, w, other), id, step, k)
  {
    if Hits(cat, w, other) {
      BlockedAdvance(cat, w, other, w.passes[other], id, step, k);
    } else if CanLook(cat, w, other) {
      assert Blocked(Miss(w, other, w.passes[other]), id, step, k);
    }
  }

  lemma BlockedInsert(w: World, p: Pass, made: Object, id: OwnerId, step: nat, k: Key)
    requires Blocked(w, id, step, k) && KeyOf(made) != k && (p.owner.id == id ==> p.step < step)
    ensures Blocked(Insert(w, p, made), id, step, k)
  {
    forall o
      ensures !Heard(Post(w.news, KeyOf(made), Some(made)), k, o)
    {
      HeardPost(w.news, KeyOf(made), Some(made), k, o);
    }
  }

  lemma BlockedMade(cat: Catalog, w: World, other: OwnerId, id: OwnerId, step: nat, k: Key)
    requires WellFormed(cat) && Sound(cat, w) && Hopeless(cat, w.history, id, step)
    requires cat.plan(id)[step] == k && Blocked(w, id, step, k) && Creates(cat, w, other)
    ensures Blocked(Made(cat, w, other), id, step, k) && (other == id ==> w.passes[other].step < step)
  {
    var p := w.passes[other];
    assert SoundPass(cat, w.history, w.uids, other, p);
    BuiltAtPlan(cat, p.owner, p.step);
    assert other == id ==> p.step != step;
    assert other != id ==> cat.plan(other)[p.step] in cat.plan(other);
    BlockedInsert(w, p, cat.build(p.owner, p.step).result, id, step, k);
  }

  lemma BlockedCreate(cat: Catalog, w: World, other: OwnerId, id: OwnerId, step: nat, k: Key)
    requires WellFormed(cat) && Sound(cat, w) && Hopeless(cat, w.history, id, step)
    requires cat.plan(id)[step] == k && Blocked(w, id, step, k)
    ensures Blocked(CreateStep(cat, w, other), id, step, k) && Blocked(LoseStep(cat, w, other), id, step, k)
  {
    if Creates(cat, w, other) {
      BlockedMade(cat, w, other, id, step, k);
      BlockedAdvance(cat, Made(cat, w, other), other, w.passes[other], id, step, k);
      BlockedDrop(Made(cat, w, other), other, id, step, k);
    } else {
      Refuses(cat, w, other);
      BlockedDrop(w, other, id, step, k);
    }
  }

  lemma BlockedBegin(w: World, other: OwnerId, id: OwnerId, step: nat, k: Key)
    requires Blocked(w, id, step, k)
    ensures Blocked(BeginStep(w, other), id, step, k)
  {
  }

  lemma BlockedDrop(w: World, other: OwnerId, id: OwnerId, step: nat, k: Key)
    requires Blocked(w, id, step, k)
    ensures Blocked(Drop(w, other), id, step, k)
  {
  }

  lemma BlockedSync(w: World, j: Key, n: nat, id: OwnerId, step: nat, k: Key)
    requires Blocked(w, id, step, k)
    ensures Blocked(SyncStep(w, j, n), id, step, k)
  {
    if k in Learn(w.cache, w.news, j, n) {
      Learned(w.cache, w.news, j, n, k);
    }
    forall o
      ensures !Heard(Rest(w.news, j, n), k, o)
    {
      if Heard(Rest(w.news, j, n), k, o) {
        HeardRest(w.news, j, n, k, o);
      }
    }
  }

  lemma BlockedCollect(w: World, j: Key, id: OwnerId, step: nat, k: Key)
    requires Blocked(w, id, step, k)
    ensures Blocked(CollectStep(w, j), id, step, k)
  {
    forall o
      ensures !Heard(Post(w.news, j, None), k, o)
    {
      HeardPost(w.news, j, None, k, o);
    }
  }

  // Only what concerns owners differs.
  lemma BlockedOwners(w: World, w': World, id: OwnerId, step: nat, k: Key)
    requires Blocked(w, id, step, k)
    requires w' == w.(owners := w'.owners, ownerCache := w'.ownerCache, ownerNews := w'.ownerNews,
                      uids := w'.uids, history := w'.history)
    ensures Blocked(w', id, step, k)
  {
  }

  lemma BlockedStep(cat: Catalog, w: World, l: Label, id: OwnerId, step: nat, k: Key)
    requires WellFormed(cat) && Sound(cat, w) && Hopeless(cat, w.history, id, step)
    requires cat.plan(id)[step] == k && Blocked(w, id, step, k)
    ensures Blocked(Step(cat, w, l), id, step, k)
  {
    match l
    case Begin(other) => BlockedBegin(w, other, id, step, k);
    case Look(other) => BlockedLook(cat, w, other, id, step, k);
    case Create(other) => BlockedCreate(cat, w, other, id, step, k);
    case Lose(other) => BlockedCreate(cat, w, other, id, step, k);
    case Fault(other) => BlockedDrop(w, other, id, step, k);
    case Sync(j, n) => BlockedSync(w, j, n, id, step, k);
    case SyncOwner(other, n) => BlockedOwners(w, SyncOwnerStep(w, other, n), id, step, k);
    case Apply(other, spec) => BlockedOwners(w, ApplyStep(w, other, spec), id, step, k);
    case Remove(other) => BlockedOwners(w, RemoveStep(w, other), id, step, k);
    case Collect(j) => BlockedCollect(w, j, id, step, k);
  }

  ghost predicate HistoryGrows(h: Histories, h': Histories) {
    forall id :: id in h ==> id in h' && h[id] <= h'[id]
  }

  lemma HistoryStep(cat: Catalog, w: World, l: Label)
    ensures HistoryGrows(w.history, Step(cat, w, l).history)
  {
    if l.Apply? {
      HistoryApply(w, l.id, l.spec);
    } else {
      HistoryKept(cat, w, l);
    }
  }

  lemma HistoryKept(cat: Catalog, w: World, l: Label)
    requires !l.Apply?
    ensures Step(cat, w, l).history == w.history
  {
    match l
    case Look(id) => LookOnlyMoves(cat, w, id);
    case Create(id) => CreateOnlyAdds(cat, w, id);
    case Lose(id) => CreateOnlyAdds(cat, w, id);
    case Begin(id) =>
    case Fault(id) =>
    case Sync(k, n) =>
    case SyncOwner(id, n) =>
    case Remove(id) =>
    case Collect(k) =>
  }

  lemma HistoryApply(w: World, id: OwnerId, spec: Spec)
    ensures HistoryGrows(w.history, ApplyStep(w, id, spec).history)
  {
  }

  lemma HopelessBefore(cat: Catalog, h: Histories, h': Histories, id: OwnerId, step: nat)
    requires Hopeless(cat, h', id, step) && HistoryGrows(h, h')
    ensures Hopeless(cat, h, id, step)
  {
  }

  lemma {:induction false} BlockedRun(cat: Catalog, w0: World, trace: seq<Label>, id: OwnerId, step: nat)
    requires WellFormed(cat) && StartsEmpty(w0)
    requires Hopeless(cat, Exec(cat, w0, trace).history, id, step)
    ensures Blocked(Exec(cat, w0, trace), id, step, cat.plan(id)[step])
  {
    if trace == [] {
      assert Exec(cat, w0, trace) == w0;
    } else {
      var front, l := trace[..|trace| - 1], trace[|trace| - 1];
      var before := Exec(cat, w0, front);
      HistoryStep(cat, before, l);
      HopelessBefore(cat, before.history, Step(cat, before, l).history, id, step);
      BlockedRun(cat, w0, front, id, step);
      SoundRun(cat, w0, front);
      BlockedStep(cat, before, l, id, step, cat.plan(id)[step]);
    }
  }

  /** Failure containment over every run from an empty store, with any edits, deletions, retries
      and stale reads: if the builder fails at a step for every spec the owner ever had, and no
      other owner wants that step's key, then that object is never stored, no pass ever gets
      past the step, and nothing the owner's later steps build is ever created. */
  lemma FailureIsContained(cat: Catalog, w0: World, trace: seq<Label>, w: World, id: OwnerId, step: nat)
    requires WellFormed(cat) && StartsEmpty(w0) && w == Exec(cat, w0, trace)
    requires Hopeless(cat, w.history, id, step)
    ensures cat.plan(id)[step] !in w.store
    ensures id in w.passes ==> w.passes[id].step <= step
    ensures forall k :: k in w.store ==> k in w.origins && (w.origins[k].owner.id == id ==> w.origins[k].step < step)
  {
    BlockedRun(cat, w0, trace, id, step);
    AllCreatedRun(cat, w0, trace);
  }
}
