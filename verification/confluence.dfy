/**
 Runs in which users leave the specs alone: however the passes of all owners interleave, retry
 and misread, the store they end in is determined by the store they started from.
 */
module Confluence {
  import opened Text
  import opened Feed
  import opened Naming
  import opened Objects
  import opened Protocol
  import opened Growth

  predicate Quiet(l: Label) {
    !l.Remove? && !l.Collect? && !l.Apply?
  }

  ghost predicate AllQuiet(trace: seq<Label>) {
    forall i :: 0 <= i < |trace| ==> Quiet(trace[i])
  }

  // Two owners want a key that is not there.
  ghost predicate Contested(cat: Catalog, owners: map<OwnerId, Owner>, store: map<Key, Object>,
                            a: OwnerId, b: OwnerId, k: Key) {
    a != b && a in owners && b in owners && k in cat.plan(a) && k in cat.plan(b) && k !in store
  }

  ghost predicate Uncontested(cat: Catalog, owners: map<OwnerId, Owner>, store: map<Key, Object>) {
    forall a, b, k :: !Contested(cat, owners, store, a, b, k)
  }

  ghost predicate CopiesOf(owners: map<OwnerId, Owner>, copies: map<OwnerId, Owner>) {
    forall id :: id in copies ==> id in owners && copies[id] == owners[id]
  }

  ghost predicate PassesOf(owners: map<OwnerId, Owner>, passes: map<OwnerId, Pass>) {
    forall id :: id in passes ==> id in owners && passes[id].owner == owners[id]
  }

  ghost predicate OriginsOf(owners: map<OwnerId, Owner>, origins: map<Key, Origin>) {
    forall k :: k in origins ==>
      origins[k].owner.id in owners && origins[k].owner == owners[origins[k].owner.id]
  }

  // What the cache has yet to learn of the owners is how they are now.
  ghost predicate NewsOf(owners: map<OwnerId, Owner>, news: map<OwnerId, seq<Option<Owner>>>) {
    forall id, o :: Heard(news, id, o) ==> id in owners && o == owners[id]
  }

  ghost predicate StartsQuiet(cat: Catalog, w: World) {
    && WellFormed(cat) && StartsBehind(w)
    && CopiesOf(w.owners, w.ownerCache) && NewsOf(w.owners, w.ownerNews)
  }

  ghost predicate StoreIs(store0: map<Key, Object>, store: map<Key, Object>, origins: map<Key, Origin>) {
    store.Keys == store0.Keys + origins.Keys && store0.Keys !! origins.Keys
  }

  // What the quiet part of a run keeps, beyond what every deletion-free run keeps.
  ghost predicate Undisturbed(w0: World, w: World) {
    && w.owners == w0.owners && CopiesOf(w.owners, w.ownerCache) && NewsOf(w.owners, w.ownerNews)
    && PassesOf(w.owners, w.passes) && OriginsOf(w.owners, w.origins)
    && w.done <= w.owners.Keys && StoreIs(w0.store, w.store, w.origins)
  }

  lemma UndisturbedAdvance(cat: Catalog, w0: World, w: World, id: OwnerId, p: Pass)
    requires Undisturbed(w0, w) && id in w.owners && p.owner == w.owners[id]
    ensures Undisturbed(w0, Advance(cat, w, id, p)) && w.done <= Advance(cat, w, id, p).done
  {
  }

  lemma UndisturbedMiss(w0: World, w: World, id: OwnerId)
    requires Undisturbed(w0, w) && id in w.passes
    ensures Undisturbed(w0, Miss(w, id, w.passes[id]))
  {
  }

  lemma UndisturbedDrop(w0: World, w: World, id: OwnerId)
    requires Undisturbed(w0, w)
    ensures Undisturbed(w0, Drop(w, id))
  {
  }

  lemma UndisturbedBegin(w0: World, w: World, id: OwnerId)
    requires Undisturbed(w0, w)
    ensures Undisturbed(w0, BeginStep(w, id))
  {
  }

  lemma UndisturbedLook(cat: Catalog, w0: World, w: World, id: OwnerId)
    requires Undisturbed(w0, w)
    ensures Undisturbed(w0, LookStep(cat, w, id)) && w.done <= LookStep(cat, w, id).done
  {
    if Hits(cat, w, id) {
      UndisturbedAdvance(cat, w0, w, id, w.passes[id]);
    } else if CanLook(cat, w, id) {
      UndisturbedMiss(w0, w, id);
    }
  }

  lemma UndisturbedInsert(w0: World, w: World, p: Pass, made: Object)
    requires Undisturbed(w0, w) && KeyOf(made) !in w.store
    requires p.owner.id in w.owners && p.owner == w.owners[p.owner.id]
    ensures Undisturbed(w0, Insert(w, p, made))
  {
  }

  lemma UndisturbedMade(cat: Catalog, w0: World, w: World, id: OwnerId)
    requires Sound(cat, w) && Undisturbed(w0, w) && Creates(cat, w, id)
    ensures Undisturbed(w0, Made(cat, w, id)) && id in w.owners && w.passes[id].owner == w.owners[id]
  {
    var p := w.passes[id];
    assert SoundPass(cat, w.history, w.uids, id, p);
    UndisturbedInsert(w0, w, p, cat.build(p.owner, p.step).result);
  }

  lemma UndisturbedCreate(cat: Catalog, w0: World, w: World, id: OwnerId)
    requires Sound(cat, w) && Undisturbed(w0, w)
    ensures Undisturbed(w0, CreateStep(cat, w, id)) && w.done <= CreateStep(cat, w, id).done
    ensures Undisturbed(w0, LoseStep(cat, w, id)) && w.done <= LoseStep(cat, w, id).done
  {
    if Creates(cat, w, id) {
      UndisturbedMade(cat, w0, w, id);
      UndisturbedAdvance(cat, w0, Made(cat, w, id), id, w.passes[id]);
      UndisturbedDrop(w0, Made(cat, w, id), id);
    } else {
      Refuses(cat, w, id);
      UndisturbedDrop(w0, w, id);
    }
  }

  lemma UndisturbedSync(w0: World, w: World, k: Key, n: nat)
    requires Undisturbed(w0, w)
    ensures Undisturbed(w0, SyncStep(w, k, n))
  {
  }

  lemma UndisturbedSyncOwner(w0: World, w: World, id: OwnerId, n: nat)
    requires Undisturbed(w0, w)
    ensures Undisturbed(w0, SyncOwnerStep(w, id, n))
  {
    forall j | j in Learn(w.ownerCache, w.ownerNews, id, n)
      ensures j in w.owners && Learn(w.ownerCache, w.ownerNews, id, n)[j] == w.owners[j]
    {
      Learned(w.ownerCache, w.ownerNews, id, n, j);
    }
    forall j, o | Heard(Rest(w.ownerNews, id, n), j, o)
      ensures j in w.owners && o == w.owners[j]
    {
      HeardRest(w.ownerNews, id, n, j, o);
    }
  }

  lemma UndisturbedStep(cat: Catalog, w0: World, w: World, l: Label)
    requires Sound(cat, w) && Undisturbed(w0, w) && Quiet(l)
    ensures Undisturbed(w0, Step(cat, w, l)) && w.done <= Step(cat, w, l).done
  {
    match l
    case Begin(id) => UndisturbedBegin(w0, w, id);
    case Look(id) => UndisturbedLook(cat, w0, w, id);
    case Create(id) => UndisturbedCreate(cat, w0, w, id);
    case Lose(id) => UndisturbedCreate(cat, w0, w, id);
    case Fault(id) => UndisturbedDrop(w0, w, id);
    case Sync(k, n) => UndisturbedSync(w0, w, k, n);
    case SyncOwner(id, n) => UndisturbedSyncOwner(w0, w, id, n);
  }

  // Everything known about a world that a quiet run reaches.
  ghost predicate QuietWorld(cat: Catalog, w0: World, w: World) {
    && WellFormed(cat)
    && Sound(cat, w) && Growing(cat, w) && Ordered(w) && Undisturbed(w0, w) && StoreGrows(w0, w)
  }

  lemma QuietStep(cat: Catalog, w0: World, w: World, l: Label)
    requires QuietWorld(cat, w0, w) && Quiet(l)
    ensures QuietWorld(cat, w0, Step(cat, w, l)) && StoreGrows(w, Step(cat, w, l))
    ensures w.done <= Step(cat, w, l).done
  {
    SoundStep(cat, w, l);
    GrowingStep(cat, w, l);
    OrderedStep(cat, w, l);
    UndisturbedStep(cat, w0, w, l);
  }

  lemma {:induction false} QuietFrom(cat: Catalog, w0: World, w: World, trace: seq<Label>)
    requires QuietWorld(cat, w0, w) && AllQuiet(trace)
    ensures QuietWorld(cat, w0, Exec(cat, w, trace)) && StoreGrows(w, Exec(cat, w, trace))
    ensures w.done <= Exec(cat, w, trace).done
  {
    if trace == [] {
      assert Exec(cat, w, trace) == w;
    } else {
      QuietFrom(cat, w0, w, trace[..|trace| - 1]);
      QuietStep(cat, w0, Exec(cat, w, trace[..|trace| - 1]), trace[|trace| - 1]);
    }
  }

  lemma QuietStart(cat: Catalog, w0: World)
    requires StartsQuiet(cat, w0)
    ensures QuietWorld(cat, w0, w0)
  {
  }

  // ----- The store a run must end in -----

  function FirstStep(plan: seq<Key>, k: Key): (i: nat)
    requires k in plan
    ensures i < |plan| && plan[i] == k && forall j :: 0 <= j < i ==> plan[j] != k
  {
    if plan[0] == k then 0 else 1 + FirstStep(plan[1..], k)
  }

  // What an owner's pass makes for a key: the result of the first step that wants it.
  function Desired(cat: Catalog, o: Owner, k: Key): Outcome
    requires k in cat.plan(o.id)
  {
    cat.build(o, FirstStep(cat.plan(o.id), k))
  }

  ghost predicate Wanted(cat: Catalog, owners: map<OwnerId, Owner>, k: Key) {
    exists id :: id in owners && k in cat.plan(id)
  }

  // Everything that was there is still there, and what was not there is either absent or what
  // the one owner that wants the key makes for it.
  ghost predicate OnlyDesiredAdded(cat: Catalog, w0: World, store: map<Key, Object>) {
    && (forall k :: k in w0.store ==> k in store && store[k] == w0.store[k])
    && (forall k :: k in store && k !in w0.store ==> Wanted(cat, w0.owners, k))
    && (forall id, k :: id in w0.owners && k in cat.plan(id) && k in store && k !in w0.store ==>
          w0.owners[id].id == id && Desired(cat, w0.owners[id], k) == Built(store[k]))
  }

  ghost predicate AllPresent(cat: Catalog, owners: map<OwnerId, Owner>, store: map<Key, Object>) {
    forall k :: Wanted(cat, owners, k) ==> k in store
  }

  // The initial store plus the rendered object at every desired key that was absent.
  ghost predicate Final(cat: Catalog, w0: World, store: map<Key, Object>) {
    OnlyDesiredAdded(cat, w0, store) && AllPresent(cat, w0.owners, store)
  }

  lemma FinalIsUnique(cat: Catalog, w0: World, a: map<Key, Object>, b: map<Key, Object>)
    requires Final(cat, w0, a) && Final(cat, w0, b)
    ensures a == b
  {
  }

  lemma FirstStepIs(plan: seq<Key>, k: Key, i: nat)
    requires i < |plan| && plan[i] == k && forall j :: 0 <= j < i ==> plan[j] != k
    ensures k in plan && FirstStep(plan, k) == i
  {
  }

  lemma OnlyDesired(cat: Catalog, w0: World, w: World)
    requires QuietWorld(cat, w0, w) && Uncontested(cat, w0.owners, w0.store)
    ensures OnlyDesiredAdded(cat, w0, w.store)
  {
    forall k | k in w.store && k !in w0.store
      ensures Wanted(cat, w0.owners, k)
      ensures forall id :: id in w0.owners && k in cat.plan(id) ==>
                w0.owners[id].id == id && Desired(cat, w0.owners[id], k) == Built(w.store[k])
    {
      assert k in w.store.Keys && k in w.origins.Keys;
      OriginIsDesired(cat, w0, w, k);
    }
  }

  lemma OriginIsDesired(cat: Catalog, w0: World, w: World, k: Key)
    requires QuietWorld(cat, w0, w) && k in w.origins && Uncontested(cat, w0.owners, w0.store)
    ensures k in w.store && Wanted(cat, w0.owners, k)
    ensures forall id :: id in w0.owners && k in cat.plan(id) ==>
              w0.owners[id].id == id && Desired(cat, w0.owners[id], k) == Built(w.store[k])
  {
    var a := w.origins[k];
    assert Rendered(cat, w.history, w.uids, w.store, a, k);
    assert OriginInOrder(cat, w.store, a, k);
    assert a.owner.id in w0.owners && a.owner == w0.owners[a.owner.id];
    FirstStepIs(cat.plan(a.owner.id), k, a.step);
    forall id | id in w0.owners && k in cat.plan(id)
      ensures id == a.owner.id
    {
      assert !Contested(cat, w0.owners, w0.store, id, a.owner.id, k);
    }
  }

  lemma DoneMeansFinal(cat: Catalog, w0: World, w: World)
    requires QuietWorld(cat, w0, w) && w.done == w0.owners.Keys && Uncontested(cat, w0.owners, w0.store)
    ensures Final(cat, w0, w.store)
  {
    OnlyDesired(cat, w0, w);
    DoneMeansPresent(cat, w0, w);
  }

  /** Confluence. Take any owners that nobody edits or deletes, of which no two want a key that is
      not there, and any interleaving of their passes, with stale reads, refused creations, lost
      answers and failing calls. In every state nothing was added to the initial store but what
      the one owner that wants it makes for the key; and once each owner has had one error-free
      pass, the store is the initial one plus exactly the desired objects that were absent. */
  lemma EveryRunHeadsForTheSameStore(cat: Catalog, w0: World, trace: seq<Label>, w: World)
    requires StartsQuiet(cat, w0) && Uncontested(cat, w0.owners, w0.store)
    requires AllQuiet(trace) && w == Exec(cat, w0, trace)
    ensures OnlyDesiredAdded(cat, w0, w.store)
    ensures w.done == w0.owners.Keys ==> Final(cat, w0, w.store)
  {
    QuietStart(cat, w0);
    QuietFrom(cat, w0, w0, trace);
    OnlyDesired(cat, w0, w);
    if w.done == w0.owners.Keys {
      DoneMeansFinal(cat, w0, w);
    }
  }

  // A quiet run after which every owner has had an error-free pass.
  ghost predicate Completes(cat: Catalog, w0: World, trace: seq<Label>) {
    AllQuiet(trace) && Exec(cat, w0, trace).done == w0.owners.Keys
  }

  /** So any two such runs end in the same store, */
  lemma Confluent(cat: Catalog, w0: World, s: seq<Label>, t: seq<Label>)
    requires StartsQuiet(cat, w0) && Uncontested(cat, w0.owners, w0.store)
    requires Completes(cat, w0, s) && Completes(cat, w0, t)
    ensures Exec(cat, w0, s).store == Exec(cat, w0, t).store
  {
    EveryRunHeadsForTheSameStore(cat, w0, s, Exec(cat, w0, s));
    EveryRunHeadsForTheSameStore(cat, w0, t, Exec(cat, w0, t));
    FinalIsUnique(cat, w0, Exec(cat, w0, s).store, Exec(cat, w0, t).store);
  }

  // Of what is stored, everything was there or is wanted by some owner.
  lemma OnlyWanted(cat: Catalog, w0: World, w: World, k: Key)
    requires QuietWorld(cat, w0, w) && k in w.store
    ensures k in w0.store || Wanted(cat, w0.owners, k)
  {
    assert k in w.store.Keys;
    if k !in w0.store {
      assert Rendered(cat, w.history, w.uids, w.store, w.origins[k], k);
    }
  }

  lemma DoneMeansPresent(cat: Catalog, w0: World, w: World)
    requires QuietWorld(cat, w0, w) && w.done == w0.owners.Keys
    ensures AllPresent(cat, w0.owners, w.store)
  {
    forall k | Wanted(cat, w0.owners, k)
      ensures k in w.store
    {
      var id :| id in w0.owners && k in cat.plan(id);
      assert Reached(cat.plan(id), w.store, |cat.plan(id)|);
    }
  }

  /** and whatever passes follow a complete run, with whatever reads and failures, change the store
      no more, even where owners want common keys. */
  lemma FinalStays(cat: Catalog, w0: World, s: seq<Label>, w: World, later: seq<Label>)
    requires StartsQuiet(cat, w0) && Completes(cat, w0, s) && w == Exec(cat, w0, s) && AllQuiet(later)
    ensures Exec(cat, w, later).store == w.store
  {
    QuietStart(cat, w0);
    QuietFrom(cat, w0, w0, s);
    QuietFrom(cat, w0, w, later);
    DoneMeansPresent(cat, w0, w);
    NothingToAdd(cat, w0, w, Exec(cat, w, later));
  }

  lemma NothingToAdd(cat: Catalog, w0: World, w: World, w': World)
    requires QuietWorld(cat, w0, w') && AllPresent(cat, w0.owners, w.store)
    requires StoreGrows(w0, w) && StoreGrows(w, w')
    ensures w'.store == w.store
  {
    forall k | k in w'.store
      ensures k in w.store
    {
      OnlyWanted(cat, w0, w', k);
    }
  }
}
