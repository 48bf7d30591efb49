/**
 The reconcile protocol as a transition system. Three controllers share an object store; their
 reads come from a cache that lags behind it, their writes go to the API server, and between
 any two calls of one pass anything else may happen: other passes, edits and deletions by
 users, garbage collection, cache updates, calls that fail or whose answer is lost.

 A run is any sequence of labels, so a statement about all traces is a statement about every
 interleaving. What a pass looks up and builds is a parameter, the catalog.
 */
module Protocol {
  import opened Text
  import opened Feed
  import opened Specs
  import opened Naming
  import opened Objects

  // For an owner: the keys its pass looks up, in order; how many lookups must miss before the
  // pass creates; and what it creates at a step.
  datatype Catalog = Catalog(
    plan: OwnerId -> seq<Key>,
    looks: OwnerKind -> nat,
    build: (Owner, nat) -> Outcome)

  ghost predicate WellFormed(cat: Catalog) {
    && (forall id :: 0 < |cat.plan(id)|)
    && (forall kind :: 0 < cat.looks(kind))
    && (forall o: Owner, i: nat :: i < |cat.plan(o.id)| && cat.build(o, i).Built? ==>
          && KeyOf(cat.build(o, i).result) == cat.plan(o.id)[i]
          && cat.build(o, i).result.owner == Some(RefTo(o)))
  }

  // A pass in flight: its copy of the owner, the step it is at, and its misses at that step.
  datatype Pass = Pass(owner: Owner, step: nat, misses: nat)

  // Where a stored object came from: the owner copy and the step of the pass that created it.
  datatype Origin = Origin(owner: Owner, step: nat)

  // The cache is fed by watches: `news` and `ownerNews` hold what it has yet to learn. The last
  // three fields record the run so far; no step's outcome depends on them.
  datatype World = World(
    store: map<Key, Object>,
    cache: map<Key, Object>,
    news: map<Key, seq<Option<Object>>>,
    owners: map<OwnerId, Owner>,
    ownerCache: map<OwnerId, Owner>,
    ownerNews: map<OwnerId, seq<Option<Owner>>>,
    passes: map<OwnerId, Pass>,
    uids: seq<OwnerId>, // the UIDs handed out so far, each with the name it was given to
    history: map<OwnerId, seq<Spec>>, // every spec a name has had; versions index it
    origins: map<Key, Origin>, // for the objects that passes created
    done: set<OwnerId>) // owners with an error-free pass behind them

  datatype Label =
    | Begin(id: OwnerId) // a pass reads its owner from the cache
    | Look(id: OwnerId) // the pass looks up its current key in the cache
    | Create(id: OwnerId) // the pass builds and creates its current object
    | Lose(id: OwnerId) // the same, but the answer of the API server is lost
    | Fault(id: OwnerId) // one of its calls fails for a reason of its own, without effect
    | Sync(key: Key, n: nat) // the cache learns an object's n-th pending state
    | SyncOwner(id: OwnerId, n: nat) // the cache learns an owner's n-th pending state
    | Apply(id: OwnerId, spec: Spec) // a user creates or edits an owner
    | Remove(id: OwnerId) // a user deletes an owner
    | Collect(key: Key) // the collector deletes an object whose owner is gone

  // ----- Steps -----

  function BeginStep(w: World, id: OwnerId): World {
    w.(passes := if id in w.passes || id !in w.ownerCache then w.passes
                 else w.passes[id := Pass(w.ownerCache[id], 0, 0)])
  }

  function Drop(w: World, id: OwnerId): World {
    w.(passes := w.passes - {id})
  }

  // The pass moves on; after its last step it returns without an error.
  function NextPasses(steps: nat, passes: map<OwnerId, Pass>, id: OwnerId, p: Pass): map<OwnerId, Pass> {
    if p.step + 1 < steps then passes[id := Pass(p.owner, p.step + 1, 0)] else passes - {id}
  }

  function NextDone(steps: nat, done: set<OwnerId>, id: OwnerId, p: Pass): set<OwnerId> {
    if p.step + 1 < steps then done else done + {id}
  }

  function Advance(cat: Catalog, w: World, id: OwnerId, p: Pass): World {
    w.(passes := NextPasses(|cat.plan(id)|, w.passes, id, p), done := NextDone(|cat.plan(id)|, w.done, id, p))
  }

  // A pass is never past the end of its plan; the first test says so where that is not yet known.
  predicate CanLook(cat: Catalog, w: World, id: OwnerId) {
    id in w.passes && w.passes[id].step < |cat.plan(id)| && w.passes[id].misses < cat.looks(id.kind)
  }

  function Miss(w: World, id: OwnerId, p: Pass): World {
    w.(passes := w.passes[id := p.(misses := p.misses + 1)])
  }

  predicate Hits(cat: Catalog, w: World, id: OwnerId) {
    CanLook(cat, w, id) && cat.plan(id)[w.passes[id].step] in w.cache
  }

  function LookStep(cat: Catalog, w: World, id: OwnerId): World {
    if Hits(cat, w, id) then Advance(cat, w, id, w.passes[id])
    else if CanLook(cat, w, id) then Miss(w, id, w.passes[id])
    else w
  }

  predicate CanCreate(cat: Catalog, w: World, id: OwnerId) {
    id in w.passes && w.passes[id].step < |cat.plan(id)| && w.passes[id].misses == cat.looks(id.kind)
  }

  // What the owner's current object would be, and whether the API server would take it.
  predicate Accepts(cat: Catalog, w: World, p: Pass) {
    var built := cat.build(p.owner, p.step);
    built.Built? && KeyOf(built.result) !in w.store
  }

  function Insert(w: World, p: Pass, made: Object): World {
    var k := KeyOf(made);
    w.(store := w.store[k := made], news := Post(w.news, k, Some(made)),
       origins := w.origins[k := Origin(p.owner, p.step)])
  }

  predicate Creates(cat: Catalog, w: World, id: OwnerId) {
    CanCreate(cat, w, id) && Accepts(cat, w, w.passes[id])
  }

  // What a pass makes at its current step.
  function Made(cat: Catalog, w: World, id: OwnerId): World
    requires Creates(cat, w, id)
  {
    Insert(w, w.passes[id], cat.build(w.passes[id].owner, w.passes[id].step).result)
  }

  // The builder may fail, and the API server refuses a key that is taken; either ends the pass.
  function Refuse(cat: Catalog, w: World, id: OwnerId): World {
    w.(passes := if CanCreate(cat, w, id) then w.passes - {id} else w.passes)
  }

  function CreateStep(cat: Catalog, w: World, id: OwnerId): World {
    if Creates(cat, w, id) then Advance(cat, Made(cat, w, id), id, w.passes[id]) else Refuse(cat, w, id)
  }

  // The object is stored, but the pass gets an error.
  function LoseStep(cat: Catalog, w: World, id: OwnerId): World {
    if Creates(cat, w, id) then Drop(Made(cat, w, id), id) else Refuse(cat, w, id)
  }

  function SyncStep(w: World, k: Key, n: nat): World {
    w.(cache := Learn(w.cache, w.news, k, n), news := Rest(w.news, k, n))
  }

  function SyncOwnerStep(w: World, id: OwnerId, n: nat): World {
    w.(ownerCache := Learn(w.ownerCache, w.ownerNews, id, n), ownerNews := Rest(w.ownerNews, id, n))
  }

  function Versions(w: World, id: OwnerId): seq<Spec> {
    if id in w.history then w.history[id] else []
  }

  function UidsWith(w: World, id: OwnerId): seq<OwnerId> {
    if id in w.owners then w.uids else w.uids + [id]
  }

  function Edit(w: World, id: OwnerId, o: Owner): World {
    w.(owners := w.owners[id := o], ownerNews := Post(w.ownerNews, id, Some(o)),
       uids := UidsWith(w, id), history := w.history[id := Versions(w, id) + [o.spec]])
  }

  // The owner after an edit, which keeps the UID; one created anew gets one never used before.
  function Edited(w: World, id: OwnerId, spec: Spec): Owner {
    Owner(id, if id in w.owners then w.owners[id].uid else |w.uids|, |Versions(w, id)|, spec)
  }

  function ApplyStep(w: World, id: OwnerId, spec: Spec): World {
    if Fits(id.kind, spec) then Edit(w, id, Edited(w, id, spec)) else w
  }

  function RemoveStep(w: World, id: OwnerId): World {
    w.(owners := w.owners - {id}, ownerNews := if id in w.owners then Post(w.ownerNews, id, None) else w.ownerNews)
  }

  predicate Orphan(w: World, k: Key) {
    && k in w.store && w.store[k].owner.Some?
    && var ref := w.store[k].owner.value;
       var id := OwnerId(ref.kind, w.store[k].namespace, ref.name);
       !(id in w.owners && w.owners[id].uid == ref.uid)
  }

  function Delete(w: World, k: Key): World {
    w.(store := w.store - {k}, news := Post(w.news, k, None), origins := w.origins - {k})
  }

  function CollectStep(w: World, k: Key): World {
    if Orphan(w, k) then Delete(w, k) else w
  }

  function Step(cat: Catalog, w: World, l: Label): World {
    match l
    case Begin(id) => BeginStep(w, id)
    case Look(id) => LookStep(cat, w, id)
    case Create(id) => CreateStep(cat, w, id)
    case Lose(id) => LoseStep(cat, w, id)
    case Fault(id) => Drop(w, id)
    case Sync(k, n) => SyncStep(w, k, n)
    case SyncOwner(id, n) => SyncOwnerStep(w, id, n)
    case Apply(id, spec) => ApplyStep(w, id, spec)
    case Remove(id) => RemoveStep(w, id)
    case Collect(k) => CollectStep(w, k)
  }

  lemma Refuses(cat: Catalog, w: World, id: OwnerId)
    ensures Refuse(cat, w, id) == if CanCreate(cat, w, id) then Drop(w, id) else w
  {
  }

  // Two worlds that differ at most in the passes and what they recorded.
  predicate SameBut(w: World, w': World) {
    w' == w.(passes := w'.passes, done := w'.done)
  }

  lemma LookOnlyMoves(cat: Catalog, w: World, id: OwnerId)
    ensures SameBut(w, LookStep(cat, w, id))
  {
  }

  // A create stores the object that the builder made, or nothing.
  lemma CreateOnlyAdds(cat: Catalog, w: World, id: OwnerId)
    ensures Creates(cat, w, id) ==>
      SameBut(Made(cat, w, id), CreateStep(cat, w, id)) && SameBut(Made(cat, w, id), LoseStep(cat, w, id))
    ensures !Creates(cat, w, id) ==> SameBut(w, CreateStep(cat, w, id)) && SameBut(w, LoseStep(cat, w, id))
  {
  }

  // The steps of an owner's own pass.
  predicate Own(id: OwnerId, l: Label) {
    l == Begin(id) || l == Look(id) || l == Create(id) || l == Lose(id) || l == Fault(id)
  }

  predicate SamePass(w: World, w': World, id: OwnerId) {
    (id in w'.passes <==> id in w.passes) && (id in w.passes ==> w'.passes[id] == w.passes[id])
  }

  lemma AdvanceKeepsOthers(cat: Catalog, w: World, other: OwnerId, p: Pass, id: OwnerId)
    requires other != id
    ensures SamePass(w, Advance(cat, w, other, p), id)
  {
  }

  lemma LookKeepsOthers(cat: Catalog, w: World, other: OwnerId, id: OwnerId)
    requires other != id
    ensures SamePass(w, LookStep(cat, w, other), id)
  {
    if Hits(cat, w, other) {
      AdvanceKeepsOthers(cat, w, other, w.passes[other], id);
    } else if CanLook(cat, w, other) {
      assert SamePass(w, Miss(w, other, w.passes[other]), id);
    }
  }

  lemma CreateKeepsOthers(cat: Catalog, w: World, other: OwnerId, id: OwnerId)
    requires other != id
    ensures SamePass(w, CreateStep(cat, w, other), id) && SamePass(w, LoseStep(cat, w, other), id)
  {
    if Creates(cat, w, other) {
      AdvanceKeepsOthers(cat, Made(cat, w, other), other, w.passes[other], id);
    }
  }

  // No step of anyone else touches an owner's pass.
  lemma OthersKeepPass(cat: Catalog, w: World, l: Label, id: OwnerId)
    requires !Own(id, l)
    ensures SamePass(w, Step(cat, w, l), id)
  {
    match l
    case Look(other) => LookKeepsOthers(cat, w, other, id);
    case Create(other) => CreateKeepsOthers(cat, w, other, id);
    case Lose(other) => CreateKeepsOthers(cat, w, other, id);
    case _ =>
  }

  lemma AdvanceKeepsDone(cat: Catalog, w: World, id: OwnerId, p: Pass)
    ensures w.done <= Advance(cat, w, id, p).done
    ensures id !in Advance(cat, w, id, p).passes ==> id in Advance(cat, w, id, p).done
  {
  }

  lemma LookKeepsDone(cat: Catalog, w: World, id: OwnerId)
    ensures w.done <= LookStep(cat, w, id).done
  {
    if Hits(cat, w, id) {
      AdvanceKeepsDone(cat, w, id, w.passes[id]);
    }
  }

  lemma CreateKeepsDone(cat: Catalog, w: World, id: OwnerId)
    ensures w.done <= CreateStep(cat, w, id).done && w.done <= LoseStep(cat, w, id).done
  {
    if Creates(cat, w, id) {
      AdvanceKeepsDone(cat, Made(cat, w, id), id, w.passes[id]);
    } else {
      Refuses(cat, w, id);
    }
  }

  // An error-free pass is never forgotten.
  lemma DoneStays(cat: Catalog, w: World, l: Label)
    ensures w.done <= Step(cat, w, l).done
  {
    match l
    case Look(id) => LookKeepsDone(cat, w, id);
    case Create(id) => CreateKeepsDone(cat, w, id);
    case Lose(id) => CreateKeepsDone(cat, w, id);
    case _ =>
  }

  // The world after a run.
  function Exec(cat: Catalog, w: World, trace: seq<Label>): World {
    if trace == [] then w
    else Step(cat, Exec(cat, w, trace[..|trace| - 1]), trace[|trace| - 1])
  }

  lemma {:induction false} ExecAppend(cat: Catalog, w: World, a: seq<Label>, b: seq<Label>)
    ensures Exec(cat, w, a + b) == Exec(cat, Exec(cat, w, a), b)
  {
    if b == [] {
      assert a + b == a;
    } else {
      assert (a + b)[..|a + b| - 1] == a + b[..|b| - 1];
      ExecAppend(cat, w, a, b[..|b| - 1]);
    }
  }

  lemma ExecOneMore(cat: Catalog, w: World, trace: seq<Label>, l: Label)
    ensures Exec(cat, w, trace + [l]) == Step(cat, Exec(cat, w, trace), l)
  {
    assert (trace + [l])[..|trace|] == trace;
  }

  // A world in which the operator starts: no pass has run yet.
  ghost predicate Starts(w: World) {
    && w.passes == map[] && w.origins == map[] && w.done == {}
    && Latest(w.history, w.uids, w.owners)
    && AllGenuine(w.history, w.uids, w.ownerCache) && NewsGenuine(w.history, w.uids, w.ownerNews)
    && CaughtUp(w)
  }

  // What the cache shows, together with what it has yet to learn, is the current state.
  ghost predicate CaughtUp(w: World) {
    InStep(w.store, w.cache, w.news) && InStep(w.owners, w.ownerCache, w.ownerNews)
  }

  // ----- What every run keeps -----

  type Histories = map<OwnerId, seq<Spec>>

  // A copy of an owner is one of the versions its name has had.
  ghost predicate Genuine(h: Histories, uids: seq<OwnerId>, id: OwnerId, o: Owner) {
    && o.id == id && Fits(id.kind, o.spec) && o.uid < |uids| && uids[o.uid] == id
    && id in h && o.version < |h[id]| && o.spec == h[id][o.version]
  }

  ghost predicate AllGenuine(h: Histories, uids: seq<OwnerId>, owners: map<OwnerId, Owner>) {
    forall id :: id in owners ==> Genuine(h, uids, id, owners[id])
  }

  ghost predicate NewsGenuine(h: Histories, uids: seq<OwnerId>, news: map<OwnerId, seq<Option<Owner>>>) {
    forall id, o :: Heard(news, id, o) ==> Genuine(h, uids, id, o)
  }

  ghost predicate Latest(h: Histories, uids: seq<OwnerId>, owners: map<OwnerId, Owner>) {
    forall id :: id in owners ==> Genuine(h, uids, id, owners[id]) && owners[id].version + 1 == |h[id]|
  }

  // An object that a pass created is, for as long as it is stored, what the builder made of one
  // version of its owner at one step of its plan.
  ghost predicate Rendered(cat: Catalog, h: Histories, uids: seq<OwnerId>, store: map<Key, Object>, a: Origin, k: Key) {
    && Genuine(h, uids, a.owner.id, a.owner)
    && a.step < |cat.plan(a.owner.id)| && cat.plan(a.owner.id)[a.step] == k
    && k in store && cat.build(a.owner, a.step) == Built(store[k])
  }

  ghost predicate SoundPass(cat: Catalog, h: Histories, uids: seq<OwnerId>, id: OwnerId, p: Pass) {
    Genuine(h, uids, id, p.owner) && p.step < |cat.plan(id)| && p.misses <= cat.looks(id.kind)
  }

  ghost predicate SoundPasses(cat: Catalog, h: Histories, uids: seq<OwnerId>, passes: map<OwnerId, Pass>) {
    forall id :: id in passes ==> SoundPass(cat, h, uids, id, passes[id])
  }

  ghost predicate AllRendered(cat: Catalog, h: Histories, uids: seq<OwnerId>, store: map<Key, Object>,
                              origins: map<Key, Origin>) {
    forall k :: k in origins ==> Rendered(cat, h, uids, store, origins[k], k)
  }

  ghost predicate SoundOwners(h: Histories, uids: seq<OwnerId>, owners: map<OwnerId, Owner>,
                              ownerCache: map<OwnerId, Owner>, ownerNews: map<OwnerId, seq<Option<Owner>>>) {
    Latest(h, uids, owners) && AllGenuine(h, uids, ownerCache) && NewsGenuine(h, uids, ownerNews)
  }

  ghost predicate Sound(cat: Catalog, w: World) {
    && SoundOwners(w.history, w.uids, w.owners, w.ownerCache, w.ownerNews)
    && SoundPasses(cat, w.history, w.uids, w.passes)
    && AllRendered(cat, w.history, w.uids, w.store, w.origins)
  }

  lemma BuiltAtPlan(cat: Catalog, o: Owner, i: nat)
    requires WellFormed(cat) && i < |cat.plan(o.id)| && cat.build(o, i).Built?
    ensures KeyOf(cat.build(o, i).result) == cat.plan(o.id)[i]
    ensures cat.build(o, i).result.owner == Some(RefTo(o))
  {
  }

  lemma SoundStep(cat: Catalog, w: World, l: Label)
    requires WellFormed(cat) && Sound(cat, w)
    ensures Sound(cat, Step(cat, w, l))
  {
    match l
    case Begin(id) => SoundBegin(cat, w, id);
    case Look(id) => SoundLook(cat, w, id);
    case Create(id) => SoundCreate(cat, w, id);
    case Lose(id) => SoundLose(cat, w, id);
    case Fault(id) => SoundDrop(cat, w, id);
    case Sync(k, n) =>
    case SyncOwner(id, n) => SoundSyncOwner(cat, w, id, n);
    case Apply(id, spec) => SoundApply(cat, w, id, spec);
    case Remove(id) => SoundRemove(cat, w, id);
    case Collect(k) => SoundCollect(cat, w, k);
  }

  lemma SoundDrop(cat: Catalog, w: World, id: OwnerId)
    requires Sound(cat, w)
    ensures Sound(cat, Drop(w, id))
  {
  }

  lemma SoundSyncOwner(cat: Catalog, w: World, id: OwnerId, n: nat)
    requires Sound(cat, w)
    ensures Sound(cat, SyncOwnerStep(w, id, n))
  {
    SoundLearn(w.history, w.uids, w.ownerCache, w.ownerNews, id, n);
  }

  lemma SoundLearn(h: Histories, uids: seq<OwnerId>, copy: map<OwnerId, Owner>, news: map<OwnerId, seq<Option<Owner>>>,
                   id: OwnerId, n: nat)
    requires AllGenuine(h, uids, copy) && NewsGenuine(h, uids, news)
    ensures AllGenuine(h, uids, Learn(copy, news, id, n)) && NewsGenuine(h, uids, Rest(news, id, n))
  {
    forall j | j in Learn(copy, news, id, n)
      ensures Genuine(h, uids, j, Learn(copy, news, id, n)[j])
    {
      Learned(copy, news, id, n, j);
    }
    forall j, o | Heard(Rest(news, id, n), j, o)
      ensures Genuine(h, uids, j, o)
    {
      HeardRest(news, id, n, j, o);
    }
  }

  lemma SoundRemove(cat: Catalog, w: World, id: OwnerId)
    requires Sound(cat, w)
    ensures Sound(cat, RemoveStep(w, id))
  {
    forall j, o | Heard(Post(w.ownerNews, id, None), j, o)
      ensures Genuine(w.history, w.uids, j, o)
    {
      HeardPost(w.ownerNews, id, None, j, o);
    }
  }

  lemma SoundCollect(cat: Catalog, w: World, k: Key)
    requires Sound(cat, w)
    ensures Sound(cat, CollectStep(w, k))
  {
  }

  lemma SoundBegin(cat: Catalog, w: World, id: OwnerId)
    requires WellFormed(cat) && Sound(cat, w)
    ensures Sound(cat, BeginStep(w, id))
  {
  }

  lemma SoundAdvance(cat: Catalog, w: World, id: OwnerId, p: Pass)
    requires Sound(cat, w) && SoundPass(cat, w.history, w.uids, id, p)
    ensures Sound(cat, Advance(cat, w, id, p))
  {
  }

  lemma SoundMiss(cat: Catalog, w: World, id: OwnerId, p: Pass)
    requires Sound(cat, w) && SoundPass(cat, w.history, w.uids, id, p) && p.misses < cat.looks(id.kind)
    ensures Sound(cat, Miss(w, id, p))
  {
  }

  lemma SoundLook(cat: Catalog, w: World, id: OwnerId)
    requires Sound(cat, w)
    ensures Sound(cat, LookStep(cat, w, id))
  {
    if CanLook(cat, w, id) {
      assert SoundPass(cat, w.history, w.uids, id, w.passes[id]);
      if Hits(cat, w, id) {
        SoundAdvance(cat, w, id, w.passes[id]);
      } else {
        SoundMiss(cat, w, id, w.passes[id]);
      }
    }
  }

  lemma SoundInsert(cat: Catalog, w: World, id: OwnerId, p: Pass, made: Object)
    requires WellFormed(cat) && Sound(cat, w) && SoundPass(cat, w.history, w.uids, id, p)
    requires cat.build(p.owner, p.step) == Built(made)
    ensures Sound(cat, Insert(w, p, made)) && SoundPass(cat, w.history, w.uids, id, p)
  {
  }

  lemma SoundMade(cat: Catalog, w: World, id: OwnerId)
    requires WellFormed(cat) && Sound(cat, w) && Creates(cat, w, id)
    ensures Sound(cat, Made(cat, w, id)) && SoundPass(cat, w.history, w.uids, id, w.passes[id])
  {
    assert SoundPass(cat, w.history, w.uids, id, w.passes[id]);
    SoundInsert(cat, w, id, w.passes[id], cat.build(w.passes[id].owner, w.passes[id].step).result);
  }

  lemma SoundRefuse(cat: Catalog, w: World, id: OwnerId)
    requires Sound(cat, w)
    ensures Sound(cat, Refuse(cat, w, id))
  {
    Refuses(cat, w, id);
    SoundDrop(cat, w, id);
  }

  lemma SoundCreate(cat: Catalog, w: World, id: OwnerId)
    requires WellFormed(cat) && Sound(cat, w)
    ensures Sound(cat, CreateStep(cat, w, id))
  {
    if Creates(cat, w, id) {
      SoundMade(cat, w, id);
      SoundAdvance(cat, Made(cat, w, id), id, w.passes[id]);
    } else {
      SoundRefuse(cat, w, id);
    }
  }

  lemma SoundLose(cat: Catalog, w: World, id: OwnerId)
    requires WellFormed(cat) && Sound(cat, w)
    ensures Sound(cat, LoseStep(cat, w, id))
  {
    if Creates(cat, w, id) {
      SoundMade(cat, w, id);
      SoundDrop(cat, Made(cat, w, id), id);
    } else {
      SoundRefuse(cat, w, id);
    }
  }

  // h' and uids' are what an edit makes of h and uids.
  ghost predicate Appended(h: Histories, uids: seq<OwnerId>, h': Histories, uids': seq<OwnerId>) {
    uids <= uids' && forall i :: i in h ==> i in h' && h[i] <= h'[i]
  }

  lemma SoundAppend(cat: Catalog, w: World, h': Histories, uids': seq<OwnerId>)
    requires Sound(cat, w) && Appended(w.history, w.uids, h', uids')
    ensures AllGenuine(h', uids', w.owners)
    ensures AllGenuine(h', uids', w.ownerCache) && NewsGenuine(h', uids', w.ownerNews)
    ensures SoundPasses(cat, h', uids', w.passes) && AllRendered(cat, h', uids', w.store, w.origins)
  {
  }

  lemma LatestAppend(w: World, id: OwnerId, o: Owner)
    requires Latest(w.history, w.uids, w.owners) && o.id == id && Fits(id.kind, o.spec)
    requires o.uid == (if id in w.owners then w.owners[id].uid else |w.uids|) && o.version == |Versions(w, id)|
    ensures Appended(w.history, w.uids, Edit(w, id, o).history, Edit(w, id, o).uids)
    ensures Latest(Edit(w, id, o).history, Edit(w, id, o).uids, Edit(w, id, o).owners)
    ensures Genuine(Edit(w, id, o).history, Edit(w, id, o).uids, id, o)
  {
  }

  lemma NewsAppend(h: Histories, uids: seq<OwnerId>, news: map<OwnerId, seq<Option<Owner>>>, id: OwnerId, o: Owner)
    requires NewsGenuine(h, uids, news) && Genuine(h, uids, id, o)
    ensures NewsGenuine(h, uids, Post(news, id, Some(o)))
  {
    forall j, p | Heard(Post(news, id, Some(o)), j, p)
      ensures Genuine(h, uids, j, p)
    {
      HeardPost(news, id, Some(o), j, p);
    }
  }

  lemma SoundApply(cat: Catalog, w: World, id: OwnerId, spec: Spec)
    requires Sound(cat, w)
    ensures Sound(cat, ApplyStep(w, id, spec))
  {
    if Fits(id.kind, spec) {
      var o := Edited(w, id, spec);
      var w' := Edit(w, id, o);
      LatestAppend(w, id, o);
      SoundAppend(cat, w, w'.history, w'.uids);
      NewsAppend(w'.history, w'.uids, w.ownerNews, id, o);
    }
  }

  /** Every object an operator step ever created is the rendering of one version of its owner's
      spec at its own key, in every run from any start: edits, deletions, collections, stale
      reads, failures and lost answers included. */
  lemma {:induction false} SoundRun(cat: Catalog, w: World, trace: seq<Label>)
    requires WellFormed(cat) && Starts(w)
    ensures Sound(cat, Exec(cat, w, trace))
  {
    if trace == [] {
      assert Sound(cat, w);
    } else {
      SoundRun(cat, w, trace[..|trace| - 1]);
      SoundStep(cat, Exec(cat, w, trace[..|trace| - 1]), trace[|trace| - 1]);
    }
  }

  // ----- The cache and its news -----

  lemma CaughtUpMade(cat: Catalog, w: World, id: OwnerId)
    requires CaughtUp(w) && Creates(cat, w, id)
    ensures CaughtUp(Made(cat, w, id))
  {
    var made := cat.build(w.passes[id].owner, w.passes[id].step).result;
    InStepPost(w.store, w.cache, w.news, KeyOf(made), Some(made));
  }

  lemma CaughtUpCreate(cat: Catalog, w: World, id: OwnerId)
    requires CaughtUp(w)
    ensures CaughtUp(CreateStep(cat, w, id)) && CaughtUp(LoseStep(cat, w, id))
  {
    CreateOnlyAdds(cat, w, id);
    if Creates(cat, w, id) {
      CaughtUpMade(cat, w, id);
    }
  }

  lemma CaughtUpStep(cat: Catalog, w: World, l: Label)
    requires CaughtUp(w)
    ensures CaughtUp(Step(cat, w, l))
  {
    match l
    case Look(id) => LookOnlyMoves(cat, w, id);
    case Create(id) => CaughtUpCreate(cat, w, id);
    case Lose(id) => CaughtUpCreate(cat, w, id);
    case Sync(k, n) => InStepLearn(w.store, w.cache, w.news, k, n);
    case SyncOwner(id, n) => InStepLearn(w.owners, w.ownerCache, w.ownerNews, id, n);
    case Apply(id, spec) => CaughtUpApply(w, id, spec);
    case Remove(id) => CaughtUpRemove(w, id);
    case Collect(k) => InStepPost(w.store, w.cache, w.news, k, None);
    case _ =>
  }

  lemma CaughtUpApply(w: World, id: OwnerId, spec: Spec)
    requires CaughtUp(w)
    ensures CaughtUp(ApplyStep(w, id, spec))
  {
    InStepPost(w.owners, w.ownerCache, w.ownerNews, id, Some(Edited(w, id, spec)));
  }

  lemma CaughtUpRemove(w: World, id: OwnerId)
    requires CaughtUp(w)
    ensures CaughtUp(RemoveStep(w, id))
  {
    if id in w.owners {
      InStepPost(w.owners, w.ownerCache, w.ownerNews, id, None);
    } else {
      assert w.owners - {id} == w.owners;
    }
  }

  /** In every run the cache is a copy that lags behind: having learned all its news of an object
      or an owner, it shows the current state. */
  lemma {:induction false} CaughtUpRun(cat: Catalog, w: World, trace: seq<Label>)
    requires CaughtUp(w)
    ensures CaughtUp(Exec(cat, w, trace))
  {
    if trace == [] {
      assert Exec(cat, w, trace) == w;
    } else {
      CaughtUpRun(cat, w, trace[..|trace| - 1]);
      CaughtUpStep(cat, Exec(cat, w, trace[..|trace| - 1]), trace[|trace| - 1]);
    }
  }
}
