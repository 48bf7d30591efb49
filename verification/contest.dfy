/**
 When confluence holds: exactly when no two owners want a key that is not there. Of two that do,
 whoever comes first has its object stored for good.
 */
module Contest {
  import opened Text
  import opened Naming
  import opened Objects
  import opened Protocol
  import opened Growth
  import opened Lifecycle
  import opened Confluence
  import opened Progress

  // Only this owner has a pass, and only its passes have created anything.
  ghost predicate OnlyOf(w: World, id: OwnerId) {
    && w.passes.Keys <= {id}
    && forall k :: k in w.origins ==> w.origins[k].owner.id == id
  }

  lemma OnlyOfLook(cat: Catalog, w: World, id: OwnerId)
    requires OnlyOf(w, id)
    ensures OnlyOf(LookStep(cat, w, id), id)
  {
    LookOnlyMoves(cat, w, id);
    if Hits(cat, w, id) {
      assert Advance(cat, w, id, w.passes[id]).passes.Keys <= {id};
    }
  }

  lemma OnlyOfMade(cat: Catalog, w: World, id: OwnerId)
    requires OnlyOf(w, id) && Sound(cat, w) && Creates(cat, w, id)
    ensures OnlyOf(Made(cat, w, id), id)
  {
    assert SoundPass(cat, w.history, w.uids, id, w.passes[id]);
  }

  lemma OnlyOfCreate(cat: Catalog, w: World, id: OwnerId)
    requires OnlyOf(w, id) && Sound(cat, w)
    ensures OnlyOf(CreateStep(cat, w, id), id) && OnlyOf(LoseStep(cat, w, id), id)
  {
    if Creates(cat, w, id) {
      OnlyOfMade(cat, w, id);
      assert Advance(cat, Made(cat, w, id), id, w.passes[id]).passes.Keys <= {id};
    } else {
      Refuses(cat, w, id);
    }
  }

  lemma OnlyOfStep(cat: Catalog, w: World, id: OwnerId, l: Label)
    requires OnlyOf(w, id) && Sound(cat, w) && OfPass(id, l)
    ensures OnlyOf(Step(cat, w, l), id)
  {
    match l
    case Look(_) => OnlyOfLook(cat, w, id);
    case Create(_) => OnlyOfCreate(cat, w, id);
    case Lose(_) => OnlyOfCreate(cat, w, id);
    case _ => OnlyOfRest(cat, w, id, l);
  }

  lemma OnlyOfRest(cat: Catalog, w: World, id: OwnerId, l: Label)
    requires OnlyOf(w, id) && OfPass(id, l) && !l.Look? && !l.Create? && !l.Lose?
    ensures OnlyOf(Step(cat, w, l), id)
  {
  }

  lemma {:induction false} OnlyOfRun(cat: Catalog, w: World, trace: seq<Label>, id: OwnerId)
    requires WellFormed(cat) && Starts(w) && Alone(trace, id)
    ensures OnlyOf(Exec(cat, w, trace), id)
  {
    if trace == [] {
      assert Exec(cat, w, trace) == w;
    } else {
      var front, l := trace[..|trace| - 1], trace[|trace| - 1];
      OnlyOfRun(cat, w, front, id);
      SoundRun(cat, w, front);
      OnlyOfStep(cat, Exec(cat, w, front), id, l);
    }
  }

  // The object at k is the owner's.
  ghost predicate Holds(store: map<Key, Object>, k: Key, o: Owner) {
    k in store && store[k].owner == Some(RefTo(o))
  }

  lemma HeldByCreator(cat: Catalog, w0: World, w: World, id: OwnerId, k: Key)
    requires QuietWorld(cat, w0, w) && OnlyOf(w, id) && id in w.done && id in w0.owners
    requires k in cat.plan(id) && k !in w0.store
    ensures Holds(w.store, k, w0.owners[id])
  {
    assert Reached(cat.plan(id), w.store, |cat.plan(id)|);
    assert k in w.store.Keys;
    var a := w.origins[k];
    assert Rendered(cat, w.history, w.uids, w.store, a, k);
    BuiltAtPlan(cat, a.owner, a.step);
  }

  // This owner can finish before anyone else begins.
  lemma FinishesFirst(cat: Catalog, w0: World, id: OwnerId) returns (first: seq<Label>)
    requires StartsQuiet(cat, w0) && ValidSpecs(cat, w0.owners) && id in w0.owners
    ensures AllQuiet(first) && id in Exec(cat, w0, first).done && OnlyOf(Exec(cat, w0, first), id)
  {
    QuietStart(cat, w0);
    QuietReady(cat, w0, w0);
    first := FinishFrom(cat, w0, id);
    AloneIsQuiet(first, id);
    OnlyOfRun(cat, w0, first, id);
  }

  // A complete run in which it does.
  lemma FirstComer(cat: Catalog, w0: World, id: OwnerId, k: Key) returns (trace: seq<Label>)
    requires StartsQuiet(cat, w0) && ValidSpecs(cat, w0.owners) && id in w0.owners
    requires k in cat.plan(id) && k !in w0.store
    ensures Completes(cat, w0, trace) && Holds(Exec(cat, w0, trace).store, k, w0.owners[id])
  {
    var first := FinishesFirst(cat, w0, id);
    QuietReached(cat, w0, first);
    HeldByCreator(cat, w0, Exec(cat, w0, first), id, k);
    var rest := AllFinish(cat, w0, Exec(cat, w0, first));
    ExecAppend(cat, w0, first, rest);
    trace := first + rest;
  }

  lemma HeldByOne(cat: Catalog, w0: World, store: map<Key, Object>, a: OwnerId, b: OwnerId, k: Key)
    requires Sound(cat, w0) && a in w0.owners && b in w0.owners
    requires Holds(store, k, w0.owners[a]) && Holds(store, k, w0.owners[b])
    ensures a == b
  {
    assert Genuine(w0.history, w0.uids, a, w0.owners[a]) && Genuine(w0.history, w0.uids, b, w0.owners[b]);
  }

  ghost predicate AllAgree(cat: Catalog, w0: World) {
    forall s, t :: Completes(cat, w0, s) && Completes(cat, w0, t) ==> Exec(cat, w0, s).store == Exec(cat, w0, t).store
  }

  /** Where two owners with valid specs want a key that is not there, two complete runs that leave
      all specs alone end in different stores. */
  lemma ContestsDiverge(cat: Catalog, w0: World, a: OwnerId, b: OwnerId, k: Key)
    returns (s: seq<Label>, t: seq<Label>)
    requires StartsQuiet(cat, w0) && ValidSpecs(cat, w0.owners) && Contested(cat, w0.owners, w0.store, a, b, k)
    ensures Completes(cat, w0, s) && Completes(cat, w0, t)
    ensures Exec(cat, w0, s).store != Exec(cat, w0, t).store
  {
    s := FirstComer(cat, w0, a, k);
    t := FirstComer(cat, w0, b, k);
    if Exec(cat, w0, s).store == Exec(cat, w0, t).store {
      QuietStart(cat, w0);
      HeldByOne(cat, w0, Exec(cat, w0, s).store, a, b, k);
    }
  }

  /** Confluence, exactly: with valid specs, all complete runs that leave the specs alone end in one
      store if and only if no two owners want a key that is not there at the start. */
  lemma ConfluenceIsExact(cat: Catalog, w0: World)
    requires StartsQuiet(cat, w0) && ValidSpecs(cat, w0.owners)
    ensures AllAgree(cat, w0) <==> Uncontested(cat, w0.owners, w0.store)
  {
    if Uncontested(cat, w0.owners, w0.store) {
      forall s, t | Completes(cat, w0, s) && Completes(cat, w0, t)
        ensures Exec(cat, w0, s).store == Exec(cat, w0, t).store
      {
        Confluent(cat, w0, s, t);
      }
    } else {
      var a, b, k :| Contested(cat, w0.owners, w0.store, a, b, k);
      var s, t := ContestsDiverge(cat, w0, a, b, k);
    }
  }

  // ----- With edits -----

  // Every name that ever was has had an error-free pass.
  ghost predicate EveryNameDone(w: World) {
    forall id :: id in w.history ==> id in w.done
  }

  ghost predicate HoldsThePlans(cat: Catalog, w: World) {
    forall k :: k in w.store <==> exists id :: id in w.history && k in cat.plan(id)
  }

  /** Edits make what is stored depend on the interleaving, but not which keys are: in every
      deletion-free run from an empty store, once every name has had an error-free pass, exactly
      the keys of their plans are stored, clashing names included. */
  lemma EditsKeepTheKeys(cat: Catalog, w0: World, trace: seq<Label>, w: World)
    requires WellFormed(cat) && StartsBehind(w0) && w0.store == map[] && AllAdditive(trace) && w == Exec(cat, w0, trace)
    requires EveryNameDone(w)
    ensures HoldsThePlans(cat, w)
  {
    GrowingRun(cat, w0, trace);
    AllCreatedRun(cat, w0, trace);
    KeysOfPlans(cat, w);
  }

  lemma KeysOfPlans(cat: Catalog, w: World)
    requires Sound(cat, w) && Growing(cat, w) && AllCreated(w) && EveryNameDone(w)
    ensures HoldsThePlans(cat, w)
  {
    forall k
      ensures k in w.store <==> exists id :: id in w.history && k in cat.plan(id)
    {
      if k in w.store {
        assert k in w.store.Keys;
        assert Rendered(cat, w.history, w.uids, w.store, w.origins[k], k);
      }
      if id :| id in w.history && k in cat.plan(id) {
        assert Reached(cat.plan(id), w.store, |cat.plan(id)|);
      }
    }
  }
}
