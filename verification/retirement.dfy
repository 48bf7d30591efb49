/**
 How far a deleted owner's UID can still reach: to passes and objects as long as anything, the
 cache's news included, still carries it, and no further.
 */
module Retirement {
  import opened Text
  import opened Feed
  import opened Specs
  import opened Naming
  import opened Objects
  import opened Protocol
  import opened Lifecycle
  import opened Progress

  // ----- An owner the cache learns of too late -----

  // A user creates an owner and deletes it again, and only then the cache learns of its creation.
  function Late(w: World, id: OwnerId, spec: Spec): World {
    SyncOwnerStep(RemoveStep(Edit(w, id, Edited(w, id, spec)), id), id, |Pending(w.ownerNews, id)|)
  }

  lemma LateIs(w: World, id: OwnerId, spec: Spec)
    requires id !in w.owners
    ensures var w' := Late(w, id, spec);
      && id !in w'.owners && id in w'.ownerCache && w'.ownerCache[id] == Edited(w, id, spec)
      && w'.store == w.store && w'.cache == w.cache && w'.passes == w.passes
  {
    var edited := Edit(w, id, Edited(w, id, spec));
    assert Pending(RemoveStep(edited, id).ownerNews, id)
        == Pending(w.ownerNews, id) + [Some(Edited(w, id, spec))] + [None];
  }

  function LateTrace(w: World, id: OwnerId, spec: Spec): seq<Label> {
    [Apply(id, spec)] + [Remove(id)] + [SyncOwner(id, |Pending(w.ownerNews, id)|)] + [Begin(id)]
  }

  lemma LateRun(cat: Catalog, w: World, id: OwnerId, spec: Spec)
    requires Fits(id.kind, spec)
    ensures Exec(cat, w, LateTrace(w, id, spec)) == BeginStep(Late(w, id, spec), id)
  {
    var a, b, c := [Apply(id, spec)], [Remove(id)], [SyncOwner(id, |Pending(w.ownerNews, id)|)];
    OneStep(cat, w, Apply(id, spec));
    ExecOneMore(cat, w, a, Remove(id));
    ExecOneMore(cat, w, a + b, SyncOwner(id, |Pending(w.ownerNews, id)|));
    ExecOneMore(cat, w, a + b + c, Begin(id));
  }

  lemma CreateStores(cat: Catalog, w: World, id: OwnerId, o: Owner)
    requires WellFormed(cat) && o.id == id && cat.build(o, 0).Built? && cat.plan(id)[0] !in w.store
    ensures var w' := CreateStep(cat, With(w, id, Pass(o, 0, cat.looks(id.kind))), id);
      && cat.plan(id)[0] in w'.store && OwnedBy(w'.store[cat.plan(id)[0]], o.uid) && w'.owners == w.owners
  {
    var v := With(w, id, Pass(o, 0, cat.looks(id.kind)));
    BuiltAtPlan(cat, o, 0);
    CreateOnlyAdds(cat, v, id);
    assert Creates(cat, v, id);
  }

  // A fresh pass over o that misses its first key and creates the object.
  lemma BegunCreates(cat: Catalog, w: World, id: OwnerId, o: Owner)
    requires WellFormed(cat) && o.id == id && cat.build(o, 0).Built?
    requires id in w.passes && w.passes[id] == Pass(o, 0, 0)
    requires cat.plan(id)[0] !in w.store && cat.plan(id)[0] !in w.cache
    ensures var w' := Exec(cat, w, Looks(id, cat.looks(id.kind)) + [Create(id)]);
      && cat.plan(id)[0] in w'.store && OwnedBy(w'.store[cat.plan(id)[0]], o.uid) && w'.owners == w.owners
  {
    LooksMiss(cat, w, id, o, 0, cat.looks(id.kind));
    ExecOneMore(cat, w, Looks(id, cat.looks(id.kind)), Create(id));
    CreateStores(cat, w, id, o);
  }

  /** Without a look at the news, deletion retires nothing. In any world without the owner or a pass
      of it, whose first key is neither stored nor cached, a user can create the owner and delete
      it again before the cache learns of it; the cache then learns of the creation, a pass
      begins, and it creates an object that carries the dead UID. */
  lemma LateOwnerCreates(cat: Catalog, w: World, id: OwnerId, spec: Spec) returns (trace: seq<Label>)
    requires WellFormed(cat) && Fits(id.kind, spec) && id !in w.owners && id !in w.passes
    requires cat.plan(id)[0] !in w.store && cat.plan(id)[0] !in w.cache
    requires cat.build(Edited(w, id, spec), 0).Built?
    ensures trace == LateTrace(w, id, spec) + (Looks(id, cat.looks(id.kind)) + [Create(id)])
    ensures var w' := Exec(cat, w, trace);
      && id !in w'.owners && cat.plan(id)[0] in w'.store && OwnedBy(w'.store[cat.plan(id)[0]], |w.uids|)
  {
    var rest := Looks(id, cat.looks(id.kind)) + [Create(id)];
    trace := LateTrace(w, id, spec) + rest;
    LateRun(cat, w, id, spec);
    LateIs(w, id, spec);
    ExecAppend(cat, w, LateTrace(w, id, spec), rest);
    BegunCreates(cat, BeginStep(Late(w, id, spec), id), id, Edited(w, id, spec));
  }

  // ----- Exactly when a UID is retired -----

  ghost predicate HasPass(w: World, uid: nat) {
    exists id :: id in w.passes && w.passes[id].owner.uid == uid
  }

  // Some run leads to a pass over a copy with this UID.
  ghost predicate CanPass(cat: Catalog, w: World, uid: nat) {
    exists trace :: HasPass(Exec(cat, w, trace), uid)
  }

  // The cache shows a copy with the UID: a pass over it can begin.
  lemma CachedCanPass(cat: Catalog, w: World, id: OwnerId) returns (trace: seq<Label>)
    requires id in w.ownerCache
    ensures HasPass(Exec(cat, w, trace), w.ownerCache[id].uid)
  {
    trace := [Fault(id)] + [Begin(id)];
    OneStep(cat, w, Fault(id));
    ExecOneMore(cat, w, [Fault(id)], Begin(id));
    assert id in BeginStep(Drop(w, id), id).passes;
  }

  // The cache has yet to learn of such a copy.
  lemma HeardCanPass(cat: Catalog, w: World, id: OwnerId, o: Owner) returns (trace: seq<Label>)
    requires Heard(w.ownerNews, id, o)
    ensures HasPass(Exec(cat, w, trace), o.uid)
  {
    var n :| 0 <= n < |w.ownerNews[id]| && w.ownerNews[id][n] == Some(o);
    var rest := CachedCanPass(cat, SyncOwnerStep(w, id, n), id);
    OneStep(cat, w, SyncOwner(id, n));
    ExecAppend(cat, w, [SyncOwner(id, n)], rest);
    trace := [SyncOwner(id, n)] + rest;
  }

  // The owner is there; the cache shows it or has yet to learn of it.
  lemma PresentCanPass(cat: Catalog, w: World, id: OwnerId) returns (trace: seq<Label>)
    requires CaughtUp(w) && id in w.owners
    ensures HasPass(Exec(cat, w, trace), w.owners[id].uid)
  {
    assert Newest(w.ownerCache, w.ownerNews, id) == Lookup(w.owners, id);
    if Pending(w.ownerNews, id) == [] {
      trace := CachedCanPass(cat, w, id);
    } else {
      var p := Pending(w.ownerNews, id);
      assert p[|p| - 1] in p;
      trace := HeardCanPass(cat, w, id, w.owners[id]);
    }
  }

  lemma NotRetiredCanPass(cat: Catalog, w: World, uid: nat) returns (trace: seq<Label>)
    requires CaughtUp(w) && uid < |w.uids| && !Retired(w, uid)
    ensures HasPass(Exec(cat, w, trace), uid)
  {
    if !NoCopy(w.owners, uid) {
      var id :| id in w.owners && w.owners[id].uid == uid;
      trace := PresentCanPass(cat, w, id);
    } else if !NoCopy(w.ownerCache, uid) {
      var id :| id in w.ownerCache && w.ownerCache[id].uid == uid;
      trace := CachedCanPass(cat, w, id);
    } else if !NoNews(w.ownerNews, uid) {
      var id, o :| Heard(w.ownerNews, id, o) && o.uid == uid;
      trace := HeardCanPass(cat, w, id, o);
    } else {
      trace := [];
    }
  }

  /** A UID is retired if and only if no run whatsoever leads to another pass over a copy of its
      owner: nothing less than the owner, the cached copy, the news and the passes would do. */
  lemma RetiredExactly(cat: Catalog, w: World, uid: nat)
    requires WellFormed(cat) && Sound(cat, w) && CaughtUp(w) && uid < |w.uids|
    ensures Retired(w, uid) <==> !CanPass(cat, w, uid)
  {
    if Retired(w, uid) {
      forall trace
        ensures !HasPass(Exec(cat, w, trace), uid)
      {
        RetiredRun(cat, w, trace, uid);
      }
    } else {
      var trace := NotRetiredCanPass(cat, w, uid);
    }
  }
}
