/**
 What particular owners end up with: the protocol of a stored group, the objects of a benchmark
 whose controller and worker share keys, and owners whose builders fail.
 */
module Outcomes {
  import opened Text
  import opened Specs
  import opened Naming
  import opened Objects
  import opened Config
  import opened Builders
  import opened Protocol
  import opened Growth
  import opened Lifecycle
  import opened Operator

  // ----- The protocol of a stored group -----

  lemma ConfigStep(id: OwnerId, step: nat)
    requires !id.kind.BenchmarkKind? && step < |Plan(id)| && Plan(id)[step].name == ConfigName(id)
    requires Plan(id)[step].kind.ConfigMapKind?
    ensures step == CONFIG_STEP
  {
  }

  /** In every run from any start: when the config and the StatefulSet of a group are both stored
      and come from the same spec, the stored text names the protocol of that spec, and says
      primary-backup exactly when the stored StatefulSet claims no volume, which is exactly when
      its container mounts no data, whatever the spec's free text contains. Reading the text
      gives back the effective settings whenever it can. */
  lemma StoredProtocolAgrees(parses: QuantityParser, w0: World, trace: seq<Label>, w: World, c: Key, s: Key)
    requires Ran(parses, w0, trace, w) && c in w.origins && s in w.origins
    requires var id := w.origins[c].owner.id;
      && id.kind.GroupKind? && w.origins[s].owner.id == id && w.origins[s].owner.spec == w.origins[c].owner.spec
      && c.kind.ConfigMapKind? && c.name == ConfigName(id) && s.kind.StatefulSetKind?
    requires w.origins[c].owner.spec.ForGroup? && NoSpace(w.origins[c].owner.id.name)
    ensures c in w.store && s in w.store
    ensures Agree(w.origins[c].owner, w.store[c].body, w.store[s].body)
  {
    OriginIsBuilt(parses, w0, trace, w, c);
    OriginIsBuilt(parses, w0, trace, w, s);
    var oc, os := w.origins[c].owner, w.origins[s].owner;
    ConfigStep(oc.id, w.origins[c].step);
    StepOfKind(os.id, w.origins[s].step);
    SettingsAgree(parses, oc, os);
  }

  // What a config and a StatefulSet of one group spec have to do with each other.
  ghost predicate Agree(o: Owner, config: Body, stateful: Body)
    requires o.spec.ForGroup?
  {
    var g, settings := o.spec.group, EffectiveSettings(o.id.name, DefaultGroup(o.spec.group));
    && config.ConfigMap? && config.payload.Conf? && stateful.StatefulSet? && settings.Some?
    && ReadProtocol(config.payload.text) == GroupProtocol(g)
    && (GroupProtocol(g) == Some(PrimaryBackupProtocol) <==> stateful.claims == [])
    && (stateful.claims == [] <==> DATA_VOLUME !in stateful.pod.mounts)
    && (ReadConfig(config.payload.text) == settings <==> ReadsBack(settings.value))
  }

  lemma SettingsAgree(parses: QuantityParser, oc: Owner, os: Owner)
    requires oc.id.kind.GroupKind? && oc.spec.ForGroup? && os.id == oc.id && os.spec == oc.spec && NoSpace(oc.id.name)
    requires Build(parses, oc, CONFIG_STEP).Built? && Build(parses, os, SET_STEP).Built?
    ensures Agree(oc, Build(parses, oc, CONFIG_STEP).result.body, Build(parses, os, SET_STEP).result.body)
  {
    ProtocolAgreement(parses, oc, oc.spec.group);
    SameSetForSameSpec(parses, oc, os);
  }

  lemma SameSetForSameSpec(parses: QuantityParser, a: Owner, b: Owner)
    requires a.id.kind.GroupKind? && a.id == b.id && a.spec == b.spec && a.spec.ForGroup?
    ensures Build(parses, a, SET_STEP).Built? <==> Build(parses, b, SET_STEP).Built?
    ensures Build(parses, a, SET_STEP).Built? ==>
      Build(parses, a, SET_STEP).result.body == Build(parses, b, SET_STEP).result.body
  {
  }

  // ----- Benchmarks -----

  predicate ControllerStep(step: nat) {
    step <= CONTROLLER_SERVICE
  }

  // The repeated steps never come first.
  lemma FirstStepsOnly(id: OwnerId, store: map<Key, Object>, a: Origin, k: Key)
    requires id.kind.BenchmarkKind? && a.owner.id == id && a.step < |Plan(id)| && Plan(id)[a.step] == k
    requires EarlierStored(store, a, k)
    ensures ControllerStep(a.step) || a.step == WORKER_SET
  {
    if a.step == WORKER_INIT || a.step == WORKER_CONFIG || a.step == WORKER_SERVICE {
      PlanRepeats(id, a.step - 4, a.step);
      assert Plan(id)[a.step - 4] != k;
    }
  }

  lemma ControllerObject(parses: QuantityParser, o: Owner, step: nat)
    requires o.id.kind.BenchmarkKind? && o.spec.ForBenchmark? && step < |Plan(o.id)|
    ensures var r := Build(parses, o, step);
      && r.Built? && TYPE_KEY in r.result.labels
      && (r.result.labels[TYPE_KEY] == COORDINATOR_TYPE <==> ControllerStep(step))
      && (step == CONTROLLER_INIT ==> r.result.body.payload.CoordinatorScript?)
  {
  }

  /** The outcome of the shared keys, in every deletion-free run from an empty store, stale reads
      included: whatever a benchmark's passes have stored was built by a controller step, or is
      the worker StatefulSet. So the init script, the config and the Service that exist are
      always the controller's, although the worker's StatefulSet mounts and names them; the
      worker's own versions are never stored. */
  lemma WorkerVersionsNeverStored(parses: QuantityParser, w0: World, trace: seq<Label>, w: World, k: Key)
    requires Grown(parses, w0, trace, w) && k in w.store
    requires k in w.origins && w.origins[k].owner.id.kind.BenchmarkKind?
    ensures ControllerStep(w.origins[k].step) || w.origins[k].step == WORKER_SET
    ensures TYPE_KEY in w.store[k].labels
    ensures w.store[k].labels[TYPE_KEY] == COORDINATOR_TYPE <==> !k.kind.StatefulSetKind?
    ensures k.kind.ConfigMapKind? && k.name == InitName(w.origins[k].owner.id) ==>
              w.store[k].body.ConfigMap? && w.store[k].body.payload.CoordinatorScript?
  {
    GrownIs(parses, w0, trace, w);
    BenchmarkObject(parses, w, k);
  }

  lemma BenchmarkObject(parses: QuantityParser, w: World, k: Key)
    requires Explained(parses, w) && k in w.store
    requires k in w.origins && w.origins[k].owner.id.kind.BenchmarkKind?
    ensures ControllerStep(w.origins[k].step) || w.origins[k].step == WORKER_SET
    ensures TYPE_KEY in w.store[k].labels
    ensures w.store[k].labels[TYPE_KEY] == COORDINATOR_TYPE <==> !k.kind.StatefulSetKind?
    ensures k.kind.ConfigMapKind? && k.name == InitName(w.origins[k].owner.id) ==>
              w.store[k].body.ConfigMap? && w.store[k].body.payload.CoordinatorScript?
  {
    StoredIsBuilt(parses, w, k);
    var o, step := w.origins[k].owner, w.origins[k].step;
    assert ExplainedAt(parses, w.history, w.store, w.origins[k], k);
    FirstStepsOnly(o.id, w.store, w.origins[k], k);
    BenchmarkSteps(o.id, step);
    ControllerObject(parses, o, step);
  }

  lemma BenchmarkSteps(id: OwnerId, step: nat)
    requires id.kind.BenchmarkKind? && step < |Plan(id)|
    ensures Plan(id)[step].kind.StatefulSetKind? <==> step == WORKER_SET
    ensures Plan(id)[step].kind.ConfigMapKind? && Plan(id)[step].name == InitName(id) <==>
              step == CONTROLLER_INIT || step == WORKER_INIT
  {
  }

  /** And once a benchmark that clashes with nobody has had an error-free pass, its passes have
      created exactly five objects: the controller's four and the worker's StatefulSet. */
  lemma FiveObjectsInTheEnd(parses: QuantityParser, w0: World, trace: seq<Label>, w: World, id: OwnerId)
    requires Grown(parses, w0, trace, w) && NoClashes(w.history.Keys) && id in w.history && id in w.done
    ensures (set k | k in w.origins && w.origins[k].owner.id == id) == (set k | k in Plan(id))
    ensures |set k | k in w.origins && w.origins[k].owner.id == id| == 5
  {
    AtomixIsWellFormed(parses);
    GrowingRun(Atomix(parses), w0, trace);
    GrownIs(parses, w0, trace, w);
    DoneIsReached(parses, w, id);
    ItsObjects(parses, w, id);
    FiveKeys(id);
  }

  lemma DoneIsReached(parses: QuantityParser, w: World, id: OwnerId)
    requires Growing(Atomix(parses), w) && id in w.done
    ensures Reached(Plan(id), w.store, |Plan(id)|)
  {
  }

  lemma ItsObjects(parses: QuantityParser, w: World, id: OwnerId)
    requires Explained(parses, w) && NoClashes(w.history.Keys) && id in w.history
    requires Reached(Plan(id), w.store, |Plan(id)|)
    ensures (set k | k in w.origins && w.origins[k].owner.id == id) == (set k | k in Plan(id))
  {
    forall k
      ensures k in w.origins && w.origins[k].owner.id == id <==> k in Plan(id)
    {
      ItsObject(parses, w, id, k);
    }
  }

  lemma ItsObject(parses: QuantityParser, w: World, id: OwnerId, k: Key)
    requires Explained(parses, w) && NoClashes(w.history.Keys) && id in w.history
    requires Reached(Plan(id), w.store, |Plan(id)|)
    ensures k in w.origins && w.origins[k].owner.id == id <==> k in Plan(id)
  {
    if k in w.origins {
      StoredIsBuilt(parses, w, k);
    }
    if Wants(id, k) {
      OwnKey(parses, w, id, k);
    }
  }

  // ----- Owners whose builders fail -----

  // Every spec that the name has had fails at this step.
  ghost predicate AlwaysFails(parses: QuantityParser, specs: seq<Spec>, step: nat) {
    forall i :: 0 <= i < |specs| ==>
      var s := Default(specs[i]);
      || (s.ForGroup? && GroupProtocol(s.group).None? && (step == CONFIG_STEP || step == SET_STEP))
      || (step == SET_STEP && ClaimedSize(s).Some? && !parses(ClaimedSize(s).value))
  }

  lemma FailingIsHopeless(parses: QuantityParser, h: Histories, id: OwnerId, step: nat)
    requires !id.kind.BenchmarkKind? && id in h && AlwaysFails(parses, h[id], step) && NoClashes(h.Keys)
    requires step == CONFIG_STEP || step == SET_STEP
    ensures Hopeless(Atomix(parses), h, id, step)
  {
    forall i | 0 <= i < step
      ensures Plan(id)[i] != Plan(id)[step]
    {
      PlanRepeats(id, i, step);
    }
    forall o: Owner | o.id == id && o.spec in h[id] && Fits(o.id.kind, o.spec)
      ensures Build(parses, o, step).Failed?
    {
      BuildFailures(parses, o, step);
    }
    forall other | other in h && other != id
      ensures Plan(id)[step] !in Plan(other)
    {
      if Plan(id)[step] in Plan(other) {
        assert Wants(id, Plan(id)[step]) && Wants(other, Plan(id)[step]);
        SameOwner(h.Keys, id, other, Plan(id)[step]);
      }
    }
  }

  lemma Contained(parses: QuantityParser, w0: World, trace: seq<Label>, w: World, id: OwnerId, step: nat, k: Key)
    requires StartsEmpty(w0) && w == Exec(Atomix(parses), w0, trace)
    requires !id.kind.BenchmarkKind? && id in w.history && NoClashes(w.history.Keys)
    requires step == CONFIG_STEP || step == SET_STEP
    requires AlwaysFails(parses, w.history[id], step) && k in w.store && Wants(id, k)
    ensures exists i: nat :: i < step && Plan(id)[i] == k
  {
    AtomixIsWellFormed(parses);
    FailingIsHopeless(parses, w.history, id, step);
    FailureIsContained(Atomix(parses), w0, trace, w, id, step);
    SoundRun(Atomix(parses), w0, trace);
    ItsStep(parses, w, id, k);
  }

  lemma ItsStep(parses: QuantityParser, w: World, id: OwnerId, k: Key)
    requires Sound(Atomix(parses), w) && NoClashes(w.history.Keys) && id in w.history
    requires k in w.origins && Wants(id, k)
    ensures w.origins[k].owner.id == id && w.origins[k].step < |Plan(id)| && Plan(id)[w.origins[k].step] == k
  {
    var a := w.origins[k];
    assert Rendered(Atomix(parses), w.history, w.uids, w.store, a, k);
    assert Wants(a.owner.id, k);
    SameOwner(w.history.Keys, id, a.owner.id, k);
  }

  /** A group that never had a protocol set only ever gets its init ConfigMap: of the keys its
      pass wants, no other is stored in any run from an empty store, whatever is edited,
      deleted, collected or retried. */
  lemma NoProtocolOnlyInit(parses: QuantityParser, w0: World, trace: seq<Label>, w: World, id: OwnerId, k: Key)
    requires StartsEmpty(w0) && w == Exec(Atomix(parses), w0, trace)
    requires id.kind.GroupKind? && id in w.history && NoClashes(w.history.Keys)
    requires forall i :: 0 <= i < |w.history[id]| ==>
      w.history[id][i].ForGroup? && GroupProtocol(w.history[id][i].group).None?
    requires k in w.store && Wants(id, k)
    ensures k == Key(ConfigMapKind, id.namespace, InitName(id))
  {
    forall i | 0 <= i < |w.history[id]|
      ensures var s := Default(w.history[id][i]); s.ForGroup? && GroupProtocol(s.group).None?
    {
      DefaultingFillsOnlyGaps(w.history[id][i]);
    }
    Contained(parses, w0, trace, w, id, CONFIG_STEP, k);
  }

  /** A cluster, or a raft or log group, whose claim size never parsed never gets a StatefulSet
      or a Service, however often it is retried. */
  lemma BadSizeNoSet(parses: QuantityParser, w0: World, trace: seq<Label>, w: World, id: OwnerId, k: Key)
    requires StartsEmpty(w0) && w == Exec(Atomix(parses), w0, trace)
    requires !id.kind.BenchmarkKind? && id in w.history && NoClashes(w.history.Keys)
    requires forall i :: 0 <= i < |w.history[id]| ==>
      var size := ClaimedSize(Default(w.history[id][i])); size.Some? && !parses(size.value)
    requires k in w.store && Wants(id, k)
    ensures !k.kind.StatefulSetKind? && !k.kind.ServiceKind?
  {
    Contained(parses, w0, trace, w, id, SET_STEP, k);
    var i: nat :| i < SET_STEP && Plan(id)[i] == k;
    StepOfKind(id, i);
  }
}
