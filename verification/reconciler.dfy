/**
 The reconcilers as Go writes them: a client whose reads come from the cache and whose writes go
 to the API server, and for each kind of owner an ordered sequence of get-or-create steps that
 returns at the first error.
 */
module Reconcilers {
  import opened Text
  import opened Naming
  import opened Objects
  import opened Builders
  import opened Protocol
  import opened Operator
  import opened Views
  import opened Calls

  // ----- The client -----

  class Client {
    const parses: QuantityParser
    var world: World // the API server and the caches, with everybody else's passes
    var turns: seq<Turn> // what is to come; calls beyond its end go through undisturbed

    constructor (parses: QuantityParser, world: World, turns: seq<Turn>)
      ensures this.parses == parses && this.world == world && this.turns == turns
    {
      this.parses, this.world, this.turns := parses, world, turns;
    }

    // The client is in the middle of this call.
    ghost predicate In(sc: Scene)
      reads this
    {
      parses == sc.parses && sc.Foreign() && forall t: Turn :: t in turns ==> t in sc.turns
    }

    // Whatever comes between two calls of the owner's pass.
    method Await(ghost sc: Scene) returns (answer: Answer)
      requires In(sc)
      modifies this
      ensures In(sc) && Overtaken(sc, old(world), world)
      ensures turns == if old(turns) == [] then [] else old(turns)[1..]
      ensures answer == if old(turns) == [] then Arrives else old(turns)[0].answer
      ensures !answer.Arrives? ==> sc.SomeFail()
      ensures answer.Lost? ==> sc.SomeLost()
    {
      ghost var before := world;
      OvertakenSelf(sc, world);
      if turns == [] {
        return Arrives;
      }
      var turn := turns[0];
      turns := turns[1..];
      var i := 0;
      while i < |turn.others|
        invariant 0 <= i <= |turn.others| && turns == old(turns)[1..]
        invariant Overtaken(sc, before, world)
      {
        OvertakenStep(sc, before, world, turn, turn.others[i]);
        world := Step(Atomix(parses), world, turn.others[i]);
        i := i + 1;
      }
      return turn.answer;
    }

    // Reads come from the cache.
    method Get(key: Key, ghost sc: Scene) returns (err: Option<ApiError>)
      requires In(sc)
      modifies this
      ensures In(sc) && Overtaken(sc, old(world), world)
      ensures err == Some(Unavailable) ==> sc.SomeFail()
      ensures err == None ==> key in world.cache
      ensures err == Some(NotFound) ==> key !in world.cache
      ensures err.None? || err == Some(NotFound) || err == Some(Unavailable)
    {
      var answer := Await(sc);
      if !answer.Arrives? {
        return Some(Unavailable);
      }
      return if key in world.cache then None else Some(NotFound);
    }

    method GetOwner(id: OwnerId, ghost sc: Scene) returns (owner: Option<Owner>, err: Option<ApiError>)
      requires In(sc)
      modifies this
      ensures In(sc) && Overtaken(sc, old(world), world)
      ensures err == Some(Unavailable) ==> sc.SomeFail()
      ensures err == None <==> owner.Some?
      ensures err == None ==> id in world.ownerCache && owner == Some(world.ownerCache[id])
      ensures err == Some(NotFound) ==> id !in world.ownerCache
      ensures err.None? || err == Some(NotFound) || err == Some(Unavailable)
    {
      var answer := Await(sc);
      if !answer.Arrives? {
        return None, Some(Unavailable);
      }
      if id !in world.ownerCache {
        return None, Some(NotFound);
      }
      return Some(world.ownerCache[id]), None;
    }

    // Writes go to the API server, which refuses a key that is taken; the answer may be lost on
    // the way back. `pass` is what the world records about where the object came from.
    method CreateObject(made: Object, pass: Pass, ghost sc: Scene)
      returns (err: Option<ApiError>, ghost before: World, ghost stored: bool)
      requires In(sc)
      modifies this
      ensures In(sc) && Overtaken(sc, old(world), before)
      ensures stored ==> KeyOf(made) !in before.store && world == Insert(before, pass, made)
      ensures !stored ==> world == before
      ensures err == None ==> stored
      ensures err == Some(AlreadyExists) ==> !stored && KeyOf(made) in world.store
      ensures err == Some(Unavailable) ==> sc.SomeFail() && (stored ==> sc.SomeLost())
      ensures err.None? || err == Some(AlreadyExists) || err == Some(Unavailable)
    {
      var answer := Await(sc);
      before, stored := world, false;
      if answer.Fails? {
        return Some(Unavailable), before, stored;
      }
      if KeyOf(made) in world.store {
        return if answer.Lost? then Some(Unavailable) else Some(AlreadyExists), before, stored;
      }
      world, stored := Insert(world, pass, made), true;
      return if answer.Lost? then Some(Unavailable) else None, before, stored;
    }
  }

  // ----- The passes -----

  class Reconciler {
    const client: Client

    constructor (client: Client)
      ensures this.client == client
    {
      this.client := client;
    }

    // One Get of the pass, after `misses` earlier ones at the same step.
    method LookUp(read: Owner, step: nat, ghost misses: nat, ghost sc: Scene, ghost start: World)
      returns (err: Option<ApiError>)
      requires client.In(sc) && read.id == sc.id
      requires step < |Plan(sc.id)| && misses < LooksBeforeCreate(sc.id.kind)
      requires At(sc, start, client.world, Running(Pass(read, step, misses)))
      modifies client
      ensures client.In(sc)
      ensures err == None || err == Some(NotFound) || err == Some(Unavailable)
      ensures err == None ==> At(sc, start, client.world, After(sc.id, read, step))
      ensures err == Some(NotFound) ==>
        At(sc, start, client.world, Running(Pass(read, step, misses + 1)))
      ensures err == Some(Unavailable) ==> At(sc, start, client.world, Idle) && sc.SomeFail()
    {
      ghost var before := client.world;
      err := client.Get(Plan(read.id)[step], sc);
      OvertakenOn(sc, start, Running(Pass(read, step, misses)), before, client.world);
      if err == Some(Unavailable) {
        GaveUp(sc, start, client.world, Pass(read, step, misses));
      } else if err == Some(NotFound) {
        Missed(sc, start, client.world, Pass(read, step, misses));
      } else {
        Found(sc, start, client.world, Pass(read, step, misses));
      }
    }

    // add*: build the object, set the controller reference, create it.
    method Add(owner: Owner, read: Owner, step: nat, ghost sc: Scene, ghost start: World)
      returns (err: Option<ApiError>)
      requires client.In(sc) && read.id == sc.id && owner == Defaulted(read)
      requires step < |Plan(sc.id)|
      requires At(sc, start, client.world, Running(Pass(read, step, LooksBeforeCreate(sc.id.kind))))
      modifies client
      ensures client.In(sc) && Accounted(sc, start, client.world, err)
      ensures At(sc, start, client.world, if err.None? then After(sc.id, read, step) else Idle)
    {
      var pass := Pass(read, step, LooksBeforeCreate(read.id.kind));
      var built := Render(client.parses, owner, step);
      if built.Failed? {
        Refused(sc, start, client.world, pass);
        return Some(BuilderFailed);
      }
      BuiltAtItsKey(sc.parses, read, step);
      ghost var w := client.world;
      ghost var before, stored;
      err, before, stored := client.CreateObject(built.result, pass, sc);
      OvertakenOn(sc, start, Running(pass), w, before);
      if err.None? {
        Created(sc, start, before, pass, built.result);
      } else if err == Some(AlreadyExists) {
        Refused(sc, start, before, pass);
      } else if stored {
        AnswerLost(sc, start, before, pass, built.result);
      } else {
        GaveUp(sc, start, before, pass);
      }
    }

    // reconcile* of the cluster and group controllers: look the key up, add what is missing.
    method ReconcileResource(owner: Owner, read: Owner, step: nat, ghost sc: Scene, ghost start: World)
      returns (err: Option<ApiError>)
      requires client.In(sc) && read.id == sc.id && owner == Defaulted(read)
      requires !sc.id.kind.BenchmarkKind? && step < |Plan(sc.id)|
      requires At(sc, start, client.world, Running(Pass(read, step, 0)))
      modifies client
      ensures client.In(sc) && Accounted(sc, start, client.world, err)
      ensures At(sc, start, client.world, if err.None? then After(sc.id, read, step) else Idle)
    {
      assert LooksBeforeCreate(sc.id.kind) == 1;
      err := LookUp(read, step, 0, sc, start);
      if err == Some(NotFound) {
        assert At(sc, start, client.world, Running(Pass(read, step, 1)));
        err := Add(owner, read, step, sc, start);
      } else {
        assert Accounted(sc, start, client.world, err);
      }
    }

    // reconcile* of the benchmark controller: its add* looks the key up once more.
    method ReconcileBenchmarkResource(owner: Owner, read: Owner, step: nat, ghost sc: Scene, ghost start: World)
      returns (err: Option<ApiError>)
      requires client.In(sc) && read.id == sc.id && owner == Defaulted(read)
      requires sc.id.kind.BenchmarkKind? && step < |Plan(sc.id)|
      requires At(sc, start, client.world, Running(Pass(read, step, 0)))
      modifies client
      ensures client.In(sc) && Accounted(sc, start, client.world, err)
      ensures At(sc, start, client.world, if err.None? then After(sc.id, read, step) else Idle)
    {
      err := LookUp(read, step, 0, sc, start);
      if err == Some(NotFound) {
        err := LookUp(read, step, 1, sc, start);
        if err == Some(NotFound) {
          err := Add(owner, read, step, sc, start);
        }
      }
    }

    method ReconcileCluster(read: Owner, ghost sc: Scene, ghost start: World) returns (err: Option<ApiError>)
      requires client.In(sc) && read.id == sc.id && sc.id.kind.ClusterKind?
      requires At(sc, start, client.world, Running(Pass(read, 0, 0)))
      modifies client
      ensures Accounted(sc, start, client.world, err)
      ensures At(sc, start, client.world, if err.None? then Finished else Idle)
    {
      var cluster := Defaulted(read);
      err := ReconcileResource(cluster, read, INIT_STEP, sc, start);
      if err.Some? {
        return err;
      }
      err := ReconcileResource(cluster, read, CONFIG_STEP, sc, start);
      if err.Some? {
        return err;
      }
      err := ReconcileResource(cluster, read, BUDGET_STEP, sc, start);
      if err.Some? {
        return err;
      }
      err := ReconcileResource(cluster, read, SET_STEP, sc, start);
      if err.Some? {
        return err;
      }
      err := ReconcileResource(cluster, read, SERVICE_STEP, sc, start);
    }

    method ReconcileGroup(read: Owner, ghost sc: Scene, ghost start: World) returns (err: Option<ApiError>)
      requires client.In(sc) && read.id == sc.id && sc.id.kind.GroupKind?
      requires At(sc, start, client.world, Running(Pass(read, 0, 0)))
      modifies client
      ensures Accounted(sc, start, client.world, err)
      ensures At(sc, start, client.world, if err.None? then Finished else Idle)
    {
      var group := Defaulted(read);
      err := ReconcileResource(group, read, INIT_STEP, sc, start);
      if err.Some? {
        return err;
      }
      err := ReconcileResource(group, read, CONFIG_STEP, sc, start);
      if err.Some? {
        return err;
      }
      err := ReconcileResource(group, read, BUDGET_STEP, sc, start);
      if err.Some? {
        return err;
      }
      err := ReconcileResource(group, read, SET_STEP, sc, start);
      if err.Some? {
        return err;
      }
      err := ReconcileResource(group, read, SERVICE_STEP, sc, start);
    }

    method ReconcileController(benchmark: Owner, read: Owner, ghost sc: Scene, ghost start: World)
      returns (err: Option<ApiError>)
      requires client.In(sc) && read.id == sc.id && sc.id.kind.BenchmarkKind? && benchmark == Defaulted(read)
      requires At(sc, start, client.world, Running(Pass(read, CONTROLLER_INIT, 0)))
      modifies client
      ensures client.In(sc) && Accounted(sc, start, client.world, err)
      ensures At(sc, start, client.world, if err.None? then Running(Pass(read, WORKER_INIT, 0)) else Idle)
    {
      err := ReconcileBenchmarkResource(benchmark, read, CONTROLLER_INIT, sc, start);
      if err.Some? {
        return err;
      }
      err := ReconcileBenchmarkResource(benchmark, read, CONTROLLER_CONFIG, sc, start);
      if err.Some? {
        return err;
      }
      err := ReconcileBenchmarkResource(benchmark, read, CONTROLLER_POD, sc, start);
      if err.Some? {
        return err;
      }
      err := ReconcileBenchmarkResource(benchmark, read, CONTROLLER_SERVICE, sc, start);
    }

    method ReconcileWorker(benchmark: Owner, read: Owner, ghost sc: Scene, ghost start: World)
      returns (err: Option<ApiError>)
      requires client.In(sc) && read.id == sc.id && sc.id.kind.BenchmarkKind? && benchmark == Defaulted(read)
      requires At(sc, start, client.world, Running(Pass(read, WORKER_INIT, 0)))
      modifies client
      ensures client.In(sc) && Accounted(sc, start, client.world, err)
      ensures At(sc, start, client.world, if err.None? then Finished else Idle)
    {
      err := ReconcileBenchmarkResource(benchmark, read, WORKER_INIT, sc, start);
      if err.Some? {
        return err;
      }
      err := ReconcileBenchmarkResource(benchmark, read, WORKER_CONFIG, sc, start);
      if err.Some? {
        return err;
      }
      err := ReconcileBenchmarkResource(benchmark, read, WORKER_SET, sc, start);
      if err.Some? {
        return err;
      }
      err := ReconcileBenchmarkResource(benchmark, read, WORKER_SERVICE, sc, start);
    }

    method ReconcileBenchmark(read: Owner, ghost sc: Scene, ghost start: World) returns (err: Option<ApiError>)
      requires client.In(sc) && read.id == sc.id && sc.id.kind.BenchmarkKind?
      requires At(sc, start, client.world, Running(Pass(read, 0, 0)))
      modifies client
      ensures Accounted(sc, start, client.world, err)
      ensures At(sc, start, client.world, if err.None? then Finished else Idle)
    {
      var benchmark := Defaulted(read);
      err := ReconcileController(benchmark, read, sc, start);
      if err.None? {
        err := ReconcileWorker(benchmark, read, sc, start);
      }
    }

    method ReconcileKind(read: Owner, ghost sc: Scene, ghost start: World) returns (err: Option<ApiError>)
      requires client.In(sc) && read.id == sc.id
      requires At(sc, start, client.world, Running(Pass(read, 0, 0)))
      modifies client
      ensures Accounted(sc, start, client.world, err)
      ensures At(sc, start, client.world, if err.None? then Finished else Idle)
    {
      match read.id.kind
      case ClusterKind => err := ReconcileCluster(read, sc, start);
      case GroupKind => err := ReconcileGroup(read, sc, start);
      case BenchmarkKind => err := ReconcileBenchmark(read, sc, start);
    }

    // The call, run as if the owner had no success on record.
    method Attempt(request: OwnerId, ghost sc: Scene) returns (err: Option<ApiError>)
      requires client.In(sc) && sc.id == request && Keyed(client.world)
      modifies client
      ensures CalledAfresh(sc, old(View(client.world, request, Idle)), client.world, err)
    {
      ghost var before := client.world;
      var found: Option<Owner>;
      found, err := client.GetOwner(request, sc);
      ghost var read := View(client.world, request, Idle);
      assert Reaches(sc, View(before, request, Idle), read);
      if found.Some? {
        KeyedRead(sc, View(before, request, Idle), read);
        BeginIs(sc.Cat(), client.world, request);
        ghost var start := BeginStep(read, request);
        ReachesSelf(sc, start);
        err := ReconcileKind(found.value, sc, start);
        AccountedEnds(sc, read, client.world, err);
      } else if err == Some(NotFound) {
        err := None;
      }
      client.world := View(client.world, request, if found.Some? && err.None? then Finished else Idle);
    }

    /** One call of Reconcile. Whatever the rest of the system does between its API calls, it is a
        run of the transition system: other owners' steps until the owner is read, the beginning
        of a single pass, and then the pass's own steps among other owners'. It ends without a
        pass of this owner in flight. It returns nil only when the cache does not show the owner
        or the pass went through every step; an error is the one that stopped the pass at its
        last step: a call failed, the key to be created was taken, or its builder failed. */
    method Reconcile(request: OwnerId) returns (err: Option<ApiError>)
      requires Scene(client.parses, request, client.turns).Foreign()
      requires Keyed(client.world) && request !in client.world.passes
      modifies client
      ensures Called(Scene(client.parses, request, old(client.turns)), old(client.world), client.world, err)
      ensures request !in client.world.passes
    {
      ghost var sc := Scene(client.parses, request, client.turns);
      assert View(client.world, request, Idle) == Forget(client.world, request);
      var succeeded := request in client.world.done;
      err := Attempt(request, sc);
      if succeeded {
        client.world := Remember(client.world, request);
      }
    }

    /** The worker loop: call after call, each for its own owner and with its own turns. `worlds`
        are the worlds between the calls: every call, however it ends, takes one to the next. */
    method Serve(jobs: seq<Job>) returns (errs: seq<Option<ApiError>>, ghost worlds: seq<World>)
      requires Exclusive(jobs) && Keyed(client.world)
      requires forall j :: j in jobs ==> j.request !in client.world.passes
      modifies client
      ensures Chain(client.parses, jobs, worlds, errs)
      ensures worlds[0] == old(client.world) && worlds[|jobs|] == client.world
    {
      errs, worlds := [], [client.world];
      while |errs| < |jobs|
        invariant |errs| <= |jobs| && Keyed(client.world)
        invariant Chain(client.parses, jobs[..|errs|], worlds, errs)
        invariant worlds[0] == old(client.world) && worlds[|errs|] == client.world
        invariant forall j :: j in jobs ==> j.request !in client.world.passes
      {
        ghost var before := client.world;
        var job := jobs[|errs|];
        client.turns := job.turns;
        var err := Reconcile(job.request);
        CallKeeps(client.parses, jobs, job, before, client.world, err);
        ChainOn(client.parses, jobs[..|errs|], worlds, errs, job, client.world, err);
        assert jobs[..|errs|] + [job] == jobs[..|errs| + 1];
        errs, worlds := errs + [err], worlds + [client.world];
      }
      assert jobs[..|errs|] == jobs;
    }
  }
}
