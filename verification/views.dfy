/**
 One call of Reconcile as a run: the owner's pass, which Go keeps in local variables, put into
 the world beside everybody else's passes, and what it means for a call to end as it does.
 */
module Views {
  import opened Text
  import opened Feed
  import opened Specs
  import opened Naming
  import opened Objects
  import opened Builders
  import opened Protocol
  import opened Progress
  import opened Operator

  // ----- Runs of one call -----

  // What becomes of a call: it goes through, it fails without effect, or it takes effect but its
  // answer is lost.
  datatype Answer = Arrives | Fails | Lost

  // What the rest of the system does before a call, and what becomes of the call.
  datatype Turn = Turn(others: seq<Label>, answer: Answer)

  // One call of Reconcile: the owner it is for, and all the turns that may come between its calls.
  datatype Scene = Scene(parses: QuantityParser, id: OwnerId, turns: seq<Turn>) {
    function Cat(): Catalog {
      Atomix(parses)
    }

    ghost predicate SomeFail() {
      exists t: Turn :: t in turns && !t.answer.Arrives?
    }

    ghost predicate SomeLost() {
      exists t: Turn :: t in turns && t.answer.Lost?
    }

    // The steps that can happen while the pass is under way: its own, which fail only if a call
    // does, and those the turns announce. Its beginning is not among them.
    ghost predicate May(l: Label) {
      || l == Look(id) || l == Create(id)
      || (l == Fault(id) && SomeFail()) || (l == Lose(id) && SomeLost())
      || exists t: Turn :: t in turns && l in t.others
    }

    // No owner has two passes at a time, so nobody else takes its steps.
    ghost predicate Foreign() {
      forall t: Turn, l: Label :: t in turns && l in t.others ==> !Own(id, l)
    }
  }

  ghost predicate IsRun(sc: Scene, ws: seq<World>, ls: seq<Label>) {
    && |ws| == |ls| + 1
    && forall i {:trigger ls[i]} :: 0 <= i < |ls| ==> sc.May(ls[i]) && ws[i + 1] == Step(sc.Cat(), ws[i], ls[i])
  }

  ghost predicate Reaches(sc: Scene, a: World, b: World) {
    exists ws: seq<World>, ls: seq<Label> :: IsRun(sc, ws, ls) && ws[0] == a && ws[|ls|] == b
  }

  lemma ReachesSelf(sc: Scene, w: World)
    ensures Reaches(sc, w, w)
  {
    assert IsRun(sc, [w], []);
  }

  lemma RunOn(sc: Scene, ws: seq<World>, ls: seq<Label>, w: World, l: Label)
    requires IsRun(sc, ws, ls) && sc.May(l) && w == Step(sc.Cat(), ws[|ls|], l)
    ensures IsRun(sc, ws + [w], ls + [l])
  {
    var ws', ls' := ws + [w], ls + [l];
    forall i | 0 <= i < |ls'|
      ensures sc.May(ls'[i]) && ws'[i + 1] == Step(sc.Cat(), ws'[i], ls'[i])
    {
      if i < |ls| {
        assert ls'[i] == ls[i];
      }
    }
  }

  lemma ReachesStep(sc: Scene, a: World, b: World, l: Label)
    requires Reaches(sc, a, b) && sc.May(l)
    ensures Reaches(sc, a, Step(sc.Cat(), b, l))
  {
    var ws: seq<World>, ls: seq<Label> :| IsRun(sc, ws, ls) && ws[0] == a && ws[|ls|] == b;
    var w := Step(sc.Cat(), b, l);
    RunOn(sc, ws, ls, w, l);
    assert (ws + [w])[|ls + [l]|] == w;
  }

  lemma ReachesOn(sc: Scene, a: World, b: World, c: World)
    requires Reaches(sc, a, b) && Reaches(sc, b, c)
    ensures Reaches(sc, a, c)
  {
    var ws: seq<World>, ls: seq<Label> :| IsRun(sc, ws, ls) && ws[0] == b && ws[|ls|] == c;
    for i := 0 to |ls|
      invariant Reaches(sc, a, ws[i])
    {
      assert sc.May(ls[i]);
      ReachesStep(sc, a, ws[i], ls[i]);
    }
  }

  /** A world that is reached is the end of a run of the transition system, by permitted steps. */
  lemma ReachedByTrace(sc: Scene, a: World, b: World) returns (trace: seq<Label>)
    requires Reaches(sc, a, b)
    ensures Exec(sc.Cat(), a, trace) == b && forall l :: l in trace ==> sc.May(l)
  {
    var ws: seq<World>, ls: seq<Label> :| IsRun(sc, ws, ls) && ws[0] == a && ws[|ls|] == b;
    trace := ls;
    RunIsExec(sc, ws, ls, |ls|);
    assert ls[..|ls|] == ls;
  }

  lemma {:induction false} RunIsExec(sc: Scene, ws: seq<World>, ls: seq<Label>, n: nat)
    requires IsRun(sc, ws, ls) && n <= |ls|
    ensures Exec(sc.Cat(), ws[0], ls[..n]) == ws[n]
  {
    if n == 0 {
    } else {
      RunIsExec(sc, ws, ls, n - 1);
      assert sc.May(ls[n - 1]);
      ExecOneMore(sc.Cat(), ws[0], ls[..n - 1], ls[n - 1]);
      assert ls[..n - 1] + [ls[n - 1]] == ls[..n];
    }
  }

  // ----- One owner's pass beside the rest of the world -----

  // Where the owner's own pass is; it lives in Go's local variables, not in the shared world.
  datatype Local = Idle | Running(pass: Pass) | Finished

  type Passes = map<OwnerId, Pass>

  function PutPass(passes: Passes, id: OwnerId, x: Local): Passes {
    if x.Running? then passes[id := x.pass] else passes - {id}
  }

  function PutDone(done: set<OwnerId>, id: OwnerId, x: Local): set<OwnerId> {
    if x.Finished? then done + {id} else done - {id}
  }

  // The world with the owner's pass put where `x` says it is.
  function View(w: World, id: OwnerId, x: Local): World {
    w.(passes := PutPass(w.passes, id, x), done := PutDone(w.done, id, x))
  }

  // From w the rest of the world may get to w', wherever the owner's own pass is.
  ghost predicate Overtaken(sc: Scene, w: World, w': World) {
    forall x: Local :: Reaches(sc, View(w, sc.id, x), View(w', sc.id, x))
  }

  /** No step of anyone else looks at an owner's pass or touches it. */
  lemma OthersCommute(cat: Catalog, w: World, id: OwnerId, x: Local, l: Label)
    requires !Own(id, l)
    ensures Step(cat, View(w, id, x), l) == View(Step(cat, w, l), id, x)
  {
    match l
    case Begin(j) => BeginCommutes(w, id, x, j);
    case Look(j) => LookCommutes(cat, w, id, x, j);
    case Create(j) => CreateCommutes(cat, w, id, x, j);
    case Lose(j) => CreateCommutes(cat, w, id, x, j);
    case Fault(j) => FaultCommutes(w, id, x, j);
    case Apply(j, spec) => ApplyCommutes(w, id, x, j, spec);
    case Collect(k) => CollectCommutes(w, id, x, k);
    case _ =>
  }

  lemma ApplyCommutes(w: World, id: OwnerId, x: Local, j: OwnerId, spec: Spec)
    ensures ApplyStep(View(w, id, x), j, spec) == View(ApplyStep(w, j, spec), id, x)
  {
  }

  lemma CollectCommutes(w: World, id: OwnerId, x: Local, k: Key)
    ensures CollectStep(View(w, id, x), k) == View(CollectStep(w, k), id, x)
  {
  }

  lemma BeginCommutes(w: World, id: OwnerId, x: Local, j: OwnerId)
    requires j != id
    ensures BeginStep(View(w, id, x), j) == View(BeginStep(w, j), id, x)
  {
  }

  lemma FaultCommutes(w: World, id: OwnerId, x: Local, j: OwnerId)
    requires j != id
    ensures Drop(View(w, id, x), j) == View(Drop(w, j), id, x)
  {
  }

  lemma SameLook(cat: Catalog, w: World, id: OwnerId, x: Local, j: OwnerId)
    requires j != id
    ensures CanLook(cat, View(w, id, x), j) == CanLook(cat, w, j) && Hits(cat, View(w, id, x), j) == Hits(cat, w, j)
    ensures j in w.passes ==> j in View(w, id, x).passes && View(w, id, x).passes[j] == w.passes[j]
  {
  }

  lemma PutCommutes(passes: Passes, id: OwnerId, x: Local, j: OwnerId, p: Pass)
    requires j != id
    ensures PutPass(passes, id, x)[j := p] == PutPass(passes[j := p], id, x)
    ensures PutPass(passes, id, x) - {j} == PutPass(passes - {j}, id, x)
  {
  }

  lemma DoneCommutes(done: set<OwnerId>, id: OwnerId, x: Local, j: OwnerId)
    requires j != id
    ensures PutDone(done, id, x) + {j} == PutDone(done + {j}, id, x)
  {
  }

  lemma NextPassesCommute(steps: nat, passes: Passes, id: OwnerId, x: Local, j: OwnerId, p: Pass)
    requires j != id
    ensures NextPasses(steps, PutPass(passes, id, x), j, p) == PutPass(NextPasses(steps, passes, j, p), id, x)
  {
    PutCommutes(passes, id, x, j, Pass(p.owner, p.step + 1, 0));
  }

  lemma NextDoneCommutes(steps: nat, done: set<OwnerId>, id: OwnerId, x: Local, j: OwnerId, p: Pass)
    requires j != id
    ensures NextDone(steps, PutDone(done, id, x), j, p) == PutDone(NextDone(steps, done, j, p), id, x)
  {
    DoneCommutes(done, id, x, j);
  }

  lemma AdvanceCommutes(cat: Catalog, w: World, id: OwnerId, x: Local, j: OwnerId, p: Pass)
    requires j != id
    ensures Advance(cat, View(w, id, x), j, p) == View(Advance(cat, w, j, p), id, x)
  {
    NextPassesCommute(|cat.plan(j)|, w.passes, id, x, j, p);
    NextDoneCommutes(|cat.plan(j)|, w.done, id, x, j, p);
  }

  lemma MissCommutes(w: World, id: OwnerId, x: Local, j: OwnerId, p: Pass)
    requires j != id
    ensures Miss(View(w, id, x), j, p) == View(Miss(w, j, p), id, x)
  {
    PutCommutes(w.passes, id, x, j, p.(misses := p.misses + 1));
  }

  lemma LookCommutes(cat: Catalog, w: World, id: OwnerId, x: Local, j: OwnerId)
    requires j != id
    ensures LookStep(cat, View(w, id, x), j) == View(LookStep(cat, w, j), id, x)
  {
    SameLook(cat, w, id, x, j);
    if Hits(cat, w, j) {
      AdvanceCommutes(cat, w, id, x, j, w.passes[j]);
    } else if CanLook(cat, w, j) {
      MissCommutes(w, id, x, j, w.passes[j]);
    }
  }

  lemma SameCreate(cat: Catalog, w: World, id: OwnerId, x: Local, j: OwnerId)
    requires j != id
    ensures CanCreate(cat, View(w, id, x), j) == CanCreate(cat, w, j)
    ensures Creates(cat, View(w, id, x), j) == Creates(cat, w, j)
    ensures j in w.passes ==> View(w, id, x).passes[j] == w.passes[j]
    ensures Creates(cat, w, j) ==> Made(cat, View(w, id, x), j) == View(Made(cat, w, j), id, x)
  {
  }

  lemma CreateCommutes(cat: Catalog, w: World, id: OwnerId, x: Local, j: OwnerId)
    requires j != id
    ensures CreateStep(cat, View(w, id, x), j) == View(CreateStep(cat, w, j), id, x)
    ensures LoseStep(cat, View(w, id, x), j) == View(LoseStep(cat, w, j), id, x)
  {
    SameCreate(cat, w, id, x, j);
    if Creates(cat, w, j) {
      AdvanceCommutes(cat, Made(cat, w, j), id, x, j, w.passes[j]);
      FaultCommutes(Made(cat, w, j), id, x, j);
    } else {
      Refuses(cat, w, j);
      Refuses(cat, View(w, id, x), j);
      FaultCommutes(w, id, x, j);
    }
  }

  lemma OvertakenSelf(sc: Scene, w: World)
    ensures Overtaken(sc, w, w)
  {
    forall x: Local
      ensures Reaches(sc, View(w, sc.id, x), View(w, sc.id, x))
    {
      ReachesSelf(sc, View(w, sc.id, x));
    }
  }

  lemma OvertakenStep(sc: Scene, w: World, w': World, t: Turn, l: Label)
    requires Overtaken(sc, w, w') && sc.Foreign() && t in sc.turns && l in t.others
    ensures Overtaken(sc, w, Step(sc.Cat(), w', l))
  {
    var next := Step(sc.Cat(), w', l);
    forall x: Local
      ensures Reaches(sc, View(w, sc.id, x), View(next, sc.id, x))
    {
      OthersCommute(sc.Cat(), w', sc.id, x, l);
      ReachesStep(sc, View(w, sc.id, x), View(w', sc.id, x), l);
    }
  }

  lemma OvertakenOn(sc: Scene, start: World, x: Local, w: World, w': World)
    requires Reaches(sc, start, View(w, sc.id, x)) && Overtaken(sc, w, w')
    ensures Reaches(sc, start, View(w', sc.id, x))
  {
    ReachesOn(sc, start, View(w, sc.id, x), View(w', sc.id, x));
  }

  // ----- What the owner's own steps are -----

  // Where the pass is once its current step is done.
  function After(id: OwnerId, owner: Owner, step: nat): Local {
    if step + 1 < |Plan(id)| then Running(Pass(owner, step + 1, 0)) else Finished
  }

  lemma BeginIs(cat: Catalog, w: World, id: OwnerId)
    requires id in w.ownerCache
    ensures Step(cat, View(w, id, Idle), Begin(id)) == View(w, id, Running(Pass(w.ownerCache[id], 0, 0)))
  {
  }

  lemma FaultIs(cat: Catalog, w: World, id: OwnerId, p: Pass)
    ensures Step(cat, View(w, id, Running(p)), Fault(id)) == View(w, id, Idle)
  {
  }

  lemma LookIs(cat: Catalog, w: World, id: OwnerId, p: Pass)
    requires p.step < |cat.plan(id)| && p.misses < cat.looks(id.kind)
    ensures var v := View(w, id, Running(p));
      Step(cat, v, Look(id)) == if cat.plan(id)[p.step] in w.cache then Advance(cat, v, id, p) else Miss(v, id, p)
  {
  }

  // The pass after one more miss.
  function Further(p: Pass): Pass {
    Pass(p.owner, p.step, p.misses + 1)
  }

  lemma MissIs(w: World, id: OwnerId, p: Pass)
    ensures Miss(View(w, id, Running(p)), id, p) == View(w, id, Running(Further(p)))
  {
  }

  lemma AdvanceIs(parses: QuantityParser, w: World, id: OwnerId, p: Pass)
    ensures Advance(Atomix(parses), View(w, id, Running(p)), id, p) == View(w, id, After(id, p.owner, p.step))
  {
  }

  lemma InsertIs(w: World, id: OwnerId, p: Pass, made: Object)
    ensures Insert(View(w, id, Running(p)), p, made) == View(Insert(w, p, made), id, Running(p))
  {
  }

  lemma CreateIs(cat: Catalog, w: World, id: OwnerId, p: Pass, made: Object)
    requires p.step < |cat.plan(id)| && p.misses == cat.looks(id.kind)
    requires cat.build(p.owner, p.step) == Built(made) && KeyOf(made) !in w.store
    ensures var v := View(w, id, Running(p));
      Step(cat, v, Create(id)) == Advance(cat, Insert(v, p, made), id, p)
  {
  }

  lemma LoseIs(cat: Catalog, w: World, id: OwnerId, p: Pass, made: Object)
    requires p.step < |cat.plan(id)| && p.misses == cat.looks(id.kind)
    requires cat.build(p.owner, p.step) == Built(made) && KeyOf(made) !in w.store
    ensures var v := View(w, id, Running(p));
      Step(cat, v, Lose(id)) == Drop(Insert(v, p, made), id)
  {
  }

  // The builder fails, or the key is taken.
  lemma RefusalIs(cat: Catalog, w: World, id: OwnerId, p: Pass)
    requires p.step < |cat.plan(id)| && p.misses == cat.looks(id.kind)
    requires cat.build(p.owner, p.step).Failed? || KeyOf(cat.build(p.owner, p.step).result) in w.store
    ensures Step(cat, View(w, id, Running(p)), Create(id)) == View(w, id, Idle)
  {
    Refuses(cat, View(w, id, Running(p)), id);
  }

  // The owner's pass is at x after a run from `start` to w.
  ghost predicate At(sc: Scene, start: World, w: World, x: Local) {
    Reaches(sc, start, View(w, sc.id, x))
  }

  lemma Moves(sc: Scene, start: World, w: World, x: Local, l: Label, w': World, y: Local)
    requires At(sc, start, w, x) && sc.May(l)
    requires Step(sc.Cat(), View(w, sc.id, x), l) == View(w', sc.id, y)
    ensures At(sc, start, w', y)
  {
    ReachesStep(sc, start, View(w, sc.id, x), l);
  }

  lemma FoundIs(parses: QuantityParser, w: World, id: OwnerId, p: Pass)
    requires p.step < |Plan(id)| && p.misses < LooksBeforeCreate(id.kind) && Plan(id)[p.step] in w.cache
    ensures Step(Atomix(parses), View(w, id, Running(p)), Look(id)) == View(w, id, After(id, p.owner, p.step))
  {
    LookIs(Atomix(parses), w, id, p);
    AdvanceIs(parses, w, id, p);
  }

  lemma MissedIs(parses: QuantityParser, w: World, id: OwnerId, p: Pass)
    requires p.step < |Plan(id)| && p.misses < LooksBeforeCreate(id.kind) && Plan(id)[p.step] !in w.cache
    ensures Step(Atomix(parses), View(w, id, Running(p)), Look(id)) == View(w, id, Running(Further(p)))
  {
    LookIs(Atomix(parses), w, id, p);
    MissIs(w, id, p);
  }

  lemma CreatedIs(parses: QuantityParser, w: World, id: OwnerId, p: Pass, made: Object)
    requires p.step < |Plan(id)| && p.misses == LooksBeforeCreate(id.kind)
    requires Build(parses, p.owner, p.step) == Built(made) && KeyOf(made) !in w.store
    ensures Step(Atomix(parses), View(w, id, Running(p)), Create(id))
         == View(Insert(w, p, made), id, After(id, p.owner, p.step))
  {
    CreateIs(Atomix(parses), w, id, p, made);
    InsertIs(w, id, p, made);
    AdvanceIs(parses, Insert(w, p, made), id, p);
  }

  lemma LostIs(parses: QuantityParser, w: World, id: OwnerId, p: Pass, made: Object)
    requires p.step < |Plan(id)| && p.misses == LooksBeforeCreate(id.kind)
    requires Build(parses, p.owner, p.step) == Built(made) && KeyOf(made) !in w.store
    ensures Step(Atomix(parses), View(w, id, Running(p)), Lose(id)) == View(Insert(w, p, made), id, Idle)
  {
    LoseIs(Atomix(parses), w, id, p, made);
    InsertIs(w, id, p, made);
    FaultIs(Atomix(parses), Insert(w, p, made), id, p);
  }

  lemma Found(sc: Scene, start: World, w: World, p: Pass)
    requires p.step < |Plan(sc.id)| && p.misses < LooksBeforeCreate(sc.id.kind) && Plan(sc.id)[p.step] in w.cache
    requires At(sc, start, w, Running(p))
    ensures At(sc, start, w, After(sc.id, p.owner, p.step))
  {
    FoundIs(sc.parses, w, sc.id, p);
    Moves(sc, start, w, Running(p), Look(sc.id), w, After(sc.id, p.owner, p.step));
  }

  lemma Missed(sc: Scene, start: World, w: World, p: Pass)
    requires p.step < |Plan(sc.id)| && p.misses < LooksBeforeCreate(sc.id.kind) && Plan(sc.id)[p.step] !in w.cache
    requires At(sc, start, w, Running(p))
    ensures At(sc, start, w, Running(Further(p)))
  {
    MissedIs(sc.parses, w, sc.id, p);
    Moves(sc, start, w, Running(p), Look(sc.id), w, Running(Further(p)));
  }

  lemma GaveUp(sc: Scene, start: World, w: World, p: Pass)
    requires At(sc, start, w, Running(p)) && sc.SomeFail()
    ensures At(sc, start, w, Idle)
  {
    FaultIs(sc.Cat(), w, sc.id, p);
    ReachesStep(sc, start, View(w, sc.id, Running(p)), Fault(sc.id));
  }

  lemma Created(sc: Scene, start: World, w: World, p: Pass, made: Object)
    requires p.step < |Plan(sc.id)| && p.misses == LooksBeforeCreate(sc.id.kind)
    requires Build(sc.parses, p.owner, p.step) == Built(made) && KeyOf(made) !in w.store
    requires At(sc, start, w, Running(p))
    ensures At(sc, start, Insert(w, p, made), After(sc.id, p.owner, p.step))
  {
    CreatedIs(sc.parses, w, sc.id, p, made);
    ReachesStep(sc, start, View(w, sc.id, Running(p)), Create(sc.id));
  }

  lemma AnswerLost(sc: Scene, start: World, w: World, p: Pass, made: Object)
    requires p.step < |Plan(sc.id)| && p.misses == LooksBeforeCreate(sc.id.kind) && sc.SomeLost()
    requires Build(sc.parses, p.owner, p.step) == Built(made) && KeyOf(made) !in w.store
    requires At(sc, start, w, Running(p))
    ensures At(sc, start, Insert(w, p, made), Idle)
  {
    LostIs(sc.parses, w, sc.id, p, made);
    ReachesStep(sc, start, View(w, sc.id, Running(p)), Lose(sc.id));
  }

  lemma Refused(sc: Scene, start: World, w: World, p: Pass)
    requires p.step < |Plan(sc.id)| && p.misses == LooksBeforeCreate(sc.id.kind)
    requires Build(sc.parses, p.owner, p.step).Failed? || KeyOf(Build(sc.parses, p.owner, p.step).result) in w.store
    requires At(sc, start, w, Running(p))
    ensures At(sc, start, w, Idle)
  {
    RefusalIs(sc.Cat(), w, sc.id, p);
    ReachesStep(sc, start, View(w, sc.id, Running(p)), Create(sc.id));
  }

  // ----- How a call ends -----

  datatype ApiError = NotFound | AlreadyExists | Unavailable | BuilderFailed

  // The pass is about to create: it has missed its current key as often as it looks.
  predicate AtCreate(sc: Scene, p: Pass) {
    p.step < |Plan(sc.id)| && p.misses == LooksBeforeCreate(sc.id.kind)
  }

  // Why the pass that was at p when the world became w ended with this error.
  predicate Cause(sc: Scene, w: World, p: Pass, err: ApiError) {
    && AtCreate(sc, p)
    && (err.AlreadyExists? || err.BuilderFailed?)
    && (err.AlreadyExists? ==> Plan(sc.id)[p.step] in w.store)
    && (err.BuilderFailed? ==> Build(sc.parses, p.owner, p.step).Failed?)
  }

  // Why a pass from `start` stopped in w, where it may be Running no more.
  ghost predicate Accounted(sc: Scene, start: World, w: World, err: Option<ApiError>) {
    match err
    case None => true
    case Some(NotFound) => false
    case Some(Unavailable) => sc.SomeFail()
    case Some(e) => exists p: Pass :: At(sc, start, w, Running(p)) && Cause(sc, w, p, e)
  }

  // The call finds its owner in the cache when the world is r.
  ghost predicate ReadAt(sc: Scene, a: World, r: World) {
    Reaches(sc, a, r) && sc.id in r.ownerCache && sc.id !in r.passes
  }

  // A pass that began in r has ended in w, with this result.
  ghost predicate PassEnded(sc: Scene, r: World, w: World, err: Option<ApiError>) {
    && Reaches(sc, BeginStep(r, sc.id), w)
    && (err.None? <==> sc.id in w.done)
    && match err
       case None => true
       case Some(NotFound) => false
       case Some(Unavailable) => sc.SomeFail()
       case Some(e) => exists p: Pass :: Reaches(sc, BeginStep(r, sc.id), With(w, sc.id, p)) && Cause(sc, w, p, e)
  }

  // No pass began: the owner was not found, or looking for it failed.
  ghost predicate NoPassBegan(sc: Scene, a: World, w: World, err: Option<ApiError>) {
    && Reaches(sc, a, w) && sc.id !in w.done
    && ((err == None && sc.id !in w.ownerCache) || (err == Some(Unavailable) && sc.SomeFail()))
  }

  // A call for an owner without success on record.
  ghost predicate CalledAfresh(sc: Scene, a: World, w: World, err: Option<ApiError>) {
    && sc.id !in w.passes
    && (NoPassBegan(sc, a, w, err) || exists r :: ReadAt(sc, a, r) && PassEnded(sc, r, w, err))
  }

  function Forget(w: World, id: OwnerId): World {
    w.(done := w.done - {id})
  }

  function Remember(w: World, id: OwnerId): World {
    w.(done := w.done + {id})
  }

  // A call takes the world from a to b: what it does does not depend on the owner's record of
  // success, and what is on record stays there.
  ghost predicate Called(sc: Scene, a: World, b: World, err: Option<ApiError>) {
    exists w: World ::
      CalledAfresh(sc, Forget(a, sc.id), w, err) && b == if sc.id in a.done then Remember(w, sc.id) else w
  }

  lemma WithIsRunning(w: World, id: OwnerId, x: Local, p: Pass)
    requires !x.Finished?
    ensures With(View(w, id, x), id, p) == View(w, id, Running(p))
  {
  }

  // From a pass that has stopped, with its error accounted for, to how it ended.
  lemma StoppedEnds(sc: Scene, r: World, w: World, err: ApiError)
    requires At(sc, BeginStep(r, sc.id), w, Idle) && Accounted(sc, BeginStep(r, sc.id), w, Some(err))
    ensures PassEnded(sc, r, View(w, sc.id, Idle), Some(err))
  {
    if err.AlreadyExists? || err.BuilderFailed? {
      var p: Pass :| At(sc, BeginStep(r, sc.id), w, Running(p)) && Cause(sc, w, p, err);
      WithIsRunning(w, sc.id, Idle, p);
      CauseInView(sc, w, p, err);
    }
  }

  lemma CauseInView(sc: Scene, w: World, p: Pass, err: ApiError)
    ensures Cause(sc, View(w, sc.id, Idle), p, err) <==> Cause(sc, w, p, err)
  {
  }

  lemma AccountedEnds(sc: Scene, r: World, w: World, err: Option<ApiError>)
    requires At(sc, BeginStep(r, sc.id), w, if err.None? then Finished else Idle)
    requires Accounted(sc, BeginStep(r, sc.id), w, err)
    ensures PassEnded(sc, r, View(w, sc.id, if err.None? then Finished else Idle), err)
  {
    if err.Some? {
      StoppedEnds(sc, r, w, err.value);
    }
  }

  // ----- Owners under their own names -----

  // Owners are kept under their own names.
  ghost predicate KeyedMap(owners: map<OwnerId, Owner>) {
    forall id :: id in owners ==> owners[id].id == id
  }

  ghost predicate KeyedNews(news: map<OwnerId, seq<Option<Owner>>>) {
    forall id, o :: Heard(news, id, o) ==> o.id == id
  }

  ghost predicate Keyed(w: World) {
    KeyedMap(w.owners) && KeyedMap(w.ownerCache) && KeyedNews(w.ownerNews)
  }

  lemma KeyedCreate(cat: Catalog, w: World, id: OwnerId)
    requires Keyed(w)
    ensures Keyed(CreateStep(cat, w, id)) && Keyed(LoseStep(cat, w, id))
  {
    CreateOnlyAdds(cat, w, id);
  }

  lemma KeyedStep(cat: Catalog, w: World, l: Label)
    requires Keyed(w)
    ensures Keyed(Step(cat, w, l))
  {
    match l
    case Look(id) => LookOnlyMoves(cat, w, id);
    case Create(id) => KeyedCreate(cat, w, id);
    case Lose(id) => KeyedCreate(cat, w, id);
    case SyncOwner(id, n) => KeyedLearn(w.ownerCache, w.ownerNews, id, n);
    case Apply(id, spec) => KeyedApply(w, id, spec);
    case Remove(id) => KeyedRemove(w, id);
    case _ =>
  }

  lemma KeyedApply(w: World, id: OwnerId, spec: Spec)
    requires Keyed(w)
    ensures Keyed(ApplyStep(w, id, spec))
  {
    KeyedPost(w.ownerNews, id, Some(Edited(w, id, spec)));
  }

  lemma KeyedRemove(w: World, id: OwnerId)
    requires Keyed(w)
    ensures Keyed(RemoveStep(w, id))
  {
    KeyedPost(w.ownerNews, id, None);
  }

  lemma KeyedLearn(copy: map<OwnerId, Owner>, news: map<OwnerId, seq<Option<Owner>>>, id: OwnerId, n: nat)
    requires KeyedMap(copy) && KeyedNews(news)
    ensures KeyedMap(Learn(copy, news, id, n)) && KeyedNews(Rest(news, id, n))
  {
    forall j | j in Learn(copy, news, id, n)
      ensures Learn(copy, news, id, n)[j].id == j
    {
      Learned(copy, news, id, n, j);
    }
    forall j, o | Heard(Rest(news, id, n), j, o)
      ensures o.id == j
    {
      HeardRest(news, id, n, j, o);
    }
  }

  lemma KeyedPost(news: map<OwnerId, seq<Option<Owner>>>, id: OwnerId, state: Option<Owner>)
    requires KeyedNews(news) && (state.Some? ==> state.value.id == id)
    ensures KeyedNews(Post(news, id, state))
  {
    forall j, o | Heard(Post(news, id, state), j, o)
      ensures o.id == j
    {
      HeardPost(news, id, state, j, o);
    }
  }

  lemma KeyedReaches(sc: Scene, a: World, b: World)
    requires Keyed(a) && Reaches(sc, a, b)
    ensures Keyed(b)
  {
    var ws: seq<World>, ls: seq<Label> :| IsRun(sc, ws, ls) && ws[0] == a && ws[|ls|] == b;
    for i := 0 to |ls|
      invariant Keyed(ws[i])
    {
      KeyedStep(sc.Cat(), ws[i], ls[i]);
    }
  }

  // What a call reads is kept under its own name.
  lemma KeyedRead(sc: Scene, a: World, r: World)
    requires Keyed(a) && Reaches(sc, a, r) && sc.id in r.ownerCache
    ensures r.ownerCache[sc.id].id == sc.id
  {
    KeyedReaches(sc, a, r);
  }
}
