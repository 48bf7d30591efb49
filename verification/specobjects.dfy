/**
 The spec objects as Go holds them: structs reached through pointers, some of them optional,
 which defaulting updates in place and the generated deep copy must separate from the original
 in the cache. A struct embedded by value is an object of its own that its owner never replaces
 (a const field); a pointer is a nullable field; a slice of plain values is a nullable array.
 */
module SpecObjects {
  import opened Text
  import V = Specs

  class StringBox {
    var value: string

    constructor (value: string)
      ensures this.value == value
    {
      this.value := value;
    }
  }

  class Storage {
    var size: string
    var className: StringBox?
    var segmentSize: string
    var entrySize: string
    var level: string
    var flushOnCommit: bool

    ghost function Repr(): set<object>
      reads *
    {
      {this} + if className == null then {} else {className}
    }

    ghost function Value(): V.Storage
      reads *
    {
      V.Storage(size, if className == null then None else Some(className.value),
                segmentSize, entrySize, level, flushOnCommit)
    }

    // The zero value of the struct.
    constructor ()
      ensures fresh(Repr())
    {
      size, segmentSize, entrySize, level := "", "", "", "";
      className := null;
      flushOnCommit := false;
    }

    method DeepCopyInto(out: Storage)
      requires out != this
      modifies out
      ensures out.Value() == Value()
      ensures fresh(out.Repr() - {out})
    {
      out.size, out.segmentSize, out.entrySize := size, segmentSize, entrySize;
      out.level, out.flushOnCommit, out.className := level, flushOnCommit, className;
      if className != null {
        out.className := new StringBox(className.value);
      }
    }
  }

  class Compaction {
    var dynamic: bool
    var freeDiskBuffer: real
    var freeMemoryBuffer: real

    ghost function Value(): V.Compaction
      reads *
    {
      V.Compaction(dynamic, freeDiskBuffer, freeMemoryBuffer)
    }

    constructor ()
    {
      dynamic, freeDiskBuffer, freeMemoryBuffer := false, 0.0, 0.0;
    }

    method DeepCopyInto(out: Compaction)
      modifies out
      ensures out.Value() == old(Value())
    {
      out.dynamic, out.freeDiskBuffer, out.freeMemoryBuffer := dynamic, freeDiskBuffer, freeMemoryBuffer;
    }
  }

  class RaftPartitionGroup {
    const storage: Storage
    const compaction: Compaction
    var partitionSize: int

    ghost function Repr(): set<object>
      reads *
    {
      {this, compaction} + storage.Repr()
    }

    ghost function Value(): V.Raft
      reads *
    {
      V.Raft(storage.Value(), compaction.Value(), partitionSize)
    }

    constructor ()
      ensures fresh(Repr())
    {
      storage := new Storage();
      compaction := new Compaction();
      partitionSize := 0;
    }

    method DeepCopyInto(out: RaftPartitionGroup)
      requires out.storage != storage
      modifies out, out.storage, out.compaction
      ensures out.Value() == old(Value())
      ensures fresh(out.storage.Repr() - {out.storage})
    {
      out.partitionSize := partitionSize;
      storage.DeepCopyInto(out.storage);
      compaction.DeepCopyInto(out.compaction);
    }
  }

  class PrimaryBackupPartitionGroup {
    var memberGroupStrategy: string

    ghost function Value(): V.PrimaryBackup
      reads *
    {
      V.PrimaryBackup(memberGroupStrategy)
    }

    constructor ()
    {
      memberGroupStrategy := "";
    }
  }

  class LogPartitionGroup {
    const storage: Storage
    const compaction: Compaction
    var memberGroupStrategy: string

    ghost function Repr(): set<object>
      reads *
    {
      {this, compaction} + storage.Repr()
    }

    ghost function Value(): V.Log
      reads *
    {
      V.Log(storage.Value(), compaction.Value(), memberGroupStrategy)
    }

    constructor ()
      ensures fresh(Repr())
    {
      storage := new Storage();
      compaction := new Compaction();
      memberGroupStrategy := "";
    }

    method DeepCopyInto(out: LogPartitionGroup)
      requires out.storage != storage
      modifies out, out.storage, out.compaction
      ensures out.Value() == old(Value())
      ensures fresh(out.storage.Repr() - {out.storage})
    {
      out.memberGroupStrategy := memberGroupStrategy;
      storage.DeepCopyInto(out.storage);
      compaction.DeepCopyInto(out.compaction);
    }
  }

  ghost function EnvValue(env: array?<V.EnvVar>): Option<seq<V.EnvVar>>
    reads env
  {
    if env == null then None else Some(env[..])
  }

  // make([]EnvVar, len(in)) and the loop that fills it.
  method CopyEnv(env: array?<V.EnvVar>) returns (copy: array?<V.EnvVar>)
    ensures (copy != null ==> fresh(copy)) && EnvValue(copy) == EnvValue(env)
  {
    if env == null {
      return null;
    }
    var c := new V.EnvVar[env.Length](i => V.EnvVar("", ""));
    var i := 0;
    while i < env.Length
      invariant 0 <= i <= env.Length
      invariant c[..i] == env[..i]
    {
      c[i] := env[i];
      i := i + 1;
    }
    assert c[..] == c[..i] && env[..] == env[..i];
    return c;
  }

  ghost function RaftRepr(r: RaftPartitionGroup?): set<object>
    reads *
  {
    if r == null then {} else r.Repr()
  }

  ghost function RaftValue(r: RaftPartitionGroup?): Option<V.Raft>
    reads *
  {
    if r == null then None else Some(r.Value())
  }

  ghost function LogRepr(l: LogPartitionGroup?): set<object>
    reads *
  {
    if l == null then {} else l.Repr()
  }

  ghost function LogValue(l: LogPartitionGroup?): Option<V.Log>
    reads *
  {
    if l == null then None else Some(l.Value())
  }

  ghost function BackupValue(p: PrimaryBackupPartitionGroup?): Option<V.PrimaryBackup>
    reads *
  {
    if p == null then None else Some(p.Value())
  }

  method CopyRaft(r: RaftPartitionGroup?) returns (copy: RaftPartitionGroup?)
    ensures fresh(RaftRepr(copy)) && RaftValue(copy) == RaftValue(r)
  {
    if r == null {
      return null;
    }
    var c := new RaftPartitionGroup();
    r.DeepCopyInto(c);
    return c;
  }

  method CopyBackup(p: PrimaryBackupPartitionGroup?) returns (copy: PrimaryBackupPartitionGroup?)
    ensures (copy != null ==> fresh(copy)) && BackupValue(copy) == BackupValue(p)
  {
    if p == null {
      return null;
    }
    var c := new PrimaryBackupPartitionGroup();
    c.memberGroupStrategy := p.memberGroupStrategy;
    return c;
  }

  method CopyLog(l: LogPartitionGroup?) returns (copy: LogPartitionGroup?)
    ensures fresh(LogRepr(copy)) && LogValue(copy) == LogValue(l)
  {
    if l == null {
      return null;
    }
    var c := new LogPartitionGroup();
    l.DeepCopyInto(c);
    return c;
  }

  // Every object that the pointers of a partition group's spec lead to.
  ghost function PointeesOf(env: array?<V.EnvVar>, raft: RaftPartitionGroup?,
                            primaryBackup: PrimaryBackupPartitionGroup?, log: LogPartitionGroup?): set<object>
    reads *
  {
    (if env == null then {} else {env}) + RaftRepr(raft)
    + (if primaryBackup == null then {} else {primaryBackup}) + LogRepr(log)
  }

  method CopyPersistent(raft: RaftPartitionGroup?, log: LogPartitionGroup?)
    returns (r: RaftPartitionGroup?, l: LogPartitionGroup?)
    ensures fresh(RaftRepr(r)) && fresh(LogRepr(l))
    ensures r != null && l != null ==> r.storage != l.storage && r.compaction != l.compaction
    ensures RaftValue(r) == RaftValue(raft) && LogValue(l) == LogValue(log)
  {
    r := CopyRaft(raft);
    l := CopyLog(log);
  }

  class PartitionGroupSpec {
    var cluster: string
    var version: string
    var size: V.Int32
    var partitions: int
    var env: array?<V.EnvVar>
    var resources: V.Resources
    var raft: RaftPartitionGroup?
    var primaryBackup: PrimaryBackupPartitionGroup?
    var log: LogPartitionGroup?

    // Different structs embed different structs.
    ghost predicate Valid()
      reads *
    {
      raft != null && log != null ==> raft.storage != log.storage && raft.compaction != log.compaction
    }

    ghost function Pointees(): set<object>
      reads *
    {
      PointeesOf(env, raft, primaryBackup, log)
    }

    ghost function Value(): V.GroupSpec
      reads *
    {
      V.GroupSpec(cluster, version, size, partitions, EnvValue(env), resources,
                  RaftValue(raft), BackupValue(primaryBackup), LogValue(log))
    }

    constructor ()
      ensures Valid() && fresh(this)
    {
      cluster, version, size, partitions := "", "", 0, 0;
      env, resources := null, V.Resources(map[], map[]);
      raft, primaryBackup, log := null, null, null;
    }

    // What the pointers of a deep copy point to.
    method CopyPointees()
      returns (e: array?<V.EnvVar>, r: RaftPartitionGroup?, p: PrimaryBackupPartitionGroup?, l: LogPartitionGroup?)
      ensures fresh(PointeesOf(e, r, p, l))
      ensures r != null && l != null ==> r.storage != l.storage && r.compaction != l.compaction
      ensures EnvValue(e) == EnvValue(env) && RaftValue(r) == RaftValue(raft)
      ensures BackupValue(p) == BackupValue(primaryBackup) && LogValue(l) == LogValue(log)
    {
      r, l := CopyPersistent(raft, log);
      e := CopyEnv(env);
      p := CopyBackup(primaryBackup);
    }

    method Assign(out: PartitionGroupSpec, e: array?<V.EnvVar>, r: RaftPartitionGroup?,
                  p: PrimaryBackupPartitionGroup?, l: LogPartitionGroup?)
      modifies out
      ensures out.cluster == old(cluster) && out.version == old(version) && out.size == old(size)
      ensures out.partitions == old(partitions) && out.resources == old(resources)
      ensures out.env == e && out.raft == r && out.primaryBackup == p && out.log == l
    {
      out.cluster, out.version, out.size, out.partitions := cluster, version, size, partitions;
      out.resources, out.env, out.raft, out.primaryBackup, out.log := resources, e, r, p, l;
    }

    method DeepCopyInto(out: PartitionGroupSpec)
      requires out != this
      modifies out
      ensures out.Valid() && fresh(out.Pointees())
      ensures out.Value() == old(Value())
    {
      var e, r, p, l := CopyPointees();
      Assign(out, e, r, p, l);
      assert RaftValue(out.raft) == old(RaftValue(raft)) && LogValue(out.log) == old(LogValue(log));
    }
  }

  class ClusterSpec {
    var version: string
    var size: V.Int32
    var env: array?<V.EnvVar>
    var resources: V.Resources
    const storage: Storage

    ghost function Value(): V.ClusterSpec
      reads *
    {
      V.ClusterSpec(version, size, EnvValue(env), resources, storage.Value())
    }

    // What a copy must not share: the objects its pointers lead to, embedded structs included.
    ghost function Pointees(): set<object>
      reads *
    {
      (if env == null then {} else {env}) + storage.Repr()
    }

    constructor ()
      ensures fresh(storage) && fresh(Pointees())
    {
      version, size, env, resources := "", 0, null, V.Resources(map[], map[]);
      storage := new Storage();
    }

    method DeepCopyInto(out: ClusterSpec)
      requires out != this && out.storage != storage
      modifies out, out.storage
      ensures out.Value() == old(Value()) && fresh(out.Pointees() - {out.storage})
    {
      out.version, out.size, out.resources := version, size, resources;
      out.env := CopyEnv(env);
      storage.DeepCopyInto(out.storage);
    }
  }

  class BenchmarkSpec {
    var cluster: string
    var version: string
    var workers: V.Int32
    var env: array?<V.EnvVar>
    var resources: V.Resources

    ghost function Value(): V.BenchmarkSpec
      reads *
    {
      V.BenchmarkSpec(cluster, version, workers, EnvValue(env), resources)
    }

    constructor ()
      ensures Value() == V.BenchmarkSpec("", "", 0, None, V.Resources(map[], map[]))
    {
      cluster, version, workers, env, resources := "", "", 0, null, V.Resources(map[], map[]);
    }

    method DeepCopyInto(out: BenchmarkSpec)
      requires out != this
      modifies out
      ensures out.Value() == old(Value()) && (out.env != null ==> fresh(out.env))
    {
      out.cluster, out.version, out.workers, out.resources := cluster, version, workers, resources;
      out.env := CopyEnv(env);
    }
  }

  // Metadata and status hold nothing that defaulting reaches; they are values here.
  datatype Meta = Meta(kind: string, namespace: string, name: string, uid: nat, labels: map<string, string>)

  datatype Status = Status(serviceName: string)

  datatype Group = Group(meta: Meta, spec: V.GroupSpec, status: Status)

  class PartitionGroup {
    var meta: Meta
    const spec: PartitionGroupSpec
    var status: Status

    ghost predicate Valid()
      reads *
    {
      spec.Valid()
    }

    ghost function Repr(): set<object>
      reads *
    {
      {this, spec} + spec.Pointees()
    }

    ghost function Value(): Group
      reads *
    {
      Group(meta, spec.Value(), status)
    }

    constructor ()
      ensures Valid() && fresh(this) && fresh(spec)
    {
      meta, status := Meta("", "", "", 0, map[]), Status("");
      spec := new PartitionGroupSpec();
    }

    method DeepCopyInto(out: PartitionGroup)
      requires out.spec != spec
      modifies out, out.spec
      ensures out.Valid() && fresh(out.spec.Pointees())
      ensures out.Value() == old(Value())
    {
      out.meta, out.status := meta, status;
      spec.DeepCopyInto(out.spec);
    }
  }

  method CopyGroup(g: PartitionGroup) returns (copy: PartitionGroup)
    ensures fresh(copy) && fresh(copy.spec) && fresh(copy.spec.Pointees())
    ensures copy.Valid() && copy.Value() == g.Value() && copy !in copy.spec.Pointees()
  {
    copy := new PartitionGroup();
    assert g.Value() == old(g.Value());
    g.DeepCopyInto(copy);
  }

  method DeepCopy(g: PartitionGroup?) returns (copy: PartitionGroup?)
    ensures g == null <==> copy == null
    ensures g != null ==> fresh(copy.Repr()) && copy.Valid() && copy.Value() == g.Value()
  {
    if g == null {
      return null;
    }
    copy := CopyGroup(g);
  }

  // ----- Lists -----

  ghost function Values(gs: seq<PartitionGroup>): seq<Group>
    reads *
  {
    if gs == [] then [] else Values(gs[..|gs| - 1]) + [gs[|gs| - 1].Value()]
  }

  ghost function Reprs(gs: seq<PartitionGroup>): set<object>
    reads *
  {
    if gs == [] then {} else Reprs(gs[..|gs| - 1]) + gs[|gs| - 1].Repr()
  }

  // No mutable object belongs to two of the groups.
  ghost predicate Separate(gs: seq<PartitionGroup>)
    reads *
  {
    gs != [] ==>
      var init, last := gs[..|gs| - 1], gs[|gs| - 1];
      Separate(init) && last.Valid() && Reprs(init) !! last.Repr()
  }

  twostate lemma KeptGroup(g: PartitionGroup)
    requires unchanged(old(g.Repr()))
    ensures g.Value() == old(g.Value()) && g.Repr() == old(g.Repr()) && g.Valid() == old(g.Valid())
  {
  }

  twostate lemma {:induction false} Kept(gs: seq<PartitionGroup>)
    requires old(allocated(Reprs(gs))) && unchanged(old(Reprs(gs)))
    ensures Values(gs) == old(Values(gs)) && Reprs(gs) == old(Reprs(gs)) && Separate(gs) == old(Separate(gs))
  {
    if gs == [] {
    } else {
      Kept(gs[..|gs| - 1]);
      KeptGroup(gs[|gs| - 1]);
    }
  }

  method CopyOne(ghost items: seq<PartitionGroup>, ghost copies: seq<PartitionGroup>, g: PartitionGroup)
    returns (c: PartitionGroup)
    ensures Values(copies) == old(Values(copies)) && Reprs(copies) == old(Reprs(copies))
    ensures Separate(copies) == old(Separate(copies)) && Values(items) == old(Values(items))
    ensures c.Valid() && fresh(c.Repr()) && c.Value() == g.Value()
  {
    c := DeepCopy(g);
    Kept(copies);
    Kept(items);
  }

  method CopyNext(items: seq<PartitionGroup>, copies: seq<PartitionGroup>, ghost made: set<object>)
    returns (more: seq<PartitionGroup>, ghost made': set<object>)
    requires |copies| < |items| && Separate(copies) && Values(copies) == Values(items[..|copies|])
    requires Reprs(copies) == made
    ensures |more| == |copies| + 1 && Separate(more) && Values(more) == Values(items[..|more|])
    ensures Reprs(more) == made' && made <= made' && fresh(made' - made)
  {
    var n := |copies|;
    assert items[..n + 1][..n] == items[..n];
    var c := CopyOne(items[..n + 1], copies, items[n]);
    more := copies + [c];
    assert more[..n] == copies;
    made' := Reprs(more);
  }

  // make([]PartitionGroup, len(items)) and the loop that fills it.
  method CopyItems(items: seq<PartitionGroup>) returns (copies: seq<PartitionGroup>)
    ensures |copies| == |items| && Values(copies) == Values(items)
    ensures fresh(Reprs(copies)) && Separate(copies)
  {
    copies := [];
    ghost var made: set<object> := {};
    while |copies| < |items|
      invariant |copies| <= |items| && Values(copies) == Values(items[..|copies|]) && Separate(copies)
      invariant Reprs(copies) == made && fresh(made)
    {
      copies, made := CopyNext(items, copies, made);
    }
    assert items[..|copies|] == items;
  }

  // The Items of a list; None is the nil slice, which stays nil.
  method CopyList(items: Option<seq<PartitionGroup>>) returns (copies: Option<seq<PartitionGroup>>)
    ensures copies.Some? <==> items.Some?
    ensures items.Some? ==> |copies.value| == |items.value| && Values(copies.value) == Values(items.value)
    ensures items.Some? ==> fresh(Reprs(copies.value)) && Separate(copies.value)
  {
    match items
    case None => return None;
    case Some(groups) =>
      var made := CopyItems(groups);
      return Some(made);
  }

  datatype ListMeta = ListMeta(kind: string, resourceVersion: string)

  class PartitionGroupList {
    var meta: ListMeta
    var items: Option<seq<PartitionGroup>>

    constructor (meta: ListMeta, items: Option<seq<PartitionGroup>>)
      ensures this.meta == meta && this.items == items
    {
      this.meta, this.items := meta, items;
    }
  }

  ghost function ItemValues(items: Option<seq<PartitionGroup>>): Option<seq<Group>>
    reads *
  {
    match items
    case None => None
    case Some(groups) => Some(Values(groups))
  }

  ghost function ItemReprs(items: Option<seq<PartitionGroup>>): set<object>
    reads *
  {
    match items
    case None => {}
    case Some(groups) => Reprs(groups)
  }

  ghost predicate SeparateItems(items: Option<seq<PartitionGroup>>)
    reads *
  {
    items.Some? ==> Separate(items.value)
  }

  twostate lemma KeptItems(items: Option<seq<PartitionGroup>>)
    requires old(allocated(ItemReprs(items))) && unchanged(old(ItemReprs(items)))
    ensures ItemValues(items) == old(ItemValues(items)) && ItemReprs(items) == old(ItemReprs(items))
    ensures SeparateItems(items) == old(SeparateItems(items))
  {
    if items.Some? {
      Kept(items.value);
    }
  }

  method NewList(meta: ListMeta, items: Option<seq<PartitionGroup>>) returns (list: PartitionGroupList)
    ensures fresh(list) && list.meta == meta && list.items == items
    ensures ItemValues(items) == old(ItemValues(items)) && ItemReprs(items) == old(ItemReprs(items))
    ensures SeparateItems(items) == old(SeparateItems(items))
  {
    list := new PartitionGroupList(meta, items);
    KeptItems(items);
  }

  /** The deep copy of a list: nil for nil, otherwise a new list with the same metadata and with
      copies of its items, and nothing shared. */
  method DeepCopyList(list: PartitionGroupList?) returns (copy: PartitionGroupList?)
    ensures list == null <==> copy == null
    ensures list != null ==>
      && fresh(copy) && copy.meta == list.meta && ItemValues(copy.items) == old(ItemValues(list.items))
      && fresh(ItemReprs(copy.items)) && SeparateItems(copy.items)
  {
    if list == null {
      return null;
    }
    var copies := CopyList(list.items);
    copy := NewList(list.meta, copies);
  }

  // ----- Defaulting, in place -----

  method SetDefaultsStorage(storage: Storage)
    modifies storage
    ensures storage.Value() == V.DefaultStorage(old(storage.Value())) && storage.Repr() == old(storage.Repr())
  {
    if storage.size == "" {
      storage.size := "2G";
    }
    if storage.segmentSize == "" {
      storage.segmentSize := "64M";
    }
    if storage.entrySize == "" {
      storage.entrySize := "1K";
    }
    if storage.level == "" {
      storage.level := V.MAPPED_STORAGE;
    }
  }

  method SetDefaultsCompaction(compaction: Compaction)
    modifies compaction
    ensures compaction.Value() == V.DefaultCompaction(old(compaction.Value()))
  {
    if compaction.freeDiskBuffer == 0.0 {
      compaction.freeDiskBuffer := 0.2;
    }
    if compaction.freeMemoryBuffer == 0.0 {
      compaction.freeMemoryBuffer := 0.2;
    }
  }

  method SetDefaultsRaft(group: RaftPartitionGroup)
    modifies group, group.storage, group.compaction
    ensures group.Value() == V.DefaultRaft(old(group.Value())) && group.Repr() == old(group.Repr())
  {
    if group.partitionSize == 0 {
      group.partitionSize := 3;
    }
    SetDefaultsStorage(group.storage);
    SetDefaultsCompaction(group.compaction);
  }

  method SetDefaultsPrimaryBackup(group: PrimaryBackupPartitionGroup)
    modifies group
    ensures group.Value() == V.DefaultPrimaryBackup(old(group.Value()))
  {
    if group.memberGroupStrategy == "" {
      group.memberGroupStrategy := V.NODE_AWARE;
    }
  }

  method SetDefaultsLog(group: LogPartitionGroup)
    modifies group, group.storage, group.compaction
    ensures group.Value() == V.DefaultLog(old(group.Value())) && group.Repr() == old(group.Repr())
  {
    if group.memberGroupStrategy == "" {
      group.memberGroupStrategy := V.NODE_AWARE;
    }
    SetDefaultsStorage(group.storage);
    SetDefaultsCompaction(group.compaction);
  }

  // The objects that defaulting may write to, besides the spec: those of the winning protocol.
  ghost function DefaultedParts(spec: PartitionGroupSpec): set<object>
    reads *
  {
    if spec.raft != null then {spec.raft, spec.raft.storage, spec.raft.compaction}
    else if spec.primaryBackup != null then {spec.primaryBackup}
    else if spec.log != null then {spec.log, spec.log.storage, spec.log.compaction}
    else {}
  }

  // Only the protocol that wins the dispatch is defaulted.
  method SetDefaultsProtocol(spec: PartitionGroupSpec)
    requires spec.Valid()
    modifies DefaultedParts(spec)
    ensures spec.Value() == V.DefaultProtocol(old(spec.Value())) && spec.Pointees() == old(spec.Pointees())
    ensures V.FilledProtocol(old(spec.Value()), spec.Value())
  {
    if spec.raft != null {
      SetDefaultsRaft(spec.raft);
    } else if spec.primaryBackup != null {
      SetDefaultsPrimaryBackup(spec.primaryBackup);
    } else if spec.log != null {
      SetDefaultsLog(spec.log);
    }
    V.ProtocolFilled(old(spec.Value()), spec.Value());
  }

  method SetDefaultsScalars(spec: PartitionGroupSpec)
    modifies spec`version, spec`size, spec`partitions
    ensures spec.version == V.OrElse(old(spec.version), V.DEFAULT_VERSION)
    ensures spec.size == V.DefaultSize(old(spec.size))
    ensures spec.partitions == if old(spec.partitions) == 0 then spec.size else old(spec.partitions)
  {
    if spec.version == "" {
      spec.version := V.DEFAULT_VERSION;
    }
    if spec.size == 0 {
      spec.size := 1;
    }
    if spec.partitions == 0 {
      spec.partitions := spec.size;
    }
  }

  // Writing to a spec's own fields leaves what its pointers lead to as it is.
  twostate lemma ScalarsOnly(spec: PartitionGroupSpec)
    requires spec.raft == old(spec.raft) && spec.primaryBackup == old(spec.primaryBackup)
    requires spec.log == old(spec.log) && spec.env == old(spec.env)
    requires unchanged(old(spec.Pointees()))
    ensures RaftValue(spec.raft) == old(RaftValue(spec.raft)) && LogValue(spec.log) == old(LogValue(spec.log))
    ensures BackupValue(spec.primaryBackup) == old(BackupValue(spec.primaryBackup))
    ensures EnvValue(spec.env) == old(EnvValue(spec.env)) && spec.Pointees() == old(spec.Pointees())
    ensures DefaultedParts(spec) == old(DefaultedParts(spec))
  {
  }

  method SetDefaultsFields(spec: PartitionGroupSpec)
    requires spec.Valid()
    modifies spec`version, spec`size, spec`partitions
    ensures V.DefaultProtocol(spec.Value()) == V.DefaultGroup(old(spec.Value())) && spec.Valid()
    ensures spec.Pointees() == old(spec.Pointees()) && DefaultedParts(spec) == old(DefaultedParts(spec))
  {
    SetDefaultsScalars(spec);
    ScalarsOnly(spec);
  }

  // SetDefaults_PartitionGroup touches nothing but the group's spec.
  method SetDefaultsPartitionGroup(spec: PartitionGroupSpec)
    requires spec.Valid()
    modifies spec`version, spec`size, spec`partitions, DefaultedParts(spec)
    ensures spec.Value() == V.DefaultGroup(old(spec.Value())) && spec.Pointees() == old(spec.Pointees())
    ensures V.FilledGroup(old(spec.Value()), spec.Value())
  {
    SetDefaultsFields(spec);
    SetDefaultsProtocol(spec);
    V.GroupFilled(old(spec.Value()), spec.Value());
  }

  method SetDefaultsCluster(spec: ClusterSpec)
    modifies spec, spec.storage
    ensures spec.Value() == V.DefaultCluster(old(spec.Value()))
    ensures V.FilledCluster(old(spec.Value()), spec.Value())
  {
    if spec.version == "" {
      spec.version := V.DEFAULT_VERSION;
    }
    if spec.size == 0 {
      spec.size := 1;
    }
    SetDefaultsStorage(spec.storage);
  }

  method SetDefaultsBenchmark(spec: BenchmarkSpec)
    modifies spec
    ensures spec.Value() == V.DefaultBenchmark(old(spec.Value()))
    ensures V.FilledBenchmark(old(spec.Value()), spec.Value())
  {
    if spec.version == "" {
      spec.version := V.DEFAULT_VERSION;
    }
    if spec.workers == 0 {
      spec.workers := 1;
    }
  }

  method DefaultedCopy(cached: PartitionGroup) returns (group: PartitionGroup)
    ensures fresh(group) && fresh(group.spec) && fresh(group.spec.Pointees())
    ensures group.meta == old(cached.meta) && group.spec.Value() == V.DefaultGroup(old(cached.spec.Value()))
  {
    group := CopyGroup(cached);
    SetDefaultsPartitionGroup(group.spec);
  }

  /** What a pass works on: the cached object is copied out, then defaulted. All that the pass
      changes is its own; the cached object is as it was. */
  method ReadAndDefault(cached: PartitionGroup) returns (group: PartitionGroup)
    ensures fresh(group) && fresh(group.spec) && fresh(group.spec.Pointees())
    ensures cached.Value() == old(cached.Value())
    ensures group.meta == old(cached.meta) && group.spec.Value() == V.DefaultGroup(old(cached.spec.Value()))
  {
    group := DefaultedCopy(cached);
  }
}
