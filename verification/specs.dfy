/**
 The specifications users write (AtomixCluster, PartitionGroup, AtomixBenchmark) as values,
 what defaulting makes of them, and the protocol a partition group runs. The heap objects
 that Go mutates in place are in specobjects.dfy and are proved against these functions.
 */
module Specs {
  import opened Text

  type Int32 = x: int | -0x8000_0000 <= x < 0x8000_0000

  datatype EnvVar = EnvVar(name: string, value: string)

  datatype Resources = Resources(limits: map<string, string>, requests: map<string, string>)

  datatype Storage = Storage(
    size: string,
    className: Option<string>,
    segmentSize: string,
    entrySize: string,
    level: string,
    flushOnCommit: bool)

  datatype Compaction = Compaction(dynamic: bool, freeDiskBuffer: real, freeMemoryBuffer: real)

  datatype Raft = Raft(storage: Storage, compaction: Compaction, partitionSize: int)

  datatype PrimaryBackup = PrimaryBackup(memberGroupStrategy: string)

  datatype Log = Log(storage: Storage, compaction: Compaction, memberGroupStrategy: string)

  datatype ClusterSpec = ClusterSpec(
    version: string,
    size: Int32,
    env: Option<seq<EnvVar>>,
    resources: Resources,
    storage: Storage)

  datatype GroupSpec = GroupSpec(
    cluster: string,
    version: string,
    size: Int32,
    partitions: int,
    env: Option<seq<EnvVar>>,
    resources: Resources,
    raft: Option<Raft>,
    primaryBackup: Option<PrimaryBackup>,
    log: Option<Log>)

  datatype BenchmarkSpec = BenchmarkSpec(
    cluster: string,
    version: string,
    workers: Int32,
    env: Option<seq<EnvVar>>,
    resources: Resources)

  datatype Spec =
    | ForCluster(cluster: ClusterSpec)
    | ForGroup(group: GroupSpec)
    | ForBenchmark(benchmark: BenchmarkSpec)

  // ----- Defaulting -----

  const DEFAULT_VERSION := "3.1.0"
  const NODE_AWARE := "node_aware"
  const MAPPED_STORAGE := "mapped"

  function OrElse(s: string, default: string): string {
    if s == "" then default else s
  }

  function DefaultStorage(s: Storage): Storage {
    s.(size := OrElse(s.size, "2G"),
       segmentSize := OrElse(s.segmentSize, "64M"),
       entrySize := OrElse(s.entrySize, "1K"),
       level := OrElse(s.level, MAPPED_STORAGE))
  }

  function DefaultCompaction(c: Compaction): Compaction {
    c.(freeDiskBuffer := if c.freeDiskBuffer == 0.0 then 0.2 else c.freeDiskBuffer,
       freeMemoryBuffer := if c.freeMemoryBuffer == 0.0 then 0.2 else c.freeMemoryBuffer)
  }

  function DefaultRaft(r: Raft): Raft {
    Raft(DefaultStorage(r.storage), DefaultCompaction(r.compaction),
         if r.partitionSize == 0 then 3 else r.partitionSize)
  }

  function DefaultPrimaryBackup(p: PrimaryBackup): PrimaryBackup {
    PrimaryBackup(OrElse(p.memberGroupStrategy, NODE_AWARE))
  }

  function DefaultLog(l: Log): Log {
    Log(DefaultStorage(l.storage), DefaultCompaction(l.compaction),
        OrElse(l.memberGroupStrategy, NODE_AWARE))
  }

  function DefaultSize(n: Int32): Int32 {
    if n == 0 then 1 else n
  }

  function DefaultCluster(s: ClusterSpec): ClusterSpec {
    s.(version := OrElse(s.version, DEFAULT_VERSION),
       size := DefaultSize(s.size),
       storage := DefaultStorage(s.storage))
  }

  // Only the protocol that wins the dispatch below is defaulted.
  function DefaultProtocol(s: GroupSpec): GroupSpec {
    match s.raft
    case Some(r) => s.(raft := Some(DefaultRaft(r)))
    case None =>
      match s.primaryBackup
      case Some(p) => s.(primaryBackup := Some(DefaultPrimaryBackup(p)))
      case None =>
        match s.log
        case Some(l) => s.(log := Some(DefaultLog(l)))
        case None => s
  }

  function DefaultGroup(s: GroupSpec): GroupSpec {
    var size := DefaultSize(s.size);
    DefaultProtocol(
      s.(version := OrElse(s.version, DEFAULT_VERSION),
         size := size,
         partitions := if s.partitions == 0 then size else s.partitions))
  }

  function DefaultBenchmark(s: BenchmarkSpec): BenchmarkSpec {
    s.(version := OrElse(s.version, DEFAULT_VERSION), workers := DefaultSize(s.workers))
  }

  function Default(s: Spec): Spec {
    match s
    case ForCluster(c) => ForCluster(DefaultCluster(c))
    case ForGroup(g) => ForGroup(DefaultGroup(g))
    case ForBenchmark(b) => ForBenchmark(DefaultBenchmark(b))
  }

  // ----- The protocol of a partition group -----

  datatype Protocol = RaftProtocol | PrimaryBackupProtocol | LogProtocol

  // Raft, then primary-backup, then log; None is the "unknown partition group type" error.
  function GroupProtocol(s: GroupSpec): Option<Protocol> {
    if s.raft.Some? then Some(RaftProtocol)
    else if s.primaryBackup.Some? then Some(PrimaryBackupProtocol)
    else if s.log.Some? then Some(LogProtocol)
    else None
  }

  // The storage whose size the persistent StatefulSet claims.
  function GroupStorage(s: GroupSpec): Option<Storage> {
    match GroupProtocol(s)
    case Some(RaftProtocol) => Some(s.raft.value.storage)
    case Some(LogProtocol) => Some(s.log.value.storage)
    case _ => None
  }

  // ----- What defaulting fills in -----

  // b is a, with this value where a was left out.
  predicate FilledText(a: string, b: string, value: string) {
    b == if a == "" then value else a
  }

  predicate FilledNumber(a: int, b: int, value: int) {
    b == if a == 0 then value else a
  }

  predicate FilledBuffer(a: real, b: real) {
    b == if a == 0.0 then 0.2 else a
  }

  predicate FilledStorage(a: Storage, b: Storage) {
    && FilledText(a.size, b.size, "2G") && FilledText(a.segmentSize, b.segmentSize, "64M")
    && FilledText(a.entrySize, b.entrySize, "1K") && FilledText(a.level, b.level, "mapped")
    && b.className == a.className && b.flushOnCommit == a.flushOnCommit
  }

  predicate FilledCompaction(a: Compaction, b: Compaction) {
    && FilledBuffer(a.freeDiskBuffer, b.freeDiskBuffer) && FilledBuffer(a.freeMemoryBuffer, b.freeMemoryBuffer)
    && b.dynamic == a.dynamic
  }

  predicate FilledRaft(a: Raft, b: Raft) {
    && FilledNumber(a.partitionSize, b.partitionSize, 3)
    && FilledStorage(a.storage, b.storage) && FilledCompaction(a.compaction, b.compaction)
  }

  predicate FilledLog(a: Log, b: Log) {
    && FilledText(a.memberGroupStrategy, b.memberGroupStrategy, "node_aware")
    && FilledStorage(a.storage, b.storage) && FilledCompaction(a.compaction, b.compaction)
  }

  // Raft wins over primary-backup, and that over log; what does not win stays as it is.
  predicate FilledProtocol(a: GroupSpec, b: GroupSpec) {
    && (if a.raft.Some? then b.raft.Some? && FilledRaft(a.raft.value, b.raft.value) else b.raft.None?)
    && (if a.raft.None? && a.primaryBackup.Some?
        then && b.primaryBackup.Some?
             && FilledText(a.primaryBackup.value.memberGroupStrategy, b.primaryBackup.value.memberGroupStrategy,
                           "node_aware")
        else b.primaryBackup == a.primaryBackup)
    && (if a.raft.None? && a.primaryBackup.None? && a.log.Some?
        then b.log.Some? && FilledLog(a.log.value, b.log.value)
        else b.log == a.log)
  }

  predicate FilledGroup(a: GroupSpec, b: GroupSpec) {
    && b.cluster == a.cluster && b.env == a.env && b.resources == a.resources
    && FilledText(a.version, b.version, "3.1.0") && FilledNumber(a.size, b.size, 1)
    && FilledNumber(a.partitions, b.partitions, b.size) && FilledProtocol(a, b)
  }

  predicate FilledCluster(a: ClusterSpec, b: ClusterSpec) {
    && b.env == a.env && b.resources == a.resources
    && FilledText(a.version, b.version, "3.1.0") && FilledNumber(a.size, b.size, 1)
    && FilledStorage(a.storage, b.storage)
  }

  predicate FilledBenchmark(a: BenchmarkSpec, b: BenchmarkSpec) {
    && b.cluster == a.cluster && b.env == a.env && b.resources == a.resources
    && FilledText(a.version, b.version, "3.1.0") && FilledNumber(a.workers, b.workers, 1)
  }

  /** Defaulting a spec means filling in these values and nothing else: the filled specs are the
      defaulted ones, field by field, for all three kinds. */
  lemma ClusterFilled(a: ClusterSpec, b: ClusterSpec)
    ensures FilledCluster(a, b) <==> b == DefaultCluster(a)
  {
  }

  lemma BenchmarkFilled(a: BenchmarkSpec, b: BenchmarkSpec)
    ensures FilledBenchmark(a, b) <==> b == DefaultBenchmark(a)
  {
  }

  lemma StorageFilled(a: Storage, b: Storage)
    ensures FilledStorage(a, b) <==> b == DefaultStorage(a)
  {
  }

  lemma RaftFilled(a: Raft, b: Raft)
    ensures FilledRaft(a, b) <==> b == DefaultRaft(a)
  {
    StorageFilled(a.storage, b.storage);
    assert FilledCompaction(a.compaction, b.compaction) <==> b.compaction == DefaultCompaction(a.compaction);
  }

  lemma LogFilled(a: Log, b: Log)
    ensures FilledLog(a, b) <==> b == DefaultLog(a)
  {
    StorageFilled(a.storage, b.storage);
    assert FilledCompaction(a.compaction, b.compaction) <==> b.compaction == DefaultCompaction(a.compaction);
  }

  lemma ProtocolFilled(a: GroupSpec, b: GroupSpec)
    ensures b == DefaultProtocol(a) ==> FilledProtocol(a, b)
    ensures FilledProtocol(a, b) ==>
      var d := DefaultProtocol(a); b.raft == d.raft && b.primaryBackup == d.primaryBackup && b.log == d.log
  {
    if a.raft.Some? && b.raft.Some? {
      RaftFilled(a.raft.value, b.raft.value);
    }
    if a.log.Some? && b.log.Some? {
      LogFilled(a.log.value, b.log.value);
    }
  }

  lemma GroupFilled(a: GroupSpec, b: GroupSpec)
    ensures FilledGroup(a, b) <==> b == DefaultGroup(a)
  {
    var d := DefaultGroup(a);
    var scalars := a.(version := d.version, size := d.size, partitions := d.partitions);
    assert d == DefaultProtocol(scalars);
    ProtocolFilled(scalars, b);
    ProtocolFilled(scalars, d);
  }

  // ----- What defaulting guarantees -----

  // b agrees with a wherever a was set: `changed` only where the field was its zero value.
  predicate KeepsText(a: string, b: string) {
    a != "" ==> b == a
  }

  predicate KeepsStorage(a: Storage, b: Storage) {
    && KeepsText(a.size, b.size) && KeepsText(a.segmentSize, b.segmentSize)
    && KeepsText(a.entrySize, b.entrySize) && KeepsText(a.level, b.level)
    && a.className == b.className && a.flushOnCommit == b.flushOnCommit
  }

  predicate KeepsCompaction(a: Compaction, b: Compaction) {
    && a.dynamic == b.dynamic
    && (a.freeDiskBuffer != 0.0 ==> b.freeDiskBuffer == a.freeDiskBuffer)
    && (a.freeMemoryBuffer != 0.0 ==> b.freeMemoryBuffer == a.freeMemoryBuffer)
  }

  predicate KeepsRaft(a: Raft, b: Raft) {
    && KeepsStorage(a.storage, b.storage) && KeepsCompaction(a.compaction, b.compaction)
    && (a.partitionSize != 0 ==> b.partitionSize == a.partitionSize)
  }

  predicate KeepsLog(a: Log, b: Log) {
    && KeepsStorage(a.storage, b.storage) && KeepsCompaction(a.compaction, b.compaction)
    && KeepsText(a.memberGroupStrategy, b.memberGroupStrategy)
  }

  predicate KeepsGroup(a: GroupSpec, b: GroupSpec) {
    && a.cluster == b.cluster && a.env == b.env && a.resources == b.resources
    && KeepsText(a.version, b.version)
    && (a.size != 0 ==> b.size == a.size)
    && (a.partitions != 0 ==> b.partitions == a.partitions)
    && a.raft.Some? == b.raft.Some?
    && a.primaryBackup.Some? == b.primaryBackup.Some?
    && a.log.Some? == b.log.Some?
    && (a.raft.Some? ==> KeepsRaft(a.raft.value, b.raft.value))
    && (a.primaryBackup.Some? ==>
          KeepsText(a.primaryBackup.value.memberGroupStrategy, b.primaryBackup.value.memberGroupStrategy))
    && (a.log.Some? ==> KeepsLog(a.log.value, b.log.value))
  }

  predicate Keeps(a: Spec, b: Spec) {
    match (a, b)
    case (ForCluster(c), ForCluster(d)) =>
      && c.env == d.env && c.resources == d.resources && KeepsText(c.version, d.version)
      && (c.size != 0 ==> d.size == c.size) && KeepsStorage(c.storage, d.storage)
    case (ForGroup(g), ForGroup(h)) => KeepsGroup(g, h)
    case (ForBenchmark(c), ForBenchmark(d)) =>
      && c.cluster == d.cluster && c.env == d.env && c.resources == d.resources
      && KeepsText(c.version, d.version) && (c.workers != 0 ==> d.workers == c.workers)
    case _ => false
  }

  predicate CompleteStorage(s: Storage) {
    s.size != "" && s.segmentSize != "" && s.entrySize != "" && s.level != ""
  }

  // Every field that rendering reads has a usable value, and only the chosen protocol counts.
  predicate Complete(s: Spec) {
    match s
    case ForCluster(c) => c.version != "" && c.size != 0 && CompleteStorage(c.storage)
    case ForGroup(g) =>
      && g.version != "" && g.size != 0 && g.partitions != 0
      && (GroupProtocol(g) == Some(RaftProtocol) ==>
            g.raft.value.partitionSize != 0 && CompleteStorage(g.raft.value.storage))
      && (GroupProtocol(g) == Some(PrimaryBackupProtocol) ==> g.primaryBackup.value.memberGroupStrategy != "")
      && (GroupProtocol(g) == Some(LogProtocol) ==>
            g.log.value.memberGroupStrategy != "" && CompleteStorage(g.log.value.storage))
    case ForBenchmark(b) => b.version != "" && b.workers != 0
  }

  /** Defaulting fills every field that rendering reads, touches only zero-valued ones, and is
      idempotent; so a spec that is already complete is a fixpoint. Since the result is never
      written back to the API server, this is what makes every pass over the same raw spec see
      the same effective spec. It never changes which protocol a group runs, and a group that
      leaves its partition count out gets one partition per defaulted node. */
  lemma DefaultingFillsOnlyGaps(s: Spec)
    ensures Complete(Default(s))
    ensures Keeps(s, Default(s))
    ensures Default(Default(s)) == Default(s)
    ensures s.ForGroup? ==> GroupProtocol(Default(s).group) == GroupProtocol(s.group)
    ensures s.ForGroup? && s.group.partitions == 0 ==> Default(s).group.partitions == Default(s).group.size
  {
    if s.ForGroup? {
      DefaultingGroup(s.group);
      DefaultingGroupTwice(s.group);
    }
  }

  lemma DefaultingGroup(g: GroupSpec)
    ensures Complete(ForGroup(DefaultGroup(g))) && KeepsGroup(g, DefaultGroup(g))
    ensures GroupProtocol(DefaultGroup(g)) == GroupProtocol(g)
    ensures g.partitions == 0 ==> DefaultGroup(g).partitions == DefaultGroup(g).size
  {
  }

  lemma DefaultingGroupTwice(s: GroupSpec)
    ensures DefaultGroup(DefaultGroup(s)) == DefaultGroup(s)
  {
  }
}
