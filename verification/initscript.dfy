/**
 The create_config.sh script every cluster and group pod runs before Atomix starts: it takes
 the pod's host name apart, and prints the node's identity and the list of members.
 */
module InitScript {
  import opened Text

  // Pod k of a StatefulSet.
  function PodName(setName: string, k: nat): string {
    setName + "-" + Decimal(k)
  }

  // hostname -s: the host name up to its first dot.
  function ShortHost(host: string): (s: string)
    ensures |s| <= |host| && s == host[..|s|] && '.' !in s
    ensures |s| < |host| ==> host[|s|] == '.'
  {
    if host == "" || host[0] == '.' then "" else [host[0]] + ShortHost(host[1..])
  }

  // ----- The regular expression (.*)-([0-9]+)$ -----

  datatype Identity = Identity(name: string, ord: string)

  predicate Matches(host: string, id: Identity) {
    host == id.name + "-" + id.ord && id.ord != "" && AllDigits(id.ord)
  }

  // Where a match can put its hyphen: the largest such place at or below `at`.
  function HyphenBefore(host: string, at: nat): (r: Option<nat>)
    requires at <= |host|
    ensures r.Some? ==> r.value < at && host[r.value] == '-'
    ensures r.Some? ==> forall i :: r.value < i < at ==> host[i] != '-'
    ensures r.None? ==> forall i :: 0 <= i < at ==> host[i] != '-'
  {
    if at == 0 then None
    else if host[at - 1] == '-' then Some(at - 1)
    else HyphenBefore(host, at - 1)
  }

  // The greedy match. Digits contain no hyphen, so the group (.*) ends at the last one.
  function Match(host: string): Option<Identity> {
    match HyphenBefore(host, |host|)
    case None => None
    case Some(i) =>
      var id := Identity(host[..i], host[i + 1..]);
      if id.ord != "" && AllDigits(id.ord) then Some(id) else None
  }

  /** The match is sound, it is found whenever there is one, and it is the only one; so
      greediness never has a choice to make and the script fails on exactly the host names
      that do not end in a hyphen and digits. */
  lemma MatchIsTheMatch(host: string, id: Identity)
    ensures Matches(host, id) <==> Match(host) == Some(id)
  {
    if Matches(host, id) {
      var at := |id.name|;
      assert host[at] == '-' && host[at + 1..] == id.ord && host[..at] == id.name;
      assert forall j :: at < j < |host| ==> host[j] == id.ord[j - at - 1];
      assert HyphenBefore(host, |host|) == Some(at);
    }
    if Match(host).Some? {
      var i := HyphenBefore(host, |host|).value;
      assert host == host[..i] + "-" + host[i + 1..];
    }
  }

  lemma PodMatches(setName: string, k: nat)
    ensures Match(PodName(setName, k)) == Some(Identity(setName, Decimal(k)))
  {
    MatchIsTheMatch(PodName(setName, k), Identity(setName, Decimal(k)));
  }

  /** On the host of pod k the script recovers exactly the set's name and the ordinal, for any
      name (hyphens and digit runs included) and any ordinal, if and only if the name has no
      dot: hostname -s cuts at the first one. */
  lemma HostRoundTrip(setName: string, k: nat)
    ensures Match(ShortHost(PodName(setName, k))) == Some(Identity(setName, Decimal(k))) <==> '.' !in setName
  {
    var pod := PodName(setName, k);
    var short := ShortHost(pod);
    PodMatches(setName, k);
    if '.' !in setName {
      assert '.' !in pod;
      assert short == pod;
    } else {
      var i :| 0 <= i < |setName| && setName[i] == '.';
      assert pod[i] == '.' && forall j :: 0 <= j < |short| ==> short[j] == pod[j];
      assert |short| <= i;
      MatchIsTheMatch(short, Identity(setName, Decimal(k)));
    }
  }

  lemma PodNamesDiffer(a: string, i: nat, b: string, j: nat)
    ensures PodName(a, i) == PodName(b, j) <==> a == b && i == j
  {
    if PodName(a, i) == PodName(b, j) {
      PodMatches(a, i);
      PodMatches(b, j);
      DecimalInjective(i, j);
    }
  }

  // ----- The script -----

  // A successful run's properties file, or exit status 1.
  datatype Outcome = Failure | Properties(lines: seq<string>)

  const NODE_ID := "atomix.node.id"

  function Line(key: string, value: string): string {
    key + "=" + value
  }

  function MemberKey(i: nat): string {
    "atomix.members." + Decimal(i)
  }

  function Header(service: string, id: Identity, domain: string, nodes: string): seq<string> {
    [Line("atomix.service", service),
     Line(NODE_ID, id.name + "-" + id.ord),
     Line("atomix.node.host", id.name + "-" + id.ord + "." + domain),
     Line("atomix.node.port", "5679"),
     Line("atomix.replicas", nodes)]
  }

  function MemberLines(name: string, n: nat): (lines: seq<string>)
    ensures |lines| == n
    ensures forall i :: 0 <= i < n ==> lines[i] == Line(MemberKey(i), PodName(name, i))
  {
    if n == 0 then [] else MemberLines(name, n - 1) + [Line(MemberKey(n - 1), PodName(name, n - 1))]
  }

  // A loop that counts up from zero runs no time at all for a negative bound.
  function Rounds(nodes: int): nat {
    if nodes < 0 then 0 else nodes
  }

  function Script(service: string, host: string, domain: string, nodes: string): Outcome {
    match Match(ShortHost(host))
    case None => Failure
    case Some(id) =>
      var n := ReadInt(nodes);
      if n.None? then Failure
      else Properties(Header(service, id, domain, nodes) + MemberLines(id.name, Rounds(n.value)))
  }

  /** The script itself: its variables HOST, NAME and ORD, and the counting loop. */
  method CreateConfig(service: string, host: string, domain: string, nodes: string) returns (out: Outcome)
    ensures out == Script(service, host, domain, nodes)
  {
    var matched := Match(ShortHost(host));
    if matched.None? {
      return Failure;
    }
    var name, ord := matched.value.name, matched.value.ord;
    var bound := ReadInt(nodes);
    if bound.None? {
      return Failure;
    }
    var lines := Header(service, Identity(name, ord), domain, nodes);
    var i := 0;
    while i < bound.value
      invariant 0 <= i <= Rounds(bound.value)
      invariant lines == Header(service, Identity(name, ord), domain, nodes) + MemberLines(name, i)
    {
      lines := lines + [Line(MemberKey(i), name + "-" + Decimal(i))];
      i := i + 1;
    }
    return Properties(lines);
  }

  // ----- Reading the properties file -----

  // The value of the first line that sets the key.
  function Property(lines: seq<string>, key: string): Option<string> {
    if lines == [] then None
    else if key + "=" <= lines[0] then Some(lines[0][|key| + 1..])
    else Property(lines[1..], key)
  }

  lemma {:induction false} PropertyAt(lines: seq<string>, key: string, at: nat)
    requires at < |lines| && key + "=" <= lines[at]
    requires forall i :: 0 <= i < at ==> !(key + "=" <= lines[i])
    ensures Property(lines, key) == Some(lines[at][|key| + 1..])
  {
    if at == 0 {
    } else {
      PropertyAt(lines[1..], key, at - 1);
    }
  }

  lemma {:induction false} NoProperty(lines: seq<string>, key: string)
    requires forall i :: 0 <= i < |lines| ==> !(key + "=" <= lines[i])
    ensures Property(lines, key) == None
  {
    if lines == [] {
    } else {
      NoProperty(lines[1..], key);
    }
  }

  // Two keys without '=' on one line are the same key.
  lemma LineKey(key: string, other: string, value: string)
    requires '=' !in key && '=' !in other
    ensures key + "=" <= Line(other, value) <==> key == other
  {
    var line := Line(other, value);
    assert line == (other + "=") + value && line[|other|] == '=' && line[..|other|] == other;
    if key + "=" <= line {
      assert line[|key|] == (key + "=")[|key|] && line[..|key|] == key;
      assert |key| == |other|;
    }
  }

  lemma LineValue(key: string, value: string)
    ensures Line(key, value)[|key| + 1..] == value
  {
  }

  // Line i is the first one for its key, and the key has no '='.
  ghost predicate FirstFor(lines: seq<string>, i: nat, key: string, value: string) {
    && i < |lines| && lines[i] == Line(key, value)
    && forall j :: 0 <= j < i ==> !(key + "=" <= lines[j])
  }

  lemma FirstIsRead(lines: seq<string>, i: nat, key: string, value: string)
    requires FirstFor(lines, i, key, value)
    ensures Property(lines, key) == Some(value)
  {
    LineValue(key, value);
    assert lines[i] == (key + "=") + value;
    PropertyAt(lines, key, i);
  }

  const SERVICE_KEY := "atomix.service"
  const HOST_KEY := "atomix.node.host"
  const PORT_KEY := "atomix.node.port"
  const REPLICAS_KEY := "atomix.replicas"

  lemma FixedKeys()
    ensures '=' !in SERVICE_KEY && '=' !in NODE_ID && '=' !in HOST_KEY && '=' !in PORT_KEY && '=' !in REPLICAS_KEY
    ensures SERVICE_KEY != NODE_ID && HOST_KEY != PORT_KEY
    ensures SERVICE_KEY !in {HOST_KEY, PORT_KEY, REPLICAS_KEY} && NODE_ID !in {HOST_KEY, PORT_KEY, REPLICAS_KEY}
    ensures REPLICAS_KEY !in {HOST_KEY, PORT_KEY}
  {
    assert SERVICE_KEY[7] == 's' && NODE_ID[7] == 'n' && REPLICAS_KEY[7] == 'r';
    assert HOST_KEY[12] == 'h' && PORT_KEY[12] == 'p' && HOST_KEY[7] == 'n' && PORT_KEY[7] == 'n';
    assert |NODE_ID| == 14 && |HOST_KEY| == 16 && |PORT_KEY| == 16;
  }

  // The lines that every script starts with.
  ghost predicate StartsWith(lines: seq<string>, service: string, id: string, host: string) {
    && 4 <= |lines| && lines[0] == Line(SERVICE_KEY, service) && lines[1] == Line(NODE_ID, id)
    && lines[2] == Line(HOST_KEY, host) && lines[3] == Line(PORT_KEY, "5679")
  }

  lemma ServiceAndId(lines: seq<string>, service: string, id: string, host: string)
    requires StartsWith(lines, service, id, host)
    ensures Property(lines, SERVICE_KEY) == Some(service) && Property(lines, NODE_ID) == Some(id)
  {
    FixedKeys();
    DifferentKey(NODE_ID, SERVICE_KEY, service);
    FirstIsRead(lines, 0, SERVICE_KEY, service);
    FirstIsRead(lines, 1, NODE_ID, id);
  }

  lemma HostLine(lines: seq<string>, service: string, id: string, host: string)
    requires StartsWith(lines, service, id, host)
    ensures Property(lines, HOST_KEY) == Some(host)
  {
    FixedKeys();
    DifferentKey(HOST_KEY, SERVICE_KEY, service);
    DifferentKey(HOST_KEY, NODE_ID, id);
    FirstIsRead(lines, 2, HOST_KEY, host);
  }

  lemma PortLine(lines: seq<string>, service: string, id: string, host: string)
    requires StartsWith(lines, service, id, host)
    ensures Property(lines, PORT_KEY) == Some("5679")
  {
    FixedKeys();
    DifferentKey(PORT_KEY, SERVICE_KEY, service);
    DifferentKey(PORT_KEY, NODE_ID, id);
    DifferentKey(PORT_KEY, HOST_KEY, host);
    FirstIsRead(lines, 3, PORT_KEY, "5679");
  }

  lemma ReplicasLine(lines: seq<string>, service: string, id: string, host: string, nodes: string)
    requires StartsWith(lines, service, id, host) && 4 < |lines| && lines[4] == Line(REPLICAS_KEY, nodes)
    ensures Property(lines, REPLICAS_KEY) == Some(nodes)
  {
    FixedKeys();
    DifferentKey(REPLICAS_KEY, SERVICE_KEY, service);
    DifferentKey(REPLICAS_KEY, NODE_ID, id);
    DifferentKey(REPLICAS_KEY, HOST_KEY, host);
    DifferentKey(REPLICAS_KEY, PORT_KEY, "5679");
    FirstIsRead(lines, 4, REPLICAS_KEY, nodes);
  }

  lemma DifferentKey(key: string, other: string, value: string)
    requires '=' !in key && '=' !in other && key != other
    ensures !(key + "=" <= Line(other, value))
  {
    LineKey(key, other, value);
  }

  /** What every successful run of the script says besides the members: the service it was printed
      for, the pod's own short host name as its node id, that id under the pod's domain as its
      host, the port, and the argument it was given. */
  lemma ScriptSays(service: string, host: string, domain: string, nodes: string)
    requires Script(service, host, domain, nodes).Properties?
    ensures var lines := Script(service, host, domain, nodes).lines;
      && Property(lines, "atomix.service") == Some(service)
      && Property(lines, "atomix.node.id") == Some(ShortHost(host))
      && Property(lines, "atomix.node.host") == Some(ShortHost(host) + "." + domain)
      && Property(lines, "atomix.node.port") == Some("5679")
      && Property(lines, "atomix.replicas") == Some(nodes)
  {
    var id := Match(ShortHost(host)).value;
    MatchIsTheMatch(ShortHost(host), id);
    var lines, nodeId := Script(service, host, domain, nodes).lines, ShortHost(host);
    ServiceAndId(lines, service, nodeId, nodeId + "." + domain);
    HostLine(lines, service, nodeId, nodeId + "." + domain);
    PortLine(lines, service, nodeId, nodeId + "." + domain);
    ReplicasLine(lines, service, nodeId, nodeId + "." + domain, nodes);
  }

  // The script of a benchmark's coordinator: no members, and a host of its own.
  function CoordinatorLines(service: string, nodeHost: string, host: string): seq<string> {
    [Line("atomix.service", service), Line(NODE_ID, ShortHost(host)),
     Line("atomix.node.host", nodeHost), Line("atomix.node.port", "5679")]
  }

  lemma CoordinatorSays(service: string, nodeHost: string, host: string)
    ensures var lines := CoordinatorLines(service, nodeHost, host);
      && Property(lines, "atomix.service") == Some(service)
      && Property(lines, "atomix.node.id") == Some(ShortHost(host))
      && Property(lines, "atomix.node.host") == Some(nodeHost)
      && Property(lines, "atomix.node.port") == Some("5679")
      && forall i: nat :: Property(lines, "atomix.members." + Decimal(i)) == None
  {
    var lines := CoordinatorLines(service, nodeHost, host);
    ServiceAndId(lines, service, ShortHost(host), nodeHost);
    HostLine(lines, service, ShortHost(host), nodeHost);
    PortLine(lines, service, ShortHost(host), nodeHost);
    forall i: nat
      ensures Property(lines, "atomix.members." + Decimal(i)) == None
    {
      NoMember(lines, service, ShortHost(host), nodeHost, i);
    }
  }

  lemma NoMember(lines: seq<string>, service: string, id: string, host: string, i: nat)
    requires StartsWith(lines, service, id, host) && |lines| == 4
    ensures Property(lines, MemberKey(i)) == None
  {
    MemberKeyPlain(i);
    FixedKeys();
    var key := MemberKey(i);
    assert SERVICE_KEY[7] == 's' && NODE_ID[7] == 'n' && HOST_KEY[7] == 'n' && PORT_KEY[7] == 'n';
    DifferentKey(key, SERVICE_KEY, service);
    DifferentKey(key, NODE_ID, id);
    DifferentKey(key, HOST_KEY, host);
    DifferentKey(key, PORT_KEY, "5679");
    NoProperty(lines, key);
  }

  lemma MemberKeyPlain(i: nat)
    ensures '=' !in MemberKey(i) && MemberKey(i)[7] == 'm'
  {
  }

  lemma MemberKeyInjective(i: nat, j: nat)
    ensures MemberKey(i) == MemberKey(j) <==> i == j
  {
    if MemberKey(i) == MemberKey(j) {
      SameHead("atomix.members.", Decimal(i), Decimal(j));
      DecimalInjective(i, j);
    }
  }

  lemma HeaderKeys(service: string, id: Identity, domain: string, nodes: string, j: nat)
    ensures var h := Header(service, id, domain, nodes);
      && (forall i :: 0 <= i < 5 ==> !(MemberKey(j) + "=" <= h[i]))
      && !(NODE_ID + "=" <= h[0]) && NODE_ID + "=" <= h[1]
  {
    var h := Header(service, id, domain, nodes);
    var key := MemberKey(j) + "=";
    MemberKeyPlain(j);
    assert key[7] == 'm';
    assert h[0][7] == 's' && h[1][7] == 'n' && h[2][7] == 'n' && h[3][7] == 'n' && h[4][7] == 'r';
    assert (NODE_ID + "=")[7] == 'n';
    assert h[1] == (NODE_ID + "=") + (id.name + "-" + id.ord);
  }

  // ----- Node ids -----

  // The id the script prints for the node on this host, if it succeeds.
  function NodeId(service: string, host: string, domain: string, nodes: string): Option<string> {
    match Script(service, host, domain, nodes)
    case Failure => None
    case Properties(lines) => Property(lines, NODE_ID)
  }

  lemma NodeIdIs(service: string, setName: string, k: nat, domain: string, nodes: string)
    requires '.' !in setName && ReadInt(nodes).Some?
    ensures NodeId(service, PodName(setName, k), domain, nodes) == Some(PodName(setName, k))
  {
    HostRoundTrip(setName, k);
    var id := Identity(setName, Decimal(k));
    var lines := Header(service, id, domain, nodes) + MemberLines(setName, Rounds(ReadInt(nodes).value));
    assert Script(service, PodName(setName, k), domain, nodes) == Properties(lines);
    HeaderKeys(service, id, domain, nodes, 0);
    PropertyAt(lines, NODE_ID, 1);
    LineValue(NODE_ID, PodName(setName, k));
  }

  // The host of a pod, and what its init container passes to the script.
  datatype PodRun = PodRun(service: string, setName: string, ordinal: nat, domain: string, nodes: string)

  function RunId(r: PodRun): Option<string> {
    NodeId(r.service, PodName(r.setName, r.ordinal), r.domain, r.nodes)
  }

  /** Node ids are global. Whatever services, domains and sizes their scripts were printed for,
      two pods of sets without dots in their names succeed, and print the same id only if they
      are the same pod of the same set. */
  lemma NodeIdsNeverCoincide(a: PodRun, b: PodRun)
    requires '.' !in a.setName && '.' !in b.setName && ReadInt(a.nodes).Some? && ReadInt(b.nodes).Some?
    ensures RunId(a).Some? && RunId(b).Some?
    ensures RunId(a) == RunId(b) <==> a.setName == b.setName && a.ordinal == b.ordinal
  {
    NodeIdIs(a.service, a.setName, a.ordinal, a.domain, a.nodes);
    NodeIdIs(b.service, b.setName, b.ordinal, b.domain, b.nodes);
    PodNamesDiffer(a.setName, a.ordinal, b.setName, b.ordinal);
  }

  lemma {:induction false} ShortStopsAtDot(s: string, t: string)
    requires '.' in s
    ensures ShortHost(s + t) == ShortHost(s)
  {
    if s[0] == '.' {
    } else {
      assert (s + t)[1..] == s[1..] + t;
      ShortStopsAtDot(s[1..], t);
    }
  }

  // Both pods succeed, with different ids.
  predicate DifferentIds(a: PodRun, b: PodRun) {
    RunId(a).Some? && RunId(b).Some? && RunId(a) != RunId(b)
  }

  ghost predicate AllDifferent(service: string, setName: string, n: nat, domain: string, nodes: string) {
    forall i: nat, j: nat :: i < j < n ==>
      DifferentIds(PodRun(service, setName, i, domain, nodes), PodRun(service, setName, j, domain, nodes))
  }

  /** The condition is exact: the pods of a set of at least two replicas all get ids of their own
      if and only if the set's name has no dot. With a dot they all print the same thing. */
  lemma DotsLoseIds(service: string, setName: string, n: nat, domain: string, nodes: string)
    requires 2 <= n && ReadInt(nodes).Some?
    ensures AllDifferent(service, setName, n, domain, nodes) <==> '.' !in setName
  {
    if '.' !in setName {
      forall i: nat, j: nat | i < j < n
        ensures DifferentIds(PodRun(service, setName, i, domain, nodes), PodRun(service, setName, j, domain, nodes))
      {
        NodeIdsNeverCoincide(PodRun(service, setName, i, domain, nodes), PodRun(service, setName, j, domain, nodes));
      }
    } else {
      DottedPod(setName, 0);
      DottedPod(setName, 1);
      assert !DifferentIds(PodRun(service, setName, 0, domain, nodes), PodRun(service, setName, 1, domain, nodes));
    }
  }

  lemma DottedPod(setName: string, k: nat)
    requires '.' in setName
    ensures ShortHost(PodName(setName, k)) == ShortHost(setName)
  {
    assert PodName(setName, k) == setName + ("-" + Decimal(k));
    ShortStopsAtDot(setName, "-" + Decimal(k));
  }

  // ----- Membership -----

  // What the file on pod k of n says about the members.
  ghost predicate AgreedMembers(lines: seq<string>, setName: string, n: nat, k: nat) {
    && Property(lines, "atomix.node.id") == Some(setName + "-" + Decimal(k))
    && (forall i: nat :: Property(lines, "atomix.members." + Decimal(i)) ==
          if i < n then Some(setName + "-" + Decimal(i)) else None)
    && (forall i: nat ::
          Property(lines, "atomix.members." + Decimal(i)) == Property(lines, "atomix.node.id") <==> i == k)
  }

  /** Membership agreement. For a StatefulSet of n replicas whose name has no dot, and with a text in
      ATOMIX_NODES that reads as n, the script succeeds on every pod k; the file it
      writes names pod k as this node, lists pod i as member i for every i below n and no other
      member; so all n pods agree on one list of n different members, and node k is member k
      and no other. */
  lemma MembershipAgreement(service: string, setName: string, n: nat, k: nat, domain: string, nodes: string)
    requires '.' !in setName && k < n && ReadInt(nodes) == Some(n)
    ensures Script(service, PodName(setName, k), domain, nodes).Properties?
    ensures AgreedMembers(Script(service, PodName(setName, k), domain, nodes).lines, setName, n, k)
  {
    HostRoundTrip(setName, k);
    var id := Identity(setName, Decimal(k));
    var header, members := Header(service, id, domain, nodes), MemberLines(setName, n);
    var lines := header + members;
    assert Script(service, PodName(setName, k), domain, nodes) == Properties(lines);
    NodeIdIs(service, setName, k, domain, nodes);
    forall i: nat
      ensures Property(lines, "atomix.members." + Decimal(i)) ==
                if i < n then Some(setName + "-" + Decimal(i)) else None
      ensures Property(lines, "atomix.members." + Decimal(i)) == Property(lines, "atomix.node.id") <==> i == k
    {
      MemberProperty(service, id, domain, nodes, n, i);
      PodNamesDiffer(setName, i, setName, k);
    }
  }

  lemma MemberProperty(service: string, id: Identity, domain: string, nodes: string, n: nat, i: nat)
    ensures Property(Header(service, id, domain, nodes) + MemberLines(id.name, n), MemberKey(i))
         == if i < n then Some(PodName(id.name, i)) else None
  {
    var header, members := Header(service, id, domain, nodes), MemberLines(id.name, n);
    var lines := header + members;
    HeaderKeys(service, id, domain, nodes, i);
    forall j | 5 <= j < |lines|
      ensures MemberKey(i) + "=" <= lines[j] <==> j == 5 + i
    {
      MemberKeyPlain(i);
      MemberKeyPlain(j - 5);
      LineKey(MemberKey(i), MemberKey(j - 5), PodName(id.name, j - 5));
      MemberKeyInjective(i, j - 5);
    }
    if i < n {
      PropertyAt(lines, MemberKey(i), 5 + i);
      LineValue(MemberKey(i), PodName(id.name, i));
    } else {
      NoProperty(lines, MemberKey(i));
    }
  }
}
