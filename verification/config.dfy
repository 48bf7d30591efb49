/**
 The atomix.conf a partition group's nodes read: the three templates the operator prints, a
 reader for them, and exactly what the printed text does and does not determine.
 */
module Config {
  import opened Text
  import opened Specs

  // What a group's configuration says: its name and the settings of the protocol it runs.
  datatype Settings =
    | RaftSettings(name: string, partitions: int, partitionSize: int, level: string)
    | PrimaryBackupSettings(name: string, partitions: int, strategy: string)
    | LogSettings(name: string, partitions: int, strategy: string, level: string)

  function EffectiveSettings(name: string, s: GroupSpec): Option<Settings> {
    match GroupProtocol(s)
    case Some(RaftProtocol) =>
      Some(RaftSettings(name, s.partitions, s.raft.value.partitionSize, s.raft.value.storage.level))
    case Some(PrimaryBackupProtocol) =>
      Some(PrimaryBackupSettings(name, s.partitions, s.primaryBackup.value.memberGroupStrategy))
    case Some(LogProtocol) =>
      Some(LogSettings(name, s.partitions, s.log.value.memberGroupStrategy, s.log.value.storage.level))
    case None => None
  }

  function ProtocolOf(s: Settings): Protocol {
    match s
    case RaftSettings(_, _, _, _) => RaftProtocol
    case PrimaryBackupSettings(_, _, _) => PrimaryBackupProtocol
    case LogSettings(_, _, _, _) => LogProtocol
  }

  // ----- Printing -----

  // The block that every atomix.conf starts with: where a node finds itself and its cluster.
  const DISCOVERY :=
    "\ncluster {\n    node: ${atomix.node}\n\n"
    + "    discovery {\n        type: dns\n        service: ${atomix.service},\n    }\n}"

  // The pieces of the templates around what is printed into them.
  const HEAD := DISCOVERY + "\n\npartitionGroups."
  const TYPE_LINE := " {\n    type: "
  const PARTITIONS_LINE := "\n    partitions: "
  const PARTITION_SIZE_LINE := "\n    partitionSize: "
  const STRATEGY_LINE := "\n    memberGroupStrategy: "
  const LEVEL_LINE := "\n    storage.level: "
  const MEMBERS_LINE := "\n    members: ${atomix.members}" + LEVEL_LINE
  const END := "\n}\n"

  function TypeWord(p: Protocol): string {
    match p
    case RaftProtocol => "raft"
    case PrimaryBackupProtocol => "primary-backup"
    case LogProtocol => "log"
  }

  // The free text of a log group: its strategy, the template's next line, its storage level.
  function LogBody(s: Settings): string
    requires s.LogSettings?
  {
    s.strategy + LEVEL_LINE + s.level
  }

  // What follows the partition count.
  function Fields(s: Settings): string {
    match s
    case RaftSettings(_, _, partitionSize, level) =>
      PARTITION_SIZE_LINE + (Print(partitionSize) + (MEMBERS_LINE + (level + END)))
    case PrimaryBackupSettings(_, _, strategy) => STRATEGY_LINE + (strategy + END)
    case LogSettings(_, _, _, _) => STRATEGY_LINE + (LogBody(s) + END)
  }

  function ConfigText(s: Settings): string {
    HEAD + (s.name + (TYPE_LINE + (TypeWord(ProtocolOf(s)) + (PARTITIONS_LINE + (Print(s.partitions) + Fields(s))))))
  }

  /** The three templates, each with what is printed into it in its place. */
  lemma PrintedTexts(name: string, partitions: int, size: int, strategy: string, level: string)
    ensures ConfigText(RaftSettings(name, partitions, size, level)) ==
      DISCOVERY + "\n\npartitionGroups." + (name + (" {\n    type: " + ("raft"
      + ("\n    partitions: " + (Print(partitions) + ("\n    partitionSize: " + (Print(size)
      + ("\n    members: ${atomix.members}" + "\n    storage.level: " + (level + "\n}\n")))))))))
    ensures ConfigText(PrimaryBackupSettings(name, partitions, strategy)) ==
      DISCOVERY + "\n\npartitionGroups." + (name + (" {\n    type: " + ("primary-backup"
      + ("\n    partitions: " + (Print(partitions) + ("\n    memberGroupStrategy: " + (strategy + "\n}\n")))))))
    ensures ConfigText(LogSettings(name, partitions, strategy, level)) ==
      DISCOVERY + "\n\npartitionGroups." + (name + (" {\n    type: " + ("log"
      + ("\n    partitions: " + (Print(partitions) + ("\n    memberGroupStrategy: "
      + (strategy + "\n    storage.level: " + level + "\n}\n")))))))
  {
  }

  // ----- Reading back -----

  // What every template starts with, and the text after it.
  datatype Header = Header(name: string, protocol: Protocol, partitions: int, rest: string)

  function Skip(text: string, head: string): Option<string> {
    if head <= text then Some(text[|head|..]) else None
  }

  function ReadProtocolWord(word: string): Option<Protocol> {
    if word == "raft" then Some(RaftProtocol)
    else if word == "primary-backup" then Some(PrimaryBackupProtocol)
    else if word == "log" then Some(LogProtocol)
    else None
  }

  // A word in front of a fixed piece of the template, and the text after both.
  datatype Split = Split(word: string, rest: string)

  function SplitAt(text: string, line: string): Option<Split> {
    var n := WordLength(text);
    match Skip(text[n..], line)
    case None => None
    case Some(rest) => Some(Split(text[..n], rest))
  }

  function ReadCount(name: string, p: Protocol, text: string): Option<Header> {
    var n := WordLength(text);
    match ReadInt(text[..n])
    case None => None
    case Some(partitions) => Some(Header(name, p, partitions, text[n..]))
  }

  function ReadHeader(text: string): Option<Header> {
    match Skip(text, HEAD)
    case None => None
    case Some(body) =>
      match SplitAt(body, TYPE_LINE)
      case None => None
      case Some(named) =>
        match SplitAt(named.rest, PARTITIONS_LINE)
        case None => None
        case Some(typed) =>
          match ReadProtocolWord(typed.word)
          case None => None
          case Some(p) => ReadCount(named.word, p, typed.rest)
  }

  function ReadProtocol(text: string): Option<Protocol> {
    match ReadHeader(text)
    case None => None
    case Some(h) => Some(h.protocol)
  }

  // The text up to the end of the template.
  function Unended(text: string): Option<string> {
    if |END| <= |text| && text[|text| - |END|..] == END then Some(text[..|text| - |END|]) else None
  }

  predicate LevelLineAt(text: string, i: nat) {
    i + |LEVEL_LINE| <= |text| && text[i..i + |LEVEL_LINE|] == LEVEL_LINE
  }

  function FirstLevelLine(text: string, from: nat): (r: Option<nat>)
    ensures r.Some? ==> from <= r.value && LevelLineAt(text, r.value)
    ensures r.Some? ==> forall i :: from <= i < r.value ==> !LevelLineAt(text, i)
    ensures r.None? ==> forall i :: from <= i ==> !LevelLineAt(text, i)
    decreases |text| - from
  {
    if |text| <= from then None
    else if LevelLineAt(text, from) then Some(from)
    else FirstLevelLine(text, from + 1)
  }

  function ReadRaft(h: Header): Option<Settings> {
    match Skip(h.rest, PARTITION_SIZE_LINE)
    case None => None
    case Some(text) =>
      match SplitAt(text, MEMBERS_LINE)
      case None => None
      case Some(sized) =>
        var size, level := ReadInt(sized.word), Unended(sized.rest);
        if size.None? || level.None? then None
        else Some(RaftSettings(h.name, h.partitions, size.value, level.value))
  }

  // The strategy, or the free text of a log group.
  function ReadStrategy(h: Header): Option<string> {
    match Skip(h.rest, STRATEGY_LINE)
    case None => None
    case Some(text) => Unended(text)
  }

  function ReadLog(h: Header, body: string): Option<Settings> {
    match FirstLevelLine(body, 0)
    case None => None
    case Some(i) => Some(LogSettings(h.name, h.partitions, body[..i], body[i + |LEVEL_LINE|..]))
  }

  function ReadConfig(text: string): Option<Settings> {
    match ReadHeader(text)
    case None => None
    case Some(h) =>
      if h.protocol.RaftProtocol? then ReadRaft(h)
      else
        match ReadStrategy(h)
        case None => None
        case Some(body) =>
          if h.protocol.LogProtocol? then ReadLog(h, body)
          else Some(PrimaryBackupSettings(h.name, h.partitions, body))
  }

  // ----- The round trip -----

  lemma SkipIs(head: string, rest: string)
    ensures Skip(head + rest, head) == Some(rest)
  {
  }

  lemma SplitIs(word: string, line: string, rest: string)
    requires NoSpace(word) && line != "" && IsSpace(line[0])
    ensures SplitAt(word + (line + rest), line) == Some(Split(word, rest))
  {
    WordStops(word, line + rest);
    SkipIs(line, rest);
  }

  lemma CountIs(name: string, p: Protocol, n: int, rest: string)
    requires rest != "" && IsSpace(rest[0])
    ensures ReadCount(name, p, Print(n) + rest) == Some(Header(name, p, n, rest))
  {
    PrintHasNoSpace(n);
    WordStops(Print(n), rest);
    ReadIntPrint(n);
  }

  lemma TypeWordIs(p: Protocol)
    ensures NoSpace(TypeWord(p)) && ReadProtocolWord(TypeWord(p)) == Some(p)
  {
  }

  /** What a printed text says first can always be read off it, whatever blanks or braces its
      free-text fields contain: the name, the protocol and the partition count. */
  lemma HeaderRoundTrip(s: Settings)
    requires NoSpace(s.name)
    ensures ReadHeader(ConfigText(s)) == Some(Header(s.name, ProtocolOf(s), s.partitions, Fields(s)))
  {
    var p := ProtocolOf(s);
    var counted := Print(s.partitions) + Fields(s);
    var typed := TypeWord(p) + (PARTITIONS_LINE + counted);
    SkipIs(HEAD, s.name + (TYPE_LINE + typed));
    SplitIs(s.name, TYPE_LINE, typed);
    TypeWordIs(p);
    SplitIs(TypeWord(p), PARTITIONS_LINE, counted);
    FieldsStart(s);
    CountIs(s.name, p, s.partitions, Fields(s));
  }

  lemma FieldsStart(s: Settings)
    ensures Fields(s) != "" && IsSpace(Fields(s)[0])
  {
  }

  lemma UnendedIs(text: string)
    ensures Unended(text + END) == Some(text)
  {
  }

  lemma RaftRoundTrip(s: Settings)
    requires s.RaftSettings?
    ensures ReadRaft(Header(s.name, RaftProtocol, s.partitions, Fields(s))) == Some(s)
  {
    var tail := s.level + END;
    SkipIs(PARTITION_SIZE_LINE, Print(s.partitionSize) + (MEMBERS_LINE + tail));
    PrintHasNoSpace(s.partitionSize);
    assert MEMBERS_LINE[0] == "\n    members: ${atomix.members}"[0];
    SplitIs(Print(s.partitionSize), MEMBERS_LINE, tail);
    ReadIntPrint(s.partitionSize);
    UnendedIs(s.level);
  }

  lemma StrategyRoundTrip(h: Header, body: string)
    requires h.rest == STRATEGY_LINE + (body + END)
    ensures ReadStrategy(h) == Some(body)
  {
    SkipIs(STRATEGY_LINE, body + END);
    UnendedIs(body);
  }

  // No earlier place of a log group's free text looks like the line between its two fields.
  predicate ReadsBack(s: Settings) {
    s.LogSettings? ==> FirstLevelLine(LogBody(s), 0) == Some(|s.strategy|)
  }

  lemma LogRoundTrip(s: Settings)
    requires s.LogSettings?
    ensures ReadLog(Header(s.name, LogProtocol, s.partitions, Fields(s)), LogBody(s)) == Some(s) <==> ReadsBack(s)
  {
    LevelLineIsThere(s);
    var i := FirstLevelLine(LogBody(s), 0);
    if i == Some(|s.strategy|) {
      assert LogBody(s)[..|s.strategy|] == s.strategy;
      assert LogBody(s)[|s.strategy| + |LEVEL_LINE|..] == s.level;
    }
  }

  lemma LevelLineIsThere(s: Settings)
    requires s.LogSettings?
    ensures LevelLineAt(LogBody(s), |s.strategy|)
  {
    assert LogBody(s)[|s.strategy|..|s.strategy| + |LEVEL_LINE|] == LEVEL_LINE;
  }

  /** The round trip: type, name, partitions and the protocol-specific fields are read back from
      the printed text, for raft and primary-backup groups whatever their free text, and for log
      groups if and only if the line between the two fields does not occur earlier. */
  lemma ConfigRoundTrip(s: Settings)
    requires NoSpace(s.name)
    ensures ReadConfig(ConfigText(s)) == Some(s) <==> ReadsBack(s)
  {
    HeaderRoundTrip(s);
    match s
    case RaftSettings(_, _, _, _) => RaftRoundTrip(s);
    case PrimaryBackupSettings(_, _, strategy) =>
      StrategyRoundTrip(Header(s.name, PrimaryBackupProtocol, s.partitions, Fields(s)), strategy);
    case LogSettings(_, _, _, _) =>
      StrategyRoundTrip(Header(s.name, LogProtocol, s.partitions, Fields(s)), LogBody(s));
      LogRoundTrip(s);
  }

  // ----- What equal texts mean -----

  // Two log groups that differ at most in where strategy ends and level begins.
  predicate SameLogBody(s: Settings, t: Settings) {
    && s.LogSettings? && t.LogSettings? && s.name == t.name && s.partitions == t.partitions
    && LogBody(s) == LogBody(t)
  }

  /** Equal texts mean equal effective settings, except for one family: log groups of the same
      name and partitions whose strategy and level, with the template's line between them, spell
      the same text. */
  lemma EqualTexts(s: Settings, t: Settings)
    requires NoSpace(s.name) && NoSpace(t.name)
    ensures ConfigText(s) == ConfigText(t) <==> s == t || SameLogBody(s, t)
  {
    if ConfigText(s) == ConfigText(t) {
      HeaderRoundTrip(s);
      HeaderRoundTrip(t);
      EqualFields(s, t);
    }
  }

  lemma EqualFields(s: Settings, t: Settings)
    requires s.name == t.name && ProtocolOf(s) == ProtocolOf(t) && s.partitions == t.partitions
    requires Fields(s) == Fields(t)
    ensures s == t || SameLogBody(s, t)
  {
    match s
    case RaftSettings(_, _, _, _) =>
      RaftRoundTrip(s);
      RaftRoundTrip(t);
    case PrimaryBackupSettings(_, _, _) =>
      StrategyRoundTrip(Header(s.name, PrimaryBackupProtocol, s.partitions, Fields(s)), s.strategy);
      StrategyRoundTrip(Header(s.name, PrimaryBackupProtocol, s.partitions, Fields(s)), t.strategy);
    case LogSettings(_, _, _, _) =>
      StrategyRoundTrip(Header(s.name, LogProtocol, s.partitions, Fields(s)), LogBody(s));
      StrategyRoundTrip(Header(s.name, LogProtocol, s.partitions, Fields(s)), LogBody(t));
  }

  // Some other settings with a proper name print the same text.
  ghost predicate Ambiguous(s: Settings) {
    exists t: Settings :: NoSpace(t.name) && t != s && ConfigText(t) == ConfigText(s)
  }

  // The settings with the boundary between strategy and level moved to i.
  function Moved(s: Settings, i: nat): Settings
    requires s.LogSettings? && LevelLineAt(LogBody(s), i)
  {
    LogSettings(s.name, s.partitions, LogBody(s)[..i], LogBody(s)[i + |LEVEL_LINE|..])
  }

  lemma MovedSameBody(s: Settings, i: nat)
    requires s.LogSettings? && LevelLineAt(LogBody(s), i)
    ensures LogBody(Moved(s, i)) == LogBody(s) && |Moved(s, i).strategy| == i
  {
    var body := LogBody(s);
    assert body[..i] + body[i..i + |LEVEL_LINE|] + body[i + |LEVEL_LINE|..] == body;
  }

  lemma SamePlace(s: Settings, t: Settings)
    requires SameLogBody(s, t) && |t.strategy| == |s.strategy|
    ensures s == t
  {
    assert LogBody(s)[..|s.strategy|] == s.strategy && LogBody(t)[..|t.strategy|] == t.strategy;
    assert LogBody(s)[|s.strategy| + |LEVEL_LINE|..] == s.level;
    assert LogBody(t)[|t.strategy| + |LEVEL_LINE|..] == t.level;
  }

  lemma SameBodyDiffers(s: Settings, t: Settings)
    requires SameLogBody(s, t) && s != t
    ensures |t.strategy| != |s.strategy| && LevelLineAt(LogBody(s), |t.strategy|)
  {
    LevelLineIsThere(t);
    if |t.strategy| == |s.strategy| {
      SamePlace(s, t);
    }
  }

  /** When a group's text does not determine its settings: exactly for a log group whose
      strategy and level spell the template's line between them at another place too. */
  lemma AmbiguousTexts(s: Settings)
    requires NoSpace(s.name)
    ensures Ambiguous(s) <==>
      s.LogSettings? && exists i: nat :: i != |s.strategy| && LevelLineAt(LogBody(s), i)
  {
    if Ambiguous(s) {
      var t: Settings :| NoSpace(t.name) && t != s && ConfigText(t) == ConfigText(s);
      EqualTexts(s, t);
      SameBodyDiffers(s, t);
    }
    if s.LogSettings? {
      forall i: nat | i != |s.strategy| && LevelLineAt(LogBody(s), i)
        ensures Ambiguous(s)
      {
        MovedSameBody(s, i);
        EqualTexts(s, Moved(s, i));
      }
    }
  }

  /** So blanks do break it: whatever a, b and c are, these two log groups differ and print the
      same text. */
  lemma BlanksCollide(name: string, partitions: int, a: string, b: string, c: string)
    ensures
      var s := LogSettings(name, partitions, a + LEVEL_LINE + b, c);
      var t := LogSettings(name, partitions, a, b + LEVEL_LINE + c);
      s != t && ConfigText(s) == ConfigText(t)
  {
    var s := LogSettings(name, partitions, a + LEVEL_LINE + b, c);
    var t := LogSettings(name, partitions, a, b + LEVEL_LINE + c);
    assert |s.strategy| > |t.strategy|;
    assert LogBody(s) == LogBody(t);
  }
}
