/**
  The git projection of the history. Every message becomes a numbered directory below
  `agent/session`, hashed onto the directory that sorts last; each commit carries the whole tree.
 */
module GitDag {
  import opened Text
  import opened Dag
  import opened Merkle
  import opened RoutingTypes

  datatype Entry = Blob(text: string) | Folder(entries: map<string, Entry>)

  type Tree = map<string, Entry>

  /** What `get_subtree` finds: an entry of that name that is a tree. */
  function SubTree(t: Tree, name: string): Option<Tree> {
    if name in t && t[name].Folder? then Some(t[name].entries) else None
  }

  function OrEmpty(t: Option<Tree>): Tree { if t.Some? then t.value else map[] }

  function SessionTree(root: Tree, agent: string, session: string): Tree {
    OrEmpty(SubTree(OrEmpty(SubTree(root, agent)), session))
  }

  // ---------------------------------------------------------------- message directories

  /** `format!("{seq:03}")`: at least three digits. */
  function PadNumber(n: nat): string { if n < 1000 then Pad(n, 3) else Digits(n) }

  function DirName(n: nat, sender: string, word: string): string { PadNumber(n) + ("-" + sender + "-" + word) }

  /** The byte pattern of a message directory: three digits and a dash. */
  predicate IsMessageDir(name: string) {
    |name| >= 4 && IsDigit(name[0]) && IsDigit(name[1]) && IsDigit(name[2]) && name[3] == '-'
  }

  function MessageDirs(session: Tree): set<string> {
    set n | n in session && session[n].Folder? && IsMessageDir(n)
  }

  /** The name that sorts last. */
  ghost predicate IsLast(names: set<string>, last: string) {
    last in names && forall n :: n in names ==> n == last || Precedes(n, last)
  }

  lemma LastIsUnique(names: set<string>, a: string, b: string)
    requires IsLast(names, a) && IsLast(names, b)
    ensures a == b
  {
    PrecedesAsymmetric(a, b);
  }

  lemma {:induction false} SomeNameIsLast(names: set<string>)
    requires names != {}
    ensures exists n :: IsLast(names, n)
    decreases |names|
  {
    var x :| x in names;
    var rest := names - {x};
    if rest == {} {
      forall n | n in names ensures n == x { assert n !in rest; }
      assert IsLast(names, x);
    } else {
      SomeNameIsLast(rest);
      var m :| IsLast(rest, m);
      PrecedesAsymmetric(x, m);
      if Precedes(m, x) {
        forall n | n in names ensures n == x || Precedes(n, x) {
          if n != x && n != m { PrecedesTransitive(n, m, x); }
        }
        assert IsLast(names, x);
      } else {
        assert IsLast(names, m);
      }
    }
  }

  ghost function LastName(names: set<string>): (n: string)
    requires names != {}
    ensures IsLast(names, n)
  {
    SomeNameIsLast(names);
    var n :| IsLast(names, n);
    n
  }

  function TextOf(t: Tree, name: string): string {
    if name in t && t[name].Blob? then t[name].text else ""
  }

  /** The hash stored in the directory that sorts last, or root. */
  ghost function CanonicalHash(session: Tree): NodeId {
    var dirs := MessageDirs(session);
    if dirs == {} then ROOT else TextOf(session[LastName(dirs)].entries, "hash")
  }

  // ---------------------------------------------------------------- one commit

  /** A message handed to the worker. `service` is its `type.backend` text. */
  datatype Delivery = Delivery(
    agent: string, message: Message, harness: HarnessType, service: string, branch: string, fields: map<string, string>)

  predicate Handled(d: Delivery) { !d.message.kind.DeployAgent? && !d.message.kind.DeleteAgent? }

  predicate OfSession(d: Delivery) { d.message.kind.Fork? || d.message.kind.Promote? }

  function SenderOf(d: Delivery): string {
    match d.message.kind
    case Invoke => HarnessWord(d.harness)
    case Response => d.service
    case SvcResponse => d.service
    case Fork => "platform"
    case Promote => "platform"
    case _ => d.agent
  }

  function TimelineOf(d: Delivery): string { if d.message.kind.Fork? then d.branch else "main" }

  /** What is hashed: forks and promotes carry neither payload nor diagnostics. */
  function HashedMessage(d: Delivery): Message {
    if OfSession(d) then Merkle.Message("", d.message.kind, "", d.message.session) else d.message
  }

  function DirOf(n: nat, d: Delivery): string { DirName(n, SenderOf(d), MessageTypeWord(d.message.kind)) }

  function MessageTree(d: Delivery, hash: NodeId): Tree {
    (map f | f in d.fields :: Blob(d.fields[f]))["payload" := Blob(HashedMessage(d).payload)]["hash" := Blob(hash)]
  }

  /** What the registry gave at commit time. */
  datatype Metadata =
    | NoRegistry
    | FromRegistry(agentToml: Option<string>, models: map<string, string>, platformToml: string)

  const RESERVED: set<string> := {"agent.toml", "platform.toml", "models"}

  function MetadataEntries(m: Metadata): (t: Tree)
    ensures t.Keys <= RESERVED
  {
    match m
    case NoRegistry => map[]
    case FromRegistry(agentToml, models, platformToml) =>
      (if agentToml.Some? then map["agent.toml" := Blob(agentToml.value)] else map[])
      + (if models != map[] then map["models" := Folder(map f | f in models :: Blob(models[f]))] else map[])
      + map["platform.toml" := Blob(platformToml)]
  }

  /** The timeline file with one more line. */
  function Appended(timelines: Tree, timeline: string, line: string): string {
    if timeline in timelines && timelines[timeline].Blob? then timelines[timeline].text + "\n" + line else line
  }

  function NextTimelines(timelines: Tree, timeline: string, line: string): Tree {
    timelines[timeline := Blob(Appended(timelines, timeline, line))]["ACTIVE" := Blob(timeline)]
  }

  function NextSession(session: Tree, dir: string, message: Tree, timeline: string): Tree {
    var timelines := OrEmpty(SubTree(session, "timelines"));
    (session - {"timelines"})[dir := Folder(message)]["timelines" := Folder(NextTimelines(timelines, timeline, dir))]
  }

  ghost function Numbered(session: Tree, sha: Hash, d: Delivery): Tree {
    NextSession(session, DirOf(|MessageDirs(session)| + 1, d),
        MessageTree(d, Step(sha, CanonicalHash(session), HashedMessage(d))), TimelineOf(d))
  }

  ghost function NextRoot(root: Tree, sha: Hash, d: Delivery, m: Metadata): Tree {
    var agentTree := OrEmpty(SubTree(root, d.agent));
    var session := Numbered(SessionTree(root, d.agent, d.message.session), sha, d);
    (root[d.agent := Folder(agentTree[d.message.session := Folder(session)])] - RESERVED) + MetadataEntries(m)
  }

  /** Names git refuses in a tree; such a message is logged and dropped. */
  predicate ValidName(n: string) { n != "" && n != "." && n != ".." && n != ".git" && '/' !in n && '\0' !in n }

  predicate ValidNames(d: Delivery) {
    ValidName(d.agent) && ValidName(d.message.session) && ValidName(TimelineOf(d))
    && '/' !in SenderOf(d) && '\0' !in SenderOf(d)
  }

  /** One delivery as it went: the registry's answer, and whether git wrote the commit. */
  datatype Attempt = Attempt(delivery: Delivery, metadata: Metadata, gitWorks: bool)

  predicate Commits(a: Attempt) { Handled(a.delivery) && ValidNames(a.delivery) && a.gitWorks }

  ghost function After(root: Tree, sha: Hash, a: Attempt): Tree {
    if Commits(a) then NextRoot(root, sha, a.delivery, a.metadata) else root
  }

  ghost function Head(sha: Hash, attempts: seq<Attempt>): Tree {
    if attempts == [] then map[] else After(Head(sha, attempts[..|attempts| - 1]), sha, attempts[|attempts| - 1])
  }

  predicate IsWritableName(n: string) { n !in ["", ".", "..", ".git"] && forall c :: c in n ==> c != '/' && c != '\0' }

  /** Which deliveries are committed if git works: not those of deployments, none with an impossible name. */
  predicate IsWritable(d: Delivery) {
    && !d.message.kind.DeployAgent? && !d.message.kind.DeleteAgent?
    && IsWritableName(d.agent) && IsWritableName(d.message.session)
    && (d.message.kind.Fork? ==> IsWritableName(d.branch))
    && (d.message.kind.Response? || d.message.kind.SvcResponse? ==> '/' !in d.service && '\0' !in d.service)
  }

  lemma WritableNames(n: string)
    ensures ValidName(n) <==> IsWritableName(n)
  {}

  lemma SenderIsClean(d: Delivery)
    requires IsWritableName(d.agent)
    requires d.message.kind.Response? || d.message.kind.SvcResponse? ==> '/' !in d.service && '\0' !in d.service
    ensures '/' !in SenderOf(d) && '\0' !in SenderOf(d)
  {
    assert '/' !in "platform" && '\0' !in "platform";
    assert '/' !in HarnessWord(d.harness) && '\0' !in HarnessWord(d.harness);
  }

  /** What is committed, by the message itself. */
  lemma CommitsExactly(a: Attempt)
    ensures Commits(a) <==> a.gitWorks && IsWritable(a.delivery)
  {
    var d := a.delivery;
    WritableNames(d.agent);
    WritableNames(d.message.session);
    WritableNames(TimelineOf(d));
    if IsWritable(d) { SenderIsClean(d); }
  }

  /** The worker: the tree at HEAD and the commits behind it, with the builders of one commit. */
  class GitDagWorker {
    const sha: Hash
    var head: Tree
    ghost var history: seq<Tree>

    constructor (sha: Hash)
      ensures this.sha == sha && head == map[] && history == [map[]]
    {
      this.sha := sha;
      head := map[];
      history := [map[]];
    }

    method ReadCanonicalHash(session: Tree) returns (hash: NodeId)
      ensures hash == CanonicalHash(session)
    {
      var dirs := MessageDirs(session);
      if dirs == {} { return ROOT; }
      var last :| last in dirs;
      var seen := {last};
      while seen != dirs
        invariant seen <= dirs && IsLast(seen, last)
        decreases dirs - seen
      {
        assert dirs == seen + (dirs - seen);
        var n :| n in dirs - seen;
        PrecedesAsymmetric(n, last);
        if Precedes(last, n) {
          forall m | m in seen ensures Precedes(m, n) {
            if m != last { PrecedesTransitive(m, last, n); }
          }
          last := n;
        }
        seen := seen + {n};
      }
      LastIsUnique(dirs, last, LastName(dirs));
      hash := TextOf(session[last].entries, "hash");
    }

    method Deliver(a: Attempt)
      modifies this
      ensures head == After(old(head), sha, a)
      ensures history == if Commits(a) then old(history) + [head] else old(history)
      ensures |history| > |old(history)| <==> a.gitWorks && IsWritable(a.delivery)
    {
      CommitsExactly(a);
      if !Commits(a) { return; }
      var d := a.delivery;
      var agentTree := OrEmpty(SubTree(head, d.agent));
      var session := OrEmpty(SubTree(agentTree, d.message.session));
      var parent := ReadCanonicalHash(session);
      var message := MessageTree(d, Step(sha, parent, HashedMessage(d)));
      var dir := DirOf(|MessageDirs(session)| + 1, d);

      var timelines := OrEmpty(SubTree(session, "timelines"));
      var sessionBuilder := session - {"timelines"};
      sessionBuilder := sessionBuilder[dir := Folder(message)];
      var timelinesBuilder := timelines[TimelineOf(d) := Blob(Appended(timelines, TimelineOf(d), dir))];
      timelinesBuilder := timelinesBuilder["ACTIVE" := Blob(TimelineOf(d))];
      sessionBuilder := sessionBuilder["timelines" := Folder(timelinesBuilder)];

      var agentBuilder := agentTree[d.message.session := Folder(sessionBuilder)];
      var rootBuilder := head[d.agent := Folder(agentBuilder)];
      rootBuilder := rootBuilder - RESERVED;
      head := rootBuilder + MetadataEntries(a.metadata);
      history := history + [head];
    }
  }
}
