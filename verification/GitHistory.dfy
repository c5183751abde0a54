/**
  What the git tree holds after any run, for sessions of at most 999 messages: numbering,
  hash chain, isolation of sessions, timelines. And what happens at the thousandth message.
 */
module GitHistory {
  import opened Text
  import opened Dag
  import opened Merkle
  import opened RoutingTypes
  import opened GitDag

  const LIMIT: nat := 999

  // ---------------------------------------------------------------- names

  lemma PadThree(n: nat)
    requires n < 1000
    ensures n < Pow10(3) && |Pad(n, 3)| == 3
  {
    assert Pow10(3) == 10 * Pow10(2) && Pow10(2) == 10 * Pow10(1) && Pow10(1) == 10 * Pow10(0);
  }

  /** Up to 999 the number, the byte pattern and the sort agree. */
  lemma NumbersSort(m: nat, n: nat, d: Delivery, e: Delivery)
    requires 1 <= m <= LIMIT && 1 <= n <= LIMIT
    ensures IsMessageDir(DirOf(m, d))
    ensures m < n ==> Precedes(DirOf(m, d), DirOf(n, e))
    ensures DirOf(m, d) == DirOf(n, e) ==> m == n
  {
    PadThree(m);
    PadThree(n);
    PadOrder(m, n, 3);
    var a, b := "-" + SenderOf(d) + "-" + MessageTypeWord(d.message.kind),
      "-" + SenderOf(e) + "-" + MessageTypeWord(e.message.kind);
    PrecedesByPrefix(Pad(m, 3), Pad(n, 3), a, b);
    assert DirOf(m, d)[..3] == Pad(m, 3) && DirOf(n, e)[..3] == Pad(n, 3);
    assert DirOf(m, d)[3] == a[0] == '-';
  }

  /** From 1000 on the name has a fourth digit and the pattern fails. */
  lemma ThousandIsNoMessageDir(n: nat, d: Delivery)
    requires n >= 1000
    ensures !IsMessageDir(DirOf(n, d))
  {
    FourDigits(n);
    assert DirOf(n, d)[3] == Digits(n)[3];
  }

  lemma {:induction false} FourDigits(n: nat)
    requires n >= 1000
    ensures |Digits(n)| >= 4 && IsDigit(Digits(n)[3])
  {
    if n >= 10_000 {
      FourDigits(n / 10);
      assert Digits(n)[3] == Digits(n / 10)[3];
    } else {
      assert |Digits(n / 1000)| == 1;
      assert n / 10 / 10 == n / 100 && n / 100 / 10 == n / 1000;
      assert |Digits(n / 100)| == 2 && |Digits(n / 10)| == 3;
    }
  }

  // ---------------------------------------------------------------- one session

  function Names(ds: seq<Delivery>): (names: seq<string>)
    ensures |names| == |ds|
  {
    seq(|ds|, i requires 0 <= i < |ds| => DirOf(i + 1, ds[i]))
  }

  function ToSet(names: seq<string>): set<string> { set n | n in names }

  predicate Ascending(names: seq<string>) {
    forall i, j {:trigger Precedes(names[i], names[j])} :: 0 <= i < j < |names| ==> Precedes(names[i], names[j])
  }

  lemma {:induction false} AscendingSize(names: seq<string>)
    requires Ascending(names)
    ensures |ToSet(names)| == |names|
  {
    if names != [] {
      var k := |names| - 1;
      var init := names[..k];
      forall i, j | 0 <= i < j < k ensures Precedes(init[i], init[j]) { assert Precedes(names[i], names[j]); }
      AscendingSize(init);
      if names[k] in init {
        var i :| 0 <= i < k && init[i] == names[k];
        assert Precedes(names[i], names[k]);
        PrecedesAsymmetric(names[i], names[k]);
        assert false;
      }
      assert names == init + [names[k]];
      assert ToSet(names) == ToSet(init) + {names[k]};
    }
  }

  lemma AscendingLast(names: seq<string>)
    requires names != [] && Ascending(names)
    ensures IsLast(ToSet(names), names[|names| - 1])
  {
    var k := |names| - 1;
    forall n | n in ToSet(names) ensures n == names[k] || Precedes(n, names[k]) {
      var i :| 0 <= i < |names| && names[i] == n;
      if i < k { assert Precedes(names[i], names[k]); }
    }
  }

  lemma NamesAscend(ds: seq<Delivery>)
    requires |ds| <= LIMIT
    ensures Ascending(Names(ds))
  {
    var names := Names(ds);
    forall i, j | 0 <= i < j < |ds| ensures Precedes(names[i], names[j]) { NumbersSort(i + 1, j + 1, ds[i], ds[j]); }
  }

  function Messages(ds: seq<Delivery>): (ms: seq<Message>)
    ensures |ms| == |ds|
  {
    seq(|ds|, i requires 0 <= i < |ds| => HashedMessage(ds[i]))
  }

  /** The hash the n-th message is stored with: the content address of the whole session so far. */
  function HashOf(sha: Hash, ds: seq<Delivery>, i: nat): NodeId
    requires i < |ds|
  {
    ChainHash(sha, ROOT, Messages(ds[..i + 1]))
  }

  /** Directory i holds message i under its chained hash. */
  predicate HoldsMessage(session: Tree, sha: Hash, ds: seq<Delivery>, i: nat)
    requires i < |ds|
  {
    var dir := Names(ds)[i];
    dir in session && session[dir] == Folder(MessageTree(ds[i], HashOf(sha, ds, i)))
  }

  ghost predicate HoldsMessages(session: Tree, sha: Hash, ds: seq<Delivery>) {
    && MessageDirs(session) == ToSet(Names(ds))
    && forall i {:trigger HoldsMessage(session, sha, ds, i)} :: 0 <= i < |ds| ==> HoldsMessage(session, sha, ds, i)
  }

  /** Forks and promotes are written without content; every other message with its own. */
  predicate Bare(kind: MessageType) { kind.Fork? || kind.Promote? }

  /** A message directory holds its hash, its payload, and every other field as given. */
  lemma StoredHash(d: Delivery, hash: NodeId)
    ensures TextOf(MessageTree(d, hash), "hash") == hash
    ensures TextOf(MessageTree(d, hash), "payload") == if Bare(d.message.kind) then "" else d.message.payload
    ensures forall f :: f in d.fields && f != "hash" && f != "payload" ==>
        TextOf(MessageTree(d, hash), f) == d.fields[f]
    ensures MessageTree(d, hash).Keys == d.fields.Keys + {"hash", "payload"}
  {}

  /** Counting and reading back: the next number is k + 1, and the parent is the k-th hash. */
  lemma SessionReadsBack(session: Tree, sha: Hash, ds: seq<Delivery>)
    requires HoldsMessages(session, sha, ds) && |ds| <= LIMIT
    ensures |MessageDirs(session)| == |ds|
    ensures CanonicalHash(session) == ChainHash(sha, ROOT, Messages(ds))
  {
    NamesAscend(ds);
    AscendingSize(Names(ds));
    if ds != [] {
      var k := |ds| - 1;
      AscendingLast(Names(ds));
      LastIsUnique(ToSet(Names(ds)), LastName(ToSet(Names(ds))), Names(ds)[k]);
      assert HoldsMessage(session, sha, ds, k);
      StoredHash(ds[k], HashOf(sha, ds, k));
      assert ds[..k + 1] == ds;
    }
  }

  lemma HashOfNext(sha: Hash, ds: seq<Delivery>, d: Delivery)
    ensures HashOf(sha, ds + [d], |ds|) == Step(sha, ChainHash(sha, ROOT, Messages(ds)), HashedMessage(d))
    ensures forall i :: 0 <= i < |ds| ==> HashOf(sha, ds + [d], i) == HashOf(sha, ds, i)
  {
    var more := ds + [d];
    assert more[..|ds| + 1] == more;
    assert Messages(more)[..|ds|] == Messages(ds);
    forall i | 0 <= i < |ds| ensures HashOf(sha, more, i) == HashOf(sha, ds, i) { assert more[..i + 1] == ds[..i + 1]; }
  }

  lemma NextNames(ds: seq<Delivery>, d: Delivery)
    requires |ds| < LIMIT
    ensures Names(ds + [d]) == Names(ds) + [DirOf(|ds| + 1, d)]
    ensures DirOf(|ds| + 1, d) !in Names(ds) && IsMessageDir(DirOf(|ds| + 1, d))
  {
    NumbersSort(|ds| + 1, |ds| + 1, d, d);
    forall i | 0 <= i < |ds| ensures Names(ds)[i] != DirOf(|ds| + 1, d) { NumbersSort(i + 1, |ds| + 1, ds[i], d); }
  }

  /** A new directory beside the old ones: what `NextSession` changes, and all it changes. */
  lemma SessionGrows(session: Tree, dir: string, message: Tree, timeline: string)
    requires IsMessageDir(dir)
    ensures var next := NextSession(session, dir, message, timeline);
      && MessageDirs(next) == MessageDirs(session) + {dir}
      && next[dir] == Folder(message)
      && (forall n :: IsMessageDir(n) && n != dir ==>
           (n in next <==> n in session) && (n in session ==> next[n] == session[n]))
  {
    assert !IsMessageDir("timelines") by { assert !IsDigit("timelines"[0]); }
  }

  predicate KeepsDirs(session: Tree, next: Tree, dir: string) {
    forall n :: n in session && IsMessageDir(n) && n != dir ==> n in next && next[n] == session[n]
  }

  lemma HeldMessageStays(session: Tree, next: Tree, sha: Hash, ds: seq<Delivery>, d: Delivery, dir: string, i: nat)
    requires i < |ds| && HoldsMessages(session, sha, ds) && KeepsDirs(session, next, dir)
    requires Names(ds + [d]) == Names(ds) + [dir] && dir !in Names(ds)
    ensures HoldsMessage(next, sha, ds + [d], i)
  {
    HashOfNext(sha, ds, d);
    assert HoldsMessage(session, sha, ds, i);
    var n := Names(ds)[i];
    assert Names(ds + [d])[i] == n && n in ToSet(Names(ds)) && n in MessageDirs(session);
  }

  lemma NumberedIs(session: Tree, sha: Hash, ds: seq<Delivery>, d: Delivery)
    requires HoldsMessages(session, sha, ds) && |ds| < LIMIT
    ensures Numbered(session, sha, d)
         == NextSession(session, DirOf(|ds| + 1, d), MessageTree(d, HashOf(sha, ds + [d], |ds|)), TimelineOf(d))
  {
    SessionReadsBack(session, sha, ds);
    HashOfNext(sha, ds, d);
  }

  lemma GrownHolds(session: Tree, next: Tree, sha: Hash, ds: seq<Delivery>, d: Delivery, dir: string)
    requires HoldsMessages(session, sha, ds) && KeepsDirs(session, next, dir)
    requires Names(ds + [d]) == Names(ds) + [dir] && dir !in Names(ds)
    requires MessageDirs(next) == MessageDirs(session) + {dir}
    requires dir in next && next[dir] == Folder(MessageTree(d, HashOf(sha, ds + [d], |ds|)))
    ensures HoldsMessages(next, sha, ds + [d])
  {
    var more := ds + [d];
    assert ToSet(Names(more)) == ToSet(Names(ds)) + {dir};
    forall i | 0 <= i < |more| ensures HoldsMessage(next, sha, more, i) {
      if i < |ds| { HeldMessageStays(session, next, sha, ds, d, dir, i); }
    }
  }

  lemma NumberedHolds(session: Tree, sha: Hash, ds: seq<Delivery>, d: Delivery)
    requires HoldsMessages(session, sha, ds) && |ds| < LIMIT
    ensures HoldsMessages(Numbered(session, sha, d), sha, ds + [d])
  {
    NumberedIs(session, sha, ds, d);
    NextNames(ds, d);
    SessionGrows(session, DirOf(|ds| + 1, d), MessageTree(d, HashOf(sha, ds + [d], |ds|)), TimelineOf(d));
    GrownHolds(session, Numbered(session, sha, d), sha, ds, d, DirOf(|ds| + 1, d));
  }

  // ---------------------------------------------------------------- the whole tree

  predicate IsFor(a: Attempt, agent: string, session: string) {
    Commits(a) && a.delivery.agent == agent && a.delivery.message.session == session
  }

  /** The messages committed for one agent and session, in order. */
  function Mine(attempts: seq<Attempt>, agent: string, session: string): seq<Delivery> {
    if attempts == [] then []
    else
      var a := attempts[|attempts| - 1];
      Mine(attempts[..|attempts| - 1], agent, session) + (if IsFor(a, agent, session) then [a.delivery] else [])
  }

  lemma OwnSessionGrows(root: Tree, sha: Hash, d: Delivery, m: Metadata)
    requires d.agent !in RESERVED
    ensures SessionTree(NextRoot(root, sha, d, m), d.agent, d.message.session)
         == Numbered(SessionTree(root, d.agent, d.message.session), sha, d)
  {}

  lemma OtherSessionsStay(root: Tree, sha: Hash, d: Delivery, m: Metadata, agent: string, session: string)
    requires agent !in RESERVED && (d.agent != agent || d.message.session != session)
    ensures SessionTree(NextRoot(root, sha, d, m), agent, session) == SessionTree(root, agent, session)
    ensures d.agent != agent ==> SubTree(NextRoot(root, sha, d, m), agent) == SubTree(root, agent)
  {}

  /** A commit rebuilds the top level: nothing but agents' trees and the registry's metadata. */
  lemma TopLevelIsAgentsAndMetadata(root: Tree, sha: Hash, d: Delivery, m: Metadata)
    ensures var next := NextRoot(root, sha, d, m);
      && next.Keys == ((root.Keys + {d.agent}) - RESERVED) + MetadataEntries(m).Keys
      && forall k :: k in RESERVED && k in next ==> k in MetadataEntries(m) && next[k] == MetadataEntries(m)[k]
    ensures ShowsMetadata(NextRoot(root, sha, d, m), m)
  {
    var agentTree := OrEmpty(SubTree(root, d.agent));
    var session := Numbered(SessionTree(root, d.agent, d.message.session), sha, d);
    MetadataReplaces(root[d.agent := Folder(agentTree[d.message.session := Folder(session)])], m);
  }

  lemma MetadataReplaces(top: Tree, m: Metadata)
    ensures ShowsMetadata((top - RESERVED) + MetadataEntries(m), m)
  {
    assert "platform.toml" in RESERVED && "agent.toml" in RESERVED && "models" in RESERVED;
    assert "platform.toml"[0] != "agent.toml"[0] && "models"[0] != "agent.toml"[0] && "models"[0] != "platform.toml"[0];
  }

  /** The registry's files, each there exactly if the registry gave it. */
  predicate ShowsMetadata(top: Tree, m: Metadata) {
    && ("platform.toml" in top <==> m.FromRegistry?)
    && ("agent.toml" in top <==> m.FromRegistry? && m.agentToml.Some?)
    && ("models" in top <==> m.FromRegistry? && m.models != map[])
    && (m.FromRegistry? ==>
      && top["platform.toml"] == Blob(m.platformToml)
      && (m.agentToml.Some? ==> top["agent.toml"] == Blob(m.agentToml.value))
      && (m.models != map[] ==> top["models"] == Folder(map f | f in m.models :: Blob(m.models[f]))))
  }

  /** An agent that shares a metadata name loses its history with every commit of its own. */
  lemma ReservedAgentStartsOver(root: Tree, sha: Hash, d: Delivery, m: Metadata, session: string)
    requires d.agent in RESERVED
    ensures SessionTree(NextRoot(root, sha, d, m), d.agent, session) == map[]
  {
    var next := NextRoot(root, sha, d, m);
    if d.agent in next {
      assert d.agent in MetadataEntries(m) && next[d.agent] == MetadataEntries(m)[d.agent];
      if d.agent == "models" {
        assert forall f :: f in next[d.agent].entries ==> next[d.agent].entries[f].Blob?;
      } else {
        assert next[d.agent].Blob?;
      }
    }
  }

  lemma AttemptHolds(root: Tree, sha: Hash, ds: seq<Delivery>, a: Attempt, agent: string, session: string)
    requires agent !in RESERVED && HoldsMessages(SessionTree(root, agent, session), sha, ds)
    requires IsFor(a, agent, session) ==> |ds| < LIMIT
    ensures HoldsMessages(SessionTree(After(root, sha, a), agent, session), sha,
                          if IsFor(a, agent, session) then ds + [a.delivery] else ds)
  {
    if IsFor(a, agent, session) {
      OwnSessionGrows(root, sha, a.delivery, a.metadata);
      NumberedHolds(SessionTree(root, agent, session), sha, ds, a.delivery);
    } else if Commits(a) {
      OtherSessionsStay(root, sha, a.delivery, a.metadata, agent, session);
    }
  }

  lemma EmptyHolds(sha: Hash)
    ensures HoldsMessages(map[], sha, [])
  {
    assert MessageDirs(map[]) == {} && Names([]) == [];
  }

  lemma {:induction false} HeadHolds(sha: Hash, attempts: seq<Attempt>, agent: string, session: string)
    requires agent !in RESERVED && |Mine(attempts, agent, session)| <= LIMIT
    ensures HoldsMessages(SessionTree(Head(sha, attempts), agent, session), sha, Mine(attempts, agent, session))
  {
    if attempts != [] {
      var k := |attempts| - 1;
      HeadHolds(sha, attempts[..k], agent, session);
      AttemptHolds(Head(sha, attempts[..k]), sha, Mine(attempts[..k], agent, session), attempts[k], agent, session);
      assert !IsFor(attempts[k], agent, session) ==>
        Mine(attempts, agent, session) == Mine(attempts[..k], agent, session);
    } else {
      EmptyHolds(sha);
    }
  }

  /**
    The git tree is the content-addressed chain. After any run of successful and failed
    deliveries, to any agents in any order, a session of at most 999 messages has exactly the
    directories 001 to k, the i-th holding the i-th message under the chained hash of the
    first i, and the directory that sorts last gives the chain's end.
   */
  lemma GitTreeIsTheChain(
      sha: Hash, attempts: seq<Attempt>, agent: string, session: string, ds: seq<Delivery>, tree: Tree)
    requires agent !in RESERVED && |ds| <= LIMIT
    requires ds == Mine(attempts, agent, session) && tree == SessionTree(Head(sha, attempts), agent, session)
    ensures MessageDirs(tree) == ToSet(Names(ds)) && |MessageDirs(tree)| == |ds|
    ensures forall i {:trigger HoldsMessage(tree, sha, ds, i)} :: 0 <= i < |ds| ==> HoldsMessage(tree, sha, ds, i)
    ensures CanonicalHash(tree) == ChainHash(sha, ROOT, Messages(ds))
  {
    HeadHolds(sha, attempts, agent, session);
    SessionReadsBack(tree, sha, ds);
  }

  /** Who a message is from, in the words of a directory name. */
  predicate SentBy(d: Delivery, from: string) {
    match d.message.kind
    case Invoke => from == HarnessWord(d.harness)
    case Request => from == d.agent
    case SvcRequest => from == d.agent
    case Complete => from == d.agent
    case Response => from == d.service
    case SvcResponse => from == d.service
    case Fork => from == "platform"
    case Promote => from == "platform"
    case _ => false
  }

  /** What a directory says of a message: its content, and its hash over the one before. */
  predicate TellsOf(dir: Tree, sha: Hash, d: Delivery, previous: NodeId) {
    var m := d.message;
    var payload, diagnostics := if Bare(m.kind) then "" else m.payload, if Bare(m.kind) then "" else m.diagnostics;
    && TextOf(dir, "payload") == payload
    && TextOf(dir, "hash") == NodeHash(sha, Fields(payload, previous, m.kind, diagnostics, m.session))
    && (forall f :: f in d.fields && f != "hash" && f != "payload" ==> TextOf(dir, f) == d.fields[f])
    && dir.Keys == d.fields.Keys + {"hash", "payload"}
  }

  /** The n-th message `d` lies in `dir`, over the hash `previous`. */
  ghost predicate Keeps(tree: Tree, sha: Hash, d: Delivery, n: nat, dir: string, previous: NodeId) {
    && dir in tree && tree[dir].Folder? && TellsOf(tree[dir].entries, sha, d, previous)
    && exists from :: SentBy(d, from) && dir == PadNumber(n) + ("-" + from + "-" + MessageTypeWord(d.message.kind))
  }

  function StoredIn(tree: Tree, dir: string): NodeId {
    if dir in tree && tree[dir].Folder? then TextOf(tree[dir].entries, "hash") else ROOT
  }

  lemma {:induction false} MineAreHandled(attempts: seq<Attempt>, agent: string, session: string)
    ensures forall d :: d in Mine(attempts, agent, session) ==>
        !d.message.kind.DeployAgent? && !d.message.kind.DeleteAgent? && d.agent == agent && d.message.session == session
  {
    if attempts != [] { MineAreHandled(attempts[..|attempts| - 1], agent, session); }
  }

  /**
    Message for message, in the source's own terms: after any run, with at most 999 messages,
    the i-th message lies in the directory named by its number, its sender and its type, with
    the payload and the fields it was sent with, under the hash of its own content and of the
    hash stored with the message before it.
   */
  lemma MessagesAreKeptAsSent(
      sha: Hash, attempts: seq<Attempt>, agent: string, session: string, ds: seq<Delivery>, tree: Tree, i: nat)
    requires agent !in RESERVED && |ds| <= LIMIT && i < |ds|
    requires ds == Mine(attempts, agent, session) && tree == SessionTree(Head(sha, attempts), agent, session)
    ensures Keeps(tree, sha, ds[i], i + 1, Names(ds)[i], if i == 0 then ROOT else StoredIn(tree, Names(ds)[i - 1]))
  {
    HeadHolds(sha, attempts, agent, session);
    MineAreHandled(attempts, agent, session);
    assert ds[i] in ds;
    assert HoldsMessage(tree, sha, ds, i);
    HashStep(sha, ds, i);
    StoredHash(ds[i], HashOf(sha, ds, i));
    assert SentBy(ds[i], SenderOf(ds[i]));
    if i > 0 {
      assert HoldsMessage(tree, sha, ds, i - 1);
      StoredHash(ds[i - 1], HashOf(sha, ds, i - 1));
    }
  }

  lemma HashStep(sha: Hash, ds: seq<Delivery>, i: nat)
    requires i < |ds|
    ensures HashOf(sha, ds, i) == Step(sha, if i == 0 then ROOT else HashOf(sha, ds, i - 1), HashedMessage(ds[i]))
  {
    var ms := Messages(ds[..i + 1]);
    assert ms[..i] == Messages(ds[..i]) && ms[i] == HashedMessage(ds[i]);
    if i > 0 { assert ds[..i - 1 + 1] == ds[..i]; } else { assert ChainHash(sha, ROOT, ms[..|ms| - 1]) == ROOT; }
  }

  lemma {:induction false} HeadAppend(
      sha: Hash, attempts: seq<Attempt>, more: seq<Attempt>, agent: string, session: string)
    ensures |Mine(attempts + more, agent, session)| >= |Mine(attempts, agent, session)|
    ensures Mine(attempts + more, agent, session)[..|Mine(attempts, agent, session)|] == Mine(attempts, agent, session)
  {
    if more == [] {
      assert attempts + more == attempts;
    } else {
      var k := |more| - 1;
      assert (attempts + more)[..|attempts + more| - 1] == attempts + more[..k];
      HeadAppend(sha, attempts, more[..k], agent, session);
    }
  }

  /** Accumulation: whatever is committed later, every message directory stays as it was written. */
  lemma MessagesAccumulate(
      sha: Hash, attempts: seq<Attempt>, more: seq<Attempt>, agent: string, session: string, dir: string)
    requires agent !in RESERVED && |Mine(attempts + more, agent, session)| <= LIMIT
    requires dir in MessageDirs(SessionTree(Head(sha, attempts), agent, session))
    ensures var s, t := SessionTree(Head(sha, attempts), agent, session),
        SessionTree(Head(sha, attempts + more), agent, session);
      dir in t && t[dir] == s[dir]
  {
    var ds, es := Mine(attempts, agent, session), Mine(attempts + more, agent, session);
    var s, t := SessionTree(Head(sha, attempts), agent, session),
      SessionTree(Head(sha, attempts + more), agent, session);
    HeadAppend(sha, attempts, more, agent, session);
    HeadHolds(sha, attempts, agent, session);
    HeadHolds(sha, attempts + more, agent, session);
    assert dir in ToSet(Names(ds));
    var i :| 0 <= i < |ds| && Names(ds)[i] == dir;
    assert HoldsMessage(s, sha, ds, i) && HoldsMessage(t, sha, es, i);
    assert es[..i + 1] == ds[..i + 1] && es[i] == ds[i];
  }

  // ---------------------------------------------------------------- the thousandth message

  lemma UnseenGrows(session: Tree, dir: string, message: Tree, timeline: string)
    requires !IsMessageDir(dir) && dir != "timelines"
    ensures var next := NextSession(session, dir, message, timeline);
      && MessageDirs(next) == MessageDirs(session)
      && (forall n :: n in MessageDirs(session) ==> next[n] == session[n])
      && dir in next && next[dir] == Folder(message)
  {
    assert !IsMessageDir("timelines") by { assert !IsDigit("timelines"[0]); }
  }

  lemma ThousandIsNotTimelines(d: Delivery)
    ensures !IsMessageDir(DirOf(1000, d)) && DirOf(1000, d) != "timelines"
  {
    ThousandIsNoMessageDir(1000, d);
    FourDigits(1000);
    assert DirOf(1000, d)[3] == Digits(1000)[3];
    assert "timelines"[3] == 'e';
  }

  lemma SameDirsSameHash(s: Tree, t: Tree)
    requires MessageDirs(s) == MessageDirs(t) && forall n :: n in MessageDirs(s) ==> t[n] == s[n]
    ensures CanonicalHash(s) == CanonicalHash(t)
  {}

  lemma FullStaysFull(session: Tree, sha: Hash, d: Delivery, end: NodeId)
    requires |MessageDirs(session)| == LIMIT && CanonicalHash(session) == end
    ensures var next := Numbered(session, sha, d);
      && |MessageDirs(next)| == LIMIT && CanonicalHash(next) == end
      && DirOf(1000, d) in next && next[DirOf(1000, d)] == Folder(MessageTree(d, Step(sha, end, HashedMessage(d))))
  {
    ThousandIsNotTimelines(d);
    UnseenGrows(session, DirOf(1000, d), MessageTree(d, Step(sha, end, HashedMessage(d))), TimelineOf(d));
    SameDirsSameHash(session, Numbered(session, sha, d));
  }

  /** A session after the messages `ds`, one by one. */
  ghost function NumberedAll(session: Tree, sha: Hash, ds: seq<Delivery>): Tree {
    if ds == [] then session else Numbered(NumberedAll(session, sha, ds[..|ds| - 1]), sha, ds[|ds| - 1])
  }

  lemma NumberedAllNext(session: Tree, sha: Hash, ds: seq<Delivery>, d: Delivery, t: Tree)
    requires t == NumberedAll(session, sha, ds)
    ensures NumberedAll(session, sha, ds + [d]) == Numbered(t, sha, d)
  {
    assert (ds + [d])[..|ds|] == ds;
  }

  lemma SessionAfter(root: Tree, sha: Hash, a: Attempt, agent: string, session: string)
    requires agent !in RESERVED
    ensures var t := SessionTree(root, agent, session);
      SessionTree(After(root, sha, a), agent, session) == if IsFor(a, agent, session)
          then Numbered(t, sha, a.delivery) else t
  {
    if IsFor(a, agent, session) {
      OwnSessionGrows(root, sha, a.delivery, a.metadata);
    } else if Commits(a) {
      OtherSessionsStay(root, sha, a.delivery, a.metadata, agent, session);
    }
  }

  /** After any run a session's tree is that of its own messages alone, however many there are. */
  lemma {:induction false} HeadIsNumbered(sha: Hash, attempts: seq<Attempt>, agent: string, session: string)
    requires agent !in RESERVED
    ensures SessionTree(Head(sha, attempts), agent, session) == NumberedAll(map[], sha, Mine(attempts, agent, session))
  {
    if attempts != [] {
      var k := |attempts| - 1;
      var ds, a, root := Mine(attempts[..k], agent, session), attempts[k], Head(sha, attempts[..k]);
      HeadIsNumbered(sha, attempts[..k], agent, session);
      SessionAfter(root, sha, a, agent, session);
      NumberedAllNext(map[], sha, ds, a.delivery, NumberedAll(map[], sha, ds));
      assert !IsFor(a, agent, session) ==> Mine(attempts, agent, session) == ds;
    }
  }

  lemma {:induction false} AllStaysFull(session: Tree, sha: Hash, more: seq<Delivery>, end: NodeId)
    requires |MessageDirs(session)| == LIMIT && CanonicalHash(session) == end
    ensures var t := NumberedAll(session, sha, more); |MessageDirs(t)| == LIMIT && CanonicalHash(t) == end
  {
    if more != [] {
      AllStaysFull(session, sha, more[..|more| - 1], end);
      FullStaysFull(NumberedAll(session, sha, more[..|more| - 1]), sha, more[|more| - 1], end);
    }
  }

  /**
    The bound is exact. Once a session has its 999 messages `ds`, and any number `more` after
    them, it still counts 999 and its hash is that of the 999th. The next message `d` hangs on
    the 999th, too, in a directory the reader does not see, where it replaces whatever message
    of its sender and type came after the 999th.
   */
  lemma BeyondTheLimit(session: Tree, sha: Hash, ds: seq<Delivery>, more: seq<Delivery>, d: Delivery, last: Tree)
    requires HoldsMessages(session, sha, ds) && |ds| == LIMIT
    requires last == Numbered(NumberedAll(session, sha, more), sha, d)
    ensures |MessageDirs(last)| == LIMIT && CanonicalHash(last) == ChainHash(sha, ROOT, Messages(ds))
    ensures DirOf(1000, d) in last && DirOf(1000, d) !in MessageDirs(last)
    ensures last[DirOf(1000, d)] ==
        Folder(MessageTree(d, Step(sha, ChainHash(sha, ROOT, Messages(ds)), HashedMessage(d))))
    ensures forall e :: SenderOf(e) == SenderOf(d) && e.message.kind == d.message.kind ==>
        DirOf(1000, e) == DirOf(1000, d)
  {
    var end := ChainHash(sha, ROOT, Messages(ds));
    SessionReadsBack(session, sha, ds);
    AllStaysFull(session, sha, more, end);
    FullStaysFull(NumberedAll(session, sha, more), sha, d, end);
    ThousandIsNotTimelines(d);
  }
}
