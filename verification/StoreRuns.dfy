/**
  What every run of the store keeps, and what the recording queue in front of it adds.
 */
module StoreRuns {
  import opened Text
  import opened Timestamps
  import opened Dag
  import opened Merkle
  import opened DagStore
  import RoutingTypes

  function LinksOf(nodes: map<NodeId, Row>): Links {
    map h | h in nodes :: Link(if nodes[h].parent.Some? then nodes[h].parent.value else ROOT, nodes[h].rank)
  }

  /** A row stored as its own parent satisfies the foreign key, and no chain leaves it. */
  predicate NoSelfParent(nodes: map<NodeId, Row>) {
    ROOT !in nodes && forall h :: h in nodes ==> nodes[h].parent != Some(h)
  }

  predicate Proper(op: Op) {
    op.OpInsert? ==> op.hash != ROOT && op.row.parent != Some(op.hash) && op.row.parent != Some(ROOT)
  }

  lemma GroundedIffNoSelfParent(s: Store)
    requires StoreInv(s)
    ensures Grounded(LinksOf(s.nodes)) <==> NoSelfParent(s.nodes)
  {
    var links := LinksOf(s.nodes);
    if NoSelfParent(s.nodes) {
      forall h | h in links ensures links[h].parent == ROOT || OlderParent(links, h) {
        assert RowFits(s.nodes, s.sessions.Keys, s.branches.Keys, h);
      }
    }
    if Grounded(links) {
      forall h | h in s.nodes ensures s.nodes[h].parent != Some(h) {
        assert links[h].parent == ROOT || OlderParent(links, h);
      }
    }
  }

  lemma InsertAddsNoSelfParent(s: Store, h: NodeId, row: Row, d: Detail)
    requires NoSelfParent(s.nodes) && (h in s.nodes || (h != ROOT && row.parent != Some(h)))
    ensures NoSelfParent(InsertNode(s, h, row, d).0.nodes)
  {
    var m := InsertRow(s, h, row).0;
    assert NoSelfParent(m.nodes);
    assert InsertNode(s, h, row, d).0.nodes == m.nodes;
  }

  lemma {:induction false} ProperRunsHaveNoSelfParent(ops: seq<Op>)
    requires forall op :: op in ops ==> Proper(op)
    ensures NoSelfParent(Replay(EMPTY_STORE, ops).nodes)
  {
    if ops != [] {
      var m, op := Replay(EMPTY_STORE, ops[..|ops| - 1]), ops[|ops| - 1];
      ProperRunsHaveNoSelfParent(ops[..|ops| - 1]);
      assert Proper(op);
      if op.OpInsert? { InsertAddsNoSelfParent(m, op.hash, op.row, op.detail); }
    }
  }

  /**
    In every reachable store, following parents reaches root from every row exactly when no
    row is its own parent; and then within as many steps as rows were inserted before it.
   */
  lemma EveryChainReachesRoot(ops: seq<Op>, h: NodeId)
    requires h in Replay(EMPTY_STORE, ops).nodes && NoSelfParent(Replay(EMPTY_STORE, ops).nodes)
    ensures var nodes := Replay(EMPTY_STORE, ops).nodes;
      && Grounded(LinksOf(nodes)) && HasAncestor(LinksOf(nodes), h, ROOT)
      && exists k: nat :: 1 <= k <= |nodes| && Climb(LinksOf(nodes), h, k) == ROOT
  {
    var s := Replay(EMPTY_STORE, ops);
    ReplayKeepsInv(EMPTY_STORE, ops);
    GroundedIffNoSelfParent(s);
    assert RowFits(s.nodes, s.sessions.Keys, s.branches.Keys, h);
    var k := ReachesRoot(LinksOf(s.nodes), h);
  }

  lemma {:induction false} SelfParentNeverReachesRoot(nodes: map<NodeId, Row>, h: NodeId, k: nat)
    requires h in nodes && nodes[h].parent == Some(h)
    ensures Climb(LinksOf(nodes), h, k) == h
    decreases k
  {
    if k > 0 { SelfParentNeverReachesRoot(nodes, h, k - 1); }
  }

  // ---------------------------------------------------------------- what readers may rely on

  predicate ExistsInSubmission(s: Store, submission: string, branch: int, kind: MessageType) {
    exists h :: h in s.nodes && s.nodes[h].submission == submission && s.nodes[h].branch == Some(branch) &&
        s.nodes[h].kind == kind
  }

  lemma {:induction false} ReplayAppend(s: Store, ops: seq<Op>, more: seq<Op>)
    ensures Replay(s, ops + more) == Replay(Replay(s, ops), more)
  {
    if more == [] {
      assert ops + more == ops;
    } else {
      assert (ops + more)[..|ops + more| - 1] == ops + more[..|more| - 1];
      ReplayAppend(s, ops, more[..|more| - 1]);
    }
  }

  /** Once there, always there, and unchanged: a row, its message, and an answer of yes. */
  lemma HistoryIsAppendOnly(ops: seq<Op>, more: seq<Op>, h: NodeId, submission: string, branch: int, kind: MessageType)
    ensures var s, t := Replay(EMPTY_STORE, ops), Replay(EMPTY_STORE, ops + more);
      && (h in s.nodes ==> h in t.nodes && t.nodes[h] == s.nodes[h])
      && ((kind, h) in s.details ==> (kind, h) in t.details && t.details[(kind, h)] == s.details[(kind, h)])
      && (ExistsInSubmission(s, submission, branch, kind) ==> ExistsInSubmission(t, submission, branch, kind))
  {
    var s, t := Replay(EMPTY_STORE, ops), Replay(EMPTY_STORE, ops + more);
    ReplayKeepsInv(EMPTY_STORE, ops);
    ReplayAppend(EMPTY_STORE, ops, more);
    ReplayKeepsInv(s, more);
    if ExistsInSubmission(s, submission, branch, kind) {
      var x :| x in s.nodes && s.nodes[x].submission == submission && s.nodes[x].branch == Some(branch) &&
        s.nodes[x].kind == kind;
      assert x in t.nodes && t.nodes[x] == s.nodes[x];
    }
  }

  // ---------------------------------------------------------------- the recording queue

  /**
    A message about to be recorded. `hint` is the node whose row the queue looks up for a
    parent: the message's own hint, the fork point, or the newest node of a branch. `lookup`
    says whether the store answered; a failed lookup counts as finding nothing.
    Infrastructure messages are hashed under a fixed session and stored under none.
   */
  datatype Recordable = Recordable(
    message: Message,
    hint: NodeId,
    lookup: bool,
    session: Option<string>,
    submission: string,
    branch: Option<int>,
    at: Utc,
    detail: Detail)

  function RecordedParent(s: Store, r: Recordable): NodeId { if r.lookup && r.hint in s.nodes then r.hint else ROOT }

  function RecordedId(sha: Hash, s: Store, r: Recordable): NodeId { Step(sha, RecordedParent(s, r), r.message) }

  function RecordOp(sha: Hash, s: Store, r: Recordable): Op {
    var parent := ParentForSql(RecordedParent(s, r));
    var row := Row(parent, r.message.kind, r.session, r.submission, r.branch, r.at, 0);
    OpInsert(RecordedId(sha, s, r), row, r.detail)
  }

  datatype QueueStep = Recorded(record: Recordable) | Managed(op: Op)

  function QueueApply(sha: Hash, s: Store, q: QueueStep): Store {
    match q
    case Recorded(r) => Apply(s, RecordOp(sha, s, r))
    case Managed(op) => if op.OpInsert? then s else Apply(s, op)
  }

  function QueueReplay(sha: Hash, qs: seq<QueueStep>): Store {
    if qs == [] then EMPTY_STORE else QueueApply(sha, QueueReplay(sha, qs[..|qs| - 1]), qs[|qs| - 1])
  }

  ghost predicate NeverEmpty(sha: Hash) { forall x :: sha(x) != ROOT }

  lemma HashIsNotRoot(sha: Hash, parent: NodeId, m: Message)
    requires NeverEmpty(sha)
    ensures Step(sha, parent, m) != ROOT
  {
    assert sha(Preimage(Fields(m.payload, parent, m.kind, m.diagnostics, m.session))) != ROOT;
  }

  lemma RecordingNeverSelfParents(sha: Hash, s: Store, r: Recordable)
    requires NoSelfParent(s.nodes) && NeverEmpty(sha)
    ensures NoSelfParent(Apply(s, RecordOp(sha, s, r)).nodes)
  {
    var id := RecordedId(sha, s, r);
    var op := RecordOp(sha, s, r);
    HashIsNotRoot(sha, RecordedParent(s, r), r.message);
    InsertAddsNoSelfParent(s, id, op.row, op.detail);
  }

  lemma QueueStepKeeps(sha: Hash, s: Store, q: QueueStep)
    requires NeverEmpty(sha) && StoreInv(s) && NoSelfParent(s.nodes)
    ensures StoreInv(QueueApply(sha, s, q)) && NoSelfParent(QueueApply(sha, s, q).nodes)
  {
    match q
    case Recorded(r) =>
      var op := RecordOp(sha, s, r);
      RecordingNeverSelfParents(sha, s, r);
      InsertKeepsInv(s, op.hash, op.row, op.detail);
    case Managed(op) =>
      if !op.OpInsert? {
        BranchOpKeepsInv(s, op);
        assert Apply(s, op).nodes == s.nodes;
      }
  }

  /**
    Whatever is sent through the queue, fresh ids or not, lookups failing or not, every chain of the store it leaves
    reaches root: a message hashed onto itself is already present and so is ignored.
   */
  lemma {:induction false} QueueRunsReachRoot(sha: Hash, qs: seq<QueueStep>)
    requires NeverEmpty(sha)
    ensures var s := QueueReplay(sha, qs); StoreInv(s) && NoSelfParent(s.nodes) && Grounded(LinksOf(s.nodes))
  {
    if qs != [] {
      QueueRunsReachRoot(sha, qs[..|qs| - 1]);
      QueueStepKeeps(sha, QueueReplay(sha, qs[..|qs| - 1]), qs[|qs| - 1]);
    }
    GroundedIffNoSelfParent(QueueReplay(sha, qs));
  }

  /** A fork is hashed with no payload and no diagnostics: only its fork point and session count. */
  function ForkMessage(session: string): Message { Message("", Fork, "", session) }

  predicate IsFork(r: Recordable, point: NodeId, session: string) {
    r.message == ForkMessage(session) && r.hint == point
  }

  /**
    A second fork from the same point leaves no row of its own, whatever its branch, time or
    submission: its id is already taken and the insert is silently ignored.
   */
  lemma RepeatedForkLeavesNoRow(
      sha: Hash, s: Store, first: Recordable, m: Store, ops: seq<Op>, t: Store, second: Recordable,
      point: NodeId, session: string)
    requires StoreInv(s) && point in s.nodes && IsFork(first, point, session) && IsFork(second, point, session)
    requires first.lookup && second.lookup
    requires m == Apply(s, RecordOp(sha, s, first)) && RecordedId(sha, s, first) in m.nodes && t == Replay(m, ops)
    ensures RecordedId(sha, t, second) == RecordedId(sha, s, first)
    ensures Apply(t, RecordOp(sha, t, second)).nodes == t.nodes
  {
    var op := RecordOp(sha, s, first);
    InsertKeepsInv(s, op.hash, op.row, op.detail);
    ReplayKeepsInv(m, ops);
  }

  /** No well-formed session ends in a shorter one, but for the one with a URN prefix. */
  lemma SessionSuffix(s: string, t: string)
    requires RoutingTypes.IsSessionId(s) && RoutingTypes.IsSessionId(t) && |s| < |t|
    ensures s != t[|t| - |s|..] || (|s| == 36 && |t| == 45 && t[8] == ':')
  {
    var end := t[|t| - |s|..];
    assert end[|s| - 1] == t[|t| - 1];
    if |s| == 32 { assert end[19] == t[|t| - 13]; }
    assert "urn:uuid:"[8] == ':';
    if |t| == 45 { assert t[..9][8] == t[8]; }
  }

  lemma ForkTextsCancel(a: string, s: string, b: string, t: string)
    requires RoutingTypes.IsSessionId(s) && RoutingTypes.IsSessionId(t) && |s| <= |t|
    ensures a + "fork" + s == b + "fork" + t ==> a == b && s == t
  {
    var x, y := a + "fork" + s, b + "fork" + t;
    assert x[|x| - |s|..] == s && y[|y| - |s|..] == t[|t| - |s|..];
    if |s| < |t| {
      SessionSuffix(s, t);
      assert x[|x| - |s| - 1] == 'k' && y[|y| - |s| - 1] == t[|t| - |s| - 1];
    } else {
      assert x[..|x| - |s| - 4] == a && y[..|y| - |s| - 4] == b;
    }
  }

  /**
    When two forks get one id: exactly if their rows have one parent and their sessions are the
    same, whatever well-formed way the sessions are written. Forks from two stored points get
    two ids.
   */
  lemma ForkIdsAgreeExactly(
      sha: Hash, s: Store, first: Recordable, t: Store, second: Recordable,
      p: NodeId, q: NodeId, x: string, y: string)
    requires Injective(sha) && IsFork(first, p, x) && IsFork(second, q, y)
    requires RoutingTypes.IsSessionId(x) && RoutingTypes.IsSessionId(y)
    ensures RecordedId(sha, s, first) == RecordedId(sha, t, second) <==>
        RecordedParent(s, first) == RecordedParent(t, second) && x == y
    ensures p in s.nodes && q in t.nodes && first.lookup && second.lookup ==>
        (RecordedId(sha, s, first) == RecordedId(sha, t, second) <==> p == q && x == y)
  {
    var a, b := RecordedParent(s, first), RecordedParent(t, second);
    var f, g := Fields("", a, Fork, "", x), Fields("", b, Fork, "", y);
    assert Preimage(f) == a + "fork" + x && Preimage(g) == b + "fork" + y;
    assert RecordedId(sha, s, first) == sha(Preimage(f)) && RecordedId(sha, t, second) == sha(Preimage(g));
    if |x| <= |y| { ForkTextsCancel(a, x, b, y); } else { ForkTextsCancel(b, y, a, x); }
  }
}
