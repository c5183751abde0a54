/**
  Which rows can one turn leave? An exact answer: the alternating trees in which every request
  has at most one response in use, and the final head was the last to come into use. Here a
  turn is seen by itself, its invoke as first row; `ChainTurns` puts it into a longer history.
 */
module ChainShapes {
  import opened Text
  import opened Dag
  import opened ChainHead

  type Rows = map<NodeId, Node>

  /** A turn by itself, before its first call. */
  predicate Opening(s: Sys, v: NodeId) {
    && s.stage == Running(v) && s.cells.head == v && s.calls == map[] && s.past == {v}
    && s.nodes == map[v := Node(ROOT, InvokeNode, v, s.cells.routing.submission, 0)]
    && v != ROOT && v in s.used && s.requests == map[] && s.replies == map[]
  }

  /** An event of the agent's turn, with a store that answers. */
  predicate Tidy(e: Event) {
    match e
    case BeginCall(_) => true
    case ReadHead(_) => true
    case ReadState(_) => true
    case SendRequest(_, r) => r.lookup && r.stored
    case Respond(_, r, _) => r.lookup && r.stored
    case Receive(_, _) => true
    case FailCall(_) => true
    case AdvanceHead(_) => true
    case AdvanceState(_) => true
    case _ => false
  }

  predicate AllTidy(es: seq<Event>) { forall e :: e in es ==> Tidy(e) }

  // ---------------------------------------------------------------- the shape

  predicate IsRequest(nodes: Rows, n: NodeId) { n in nodes && nodes[n].kind == RequestNode }

  predicate IsResponse(nodes: Rows, n: NodeId) { n in nodes && nodes[n].kind == ResponseNode }

  predicate HasRank(nodes: Rows, i: nat) { exists n :: n in nodes && nodes[n].rank == i }

  predicate RankBelow(nodes: Rows, n: NodeId)
    requires n in nodes
  {
    nodes[n].rank < |nodes|
  }

  predicate SameRank(nodes: Rows, m: NodeId, n: NodeId) { m in nodes && n in nodes && nodes[m].rank == nodes[n].rank }

  /** Rows in insertion order 0, 1, 2, …, every parent before its child. */
  ghost predicate Ranked(nodes: Rows) {
    && (forall n {:trigger RankBelow(nodes, n)} :: n in nodes ==> RankBelow(nodes, n))
    && (forall m, n {:trigger SameRank(nodes, m, n)} :: SameRank(nodes, m, n) ==> m == n)
    && (forall i: nat :: i < |nodes| ==> HasRank(nodes, i))
  }

  predicate HangsRight(nodes: Rows, v: NodeId, u: string, n: NodeId)
    requires n in nodes
  {
    var p := nodes[n].parent;
    if n == v then nodes[n] == Node(ROOT, InvokeNode, v, u, 0)
    else
      && nodes[n].turn == v && nodes[n].submission == u
      && p in nodes && nodes[p].rank < nodes[n].rank
      && (nodes[n].kind == RequestNode || nodes[n].kind == ResponseNode)
      && (nodes[n].kind == RequestNode ==> p == v || nodes[p].kind == ResponseNode)
      && (nodes[n].kind == ResponseNode ==> nodes[p].kind == RequestNode)
  }

  /** Invoke, request, response, request, … along every branch. */
  ghost predicate Alternating(nodes: Rows, v: NodeId, u: string) {
    && v in nodes && ROOT !in nodes && Ranked(nodes)
    && forall n {:trigger HangsRight(nodes, v, u, n)} :: n in nodes ==> HangsRight(nodes, v, u, n)
  }

  predicate HasChild(nodes: Rows, p: NodeId) {
    exists k :: k in nodes && nodes[k].parent == p
  }

  predicate InUse(nodes: Rows, head: NodeId, r: NodeId) {
    IsResponse(nodes, r) && (r == head || HasChild(nodes, r))
  }

  ghost predicate OneInUse(nodes: Rows, head: NodeId) {
    forall r, s :: InUse(nodes, head, r) && InUse(nodes, head, s) && nodes[r].parent == nodes[s].parent ==> r == s
  }

  /** Every other response in use was recorded before anything hangs on the head. */
  ghost predicate HeadCameLast(nodes: Rows, head: NodeId) {
    forall r, k :: InUse(nodes, head, r) && r != head && k in nodes && nodes[k].parent == head
      ==> nodes[r].rank < nodes[k].rank
  }

  ghost predicate TurnShape(nodes: Rows, v: NodeId, u: string, head: NodeId) {
    && Alternating(nodes, v, u)
    && (head == v || IsResponse(nodes, head))
    && OneInUse(nodes, head)
    && HeadCameLast(nodes, head)
  }

  // ---------------------------------------------------------------- every run has the shape

  predicate CallTidy(s: Sys, v: NodeId, u: string, p: Phase) {
    p.turn == v &&
    match p
    case Begun(_, r, _) => r.submission == u
    case HeadRead(_, r, _, parent) => r.submission == u && parent in s.past
    case Ready(_, r, _, parent, _) => r.submission == u && parent in s.past
    case Waiting(_, q) => IsRequest(s.nodes, q) && Unused(s, q)
    case Received(_, q, r, _) =>
      IsRequest(s.nodes, q) && Unused(s, q) && IsResponse(s.nodes, r) && s.nodes[r].parent == q
    case HeadSet(_, _) => true
  }

  predicate Answers(nodes: Rows, r: NodeId, q: NodeId) { IsResponse(nodes, r) && nodes[r].parent == q }

  /** Two responses to one request. */
  predicate Siblings(nodes: Rows, r: NodeId, s: NodeId) {
    IsResponse(nodes, r) && IsResponse(nodes, s) && nodes[r].parent == nodes[s].parent
  }

  /** No response to `q` has been the head yet. */
  predicate Unused(s: Sys, q: NodeId) {
    forall r {:trigger Answers(s.nodes, r, q)} :: r in s.past ==> !Answers(s.nodes, r, q)
  }

  predicate Holds(p: Phase, q: NodeId) { (p.Waiting? || p.Received?) && p.request == q }

  predicate Share(calls: map<nat, Phase>, c: nat, d: nat) {
    c in calls && d in calls && (calls[c].Waiting? || calls[c].Received?) && Holds(calls[d], calls[c].request)
  }

  ghost predicate NoShare(calls: map<nat, Phase>) {
    forall c, d {:trigger Share(calls, c, d)} :: Share(calls, c, d) ==> c == d
  }

  predicate PastOk(s: Sys, v: NodeId) {
    && v in s.past && s.cells.head in s.past
    && (forall p :: p in s.past ==> p == v || IsResponse(s.nodes, p))
    && (forall p, r {:trigger Siblings(s.nodes, p, r)} :: p in s.past && r in s.past && Siblings(s.nodes, p, r) ==>
         p == r)
  }

  predicate Before(nodes: Rows, p: NodeId, k: NodeId) {
    p in nodes && k in nodes && nodes[p].rank < nodes[k].rank
  }

  predicate ChildOk(s: Sys, k: NodeId)
    requires k in s.nodes
  {
    && s.nodes[k].parent in s.past
    && (s.nodes[k].parent == s.cells.head ==>
          forall p {:trigger Before(s.nodes, p, k)} :: p in s.past && p != s.cells.head ==> Before(s.nodes, p, k))
  }

  ghost predicate ChildrenOk(s: Sys) {
    forall k {:trigger ChildOk(s, k)} :: IsRequest(s.nodes, k) ==> ChildOk(s, k)
  }

  predicate SentFor(r: SentRequest, v: NodeId, u: string) { r.turn == v && r.submission == u }

  ghost predicate TurnInv(s: Sys, v: NodeId, u: string) {
    && s.stage == Running(v) && s.cells.routing.submission == u
    && s.nodes.Keys <= s.used
    && Alternating(s.nodes, v, u)
    && PastOk(s, v)
    && ChildrenOk(s)
    && (forall c :: c in s.calls ==> CallTidy(s, v, u, s.calls[c]))
    && NoShare(s.calls)
    && (forall q :: q in s.requests ==> IsRequest(s.nodes, q) && SentFor(s.requests[q], v, u))
    && (forall r :: r in s.replies ==> IsResponse(s.nodes, r) && s.nodes[r].parent == s.replies[r].request)
  }

  lemma OpeningTurnInv(s: Sys, v: NodeId)
    requires Opening(s, v)
    ensures TurnInv(s, v, s.cells.routing.submission)
  {
    assert |s.nodes| == 1 && s.nodes[v].rank == 0;
  }

  lemma RankedGrows(nodes: Rows, id: NodeId, n: Node)
    requires Ranked(nodes) && id !in nodes && n.rank == |nodes|
    ensures Ranked(nodes[id := n])
  {
    var more := nodes[id := n];
    forall m | m in more ensures RankBelow(more, m) {
      if m != id { assert RankBelow(nodes, m); }
    }
    forall m, k | SameRank(more, m, k) ensures m == k {
      assert k in nodes ==> RankBelow(nodes, k);
      assert m in nodes ==> RankBelow(nodes, m);
      if m in nodes && k in nodes { assert SameRank(nodes, m, k); }
    }
    forall i: nat | i < |more| ensures HasRank(more, i) {
      if i == |nodes| {
        assert id in more && more[id].rank == i;
      } else {
        assert HasRank(nodes, i);
        var m :| m in nodes && nodes[m].rank == i;
        assert m in more && more[m].rank == i;
      }
    }
  }

  lemma AlternatingGrows(nodes: Rows, v: NodeId, u: string, id: NodeId, n: Node)
    requires Alternating(nodes, v, u) && id !in nodes && id != ROOT && n.rank == |nodes|
    requires HangsRight(nodes[id := n], v, u, id)
    ensures Alternating(nodes[id := n], v, u)
  {
    var more := nodes[id := n];
    RankedGrows(nodes, id, n);
    forall m | m in more ensures HangsRight(more, v, u, m) {
      if m != id { assert HangsRight(nodes, v, u, m); }
    }
  }

  predicate CanStore(s: Sys, r: Recording) { r.id != ROOT && r.id !in s.used && r.lookup && r.stored }

  /** Appending a row keeps what is said of the rows already there. */
  lemma CallTidyGrows(s: Sys, t: Sys, v: NodeId, u: string, id: NodeId, n: Node, p: Phase)
    requires id !in s.nodes && t.nodes == s.nodes[id := n] && t.past == s.past && id !in s.past
    requires CallTidy(s, v, u, p)
    ensures CallTidy(t, v, u, p)
  {
    if p.Waiting? || p.Received? {
      forall r | r in t.past ensures !Answers(t.nodes, r, p.request) { assert !Answers(s.nodes, r, p.request); }
    }
  }

  lemma PastGrows(s: Sys, t: Sys, v: NodeId, id: NodeId, n: Node)
    requires PastOk(s, v) && id !in s.nodes && t.nodes == s.nodes[id := n] && t.past == s.past && t.cells == s.cells
    requires v in s.nodes
    ensures PastOk(t, v) && id !in s.past
  {
    forall p, r | p in t.past && r in t.past && Siblings(t.nodes, p, r) ensures p == r {
      assert p == v || IsResponse(s.nodes, p);
      assert r == v || IsResponse(s.nodes, r);
      assert Siblings(s.nodes, p, r);
    }
  }

  lemma ChildGrows(s: Sys, t: Sys, id: NodeId, n: Node, k: NodeId)
    requires id !in s.nodes && t.nodes == s.nodes[id := n] && t.past == s.past && t.cells == s.cells
    requires k in s.nodes && ChildOk(s, k)
    ensures ChildOk(t, k)
  {
    if t.nodes[k].parent == t.cells.head {
      forall p | p in t.past && p != t.cells.head ensures Before(t.nodes, p, k) { assert Before(s.nodes, p, k); }
    }
  }

  lemma SendKeeps(s: Sys, v: NodeId, u: string, c: nat, r: Recording)
    requires TurnInv(s, v, u) && c in s.calls && s.calls[c].Ready? && CanStore(s, r)
    ensures TurnInv(RequestSent(s, c, s.calls[c], r), v, u)
  {
    var p := s.calls[c];
    assert CallTidy(s, v, u, p);
    var n := Node(p.parent, RequestNode, v, u, |s.nodes|);
    var t := RequestSent(s, c, p, r);
    assert HangsRight(s.nodes, v, u, v) && RankBelow(s.nodes, p.parent);
    assert t.nodes == s.nodes[r.id := n];
    AlternatingGrows(s.nodes, v, u, r.id, n);
    PastGrows(s, t, v, r.id, n);
    forall k | IsRequest(t.nodes, k) ensures ChildOk(t, k) {
      if k != r.id {
        ChildGrows(s, t, r.id, n, k);
      } else {
        forall m | m in t.past ensures Before(t.nodes, m, k) { assert RankBelow(s.nodes, m); }
      }
    }
    forall d | d in t.calls ensures CallTidy(t, v, u, t.calls[d]) {
      if d != c {
        CallTidyGrows(s, t, v, u, r.id, n, s.calls[d]);
      } else {
        forall m | m in t.past ensures !Answers(t.nodes, m, r.id) {
          if IsResponse(s.nodes, m) { assert HangsRight(s.nodes, v, u, m); }
        }
      }
    }
    forall d, e | Share(t.calls, d, e) ensures d == e {
      assert d != c ==> CallTidy(s, v, u, s.calls[d]);
      assert e != c ==> CallTidy(s, v, u, s.calls[e]);
      if d != c && e != c { assert Share(s.calls, d, e); }
    }
  }

  lemma RespondKeeps(s: Sys, v: NodeId, u: string, q: NodeId, r: Recording, newState: Option<string>)
    requires TurnInv(s, v, u) && q in s.requests && CanStore(s, r)
    ensures TurnInv(Responded(s, q, s.requests[q], r, newState), v, u)
  {
    var n := Node(q, ResponseNode, v, u, |s.nodes|);
    var t := Responded(s, q, s.requests[q], r, newState);
    assert HangsRight(s.nodes, v, u, v) && RankBelow(s.nodes, q);
    assert t.nodes == s.nodes[r.id := n];
    AlternatingGrows(s.nodes, v, u, r.id, n);
    PastGrows(s, t, v, r.id, n);
    forall k | IsRequest(t.nodes, k) ensures ChildOk(t, k) { ChildGrows(s, t, r.id, n, k); }
    forall d | d in t.calls ensures CallTidy(t, v, u, t.calls[d]) { CallTidyGrows(s, t, v, u, r.id, n, s.calls[d]); }
  }

  lemma AdvanceKeepsPast(s: Sys, v: NodeId, u: string, c: nat)
    requires TurnInv(s, v, u) && c in s.calls && s.calls[c].Received?
    ensures s.calls[c].response !in s.past && PastOk(Next(s, AdvanceHead(c)), v)
  {
    var p := s.calls[c];
    var t := Next(s, AdvanceHead(c));
    assert CallTidy(s, v, u, p) && HangsRight(s.nodes, v, u, v);
    assert Answers(s.nodes, p.response, p.request);
    forall a, b | a in t.past && b in t.past && Siblings(t.nodes, a, b) ensures a == b {
      assert Siblings(s.nodes, a, b);
      assert b in s.past ==> !Answers(s.nodes, b, p.request);
      assert a in s.past ==> !Answers(s.nodes, a, p.request);
    }
  }

  lemma AdvanceKeeps(s: Sys, v: NodeId, u: string, c: nat)
    requires TurnInv(s, v, u) && c in s.calls && s.calls[c].Received?
    ensures TurnInv(Next(s, AdvanceHead(c)), v, u)
  {
    var p := s.calls[c];
    var t := Next(s, AdvanceHead(c));
    AdvanceKeepsPast(s, v, u, c);
    forall k | IsRequest(t.nodes, k) ensures ChildOk(t, k) { assert ChildOk(s, k); }
    forall d | d in t.calls ensures CallTidy(t, v, u, t.calls[d]) {
      if d != c { OtherCallTidy(s, t, v, u, c, d); }
    }
    forall d, e | Share(t.calls, d, e) ensures d == e { assert Share(s.calls, d, e); }
  }

  lemma OtherCallTidy(s: Sys, t: Sys, v: NodeId, u: string, c: nat, d: nat)
    requires c in s.calls && s.calls[c].Received? && d in s.calls && d != c && NoShare(s.calls)
    requires CallTidy(s, v, u, s.calls[c]) && CallTidy(s, v, u, s.calls[d])
    requires t.nodes == s.nodes && t.past == s.past + {s.calls[c].response}
    ensures CallTidy(t, v, u, s.calls[d])
  {
    var p := s.calls[d];
    if p.Waiting? || p.Received? {
      assert !Share(s.calls, d, c);
      forall r | r in t.past ensures !Answers(t.nodes, r, p.request) {
        if r in s.past { assert !Answers(s.nodes, r, p.request); }
      }
    }
  }

  lemma CallTidySame(s: Sys, t: Sys, v: NodeId, u: string, p: Phase)
    requires t.nodes == s.nodes && t.past == s.past && CallTidy(s, v, u, p)
    ensures CallTidy(t, v, u, p)
  {
    if p.Waiting? || p.Received? {
      forall r | r in t.past ensures !Answers(t.nodes, r, p.request) { assert !Answers(s.nodes, r, p.request); }
    }
  }

  lemma QuietKeeps(s: Sys, v: NodeId, u: string, e: Event)
    requires TurnInv(s, v, u) && Enabled(s, e) && Tidy(e)
    requires !e.SendRequest? && !e.Respond? && !e.AdvanceHead?
    ensures TurnInv(Next(s, e), v, u)
  {
    var t, c := Next(s, e), e.call;
    assert PastOk(t, v) by {
      forall p, r | p in t.past && r in t.past && Siblings(t.nodes, p, r) ensures p == r {
        assert Siblings(s.nodes, p, r);
      }
    }
    forall k | IsRequest(t.nodes, k) ensures ChildOk(t, k) {
      assert ChildOk(s, k);
      if t.nodes[k].parent == t.cells.head {
        forall p | p in t.past && p != t.cells.head ensures Before(t.nodes, p, k) { assert Before(s.nodes, p, k); }
      }
    }
    forall d | d in t.calls ensures CallTidy(t, v, u, t.calls[d]) {
      if d != c { CallTidySame(s, t, v, u, s.calls[d]); } else { QuietCallTidy(s, v, u, e); }
    }
    forall d, f | Share(t.calls, d, f) ensures d == f { assert Share(s.calls, d, f); }
  }

  lemma QuietCallTidy(s: Sys, v: NodeId, u: string, e: Event)
    requires TurnInv(s, v, u) && Enabled(s, e) && Tidy(e)
    requires !e.SendRequest? && !e.Respond? && !e.AdvanceHead?
    ensures var t := Next(s, e); e.call in t.calls ==> CallTidy(t, v, u, t.calls[e.call])
  {
    if e.call in s.calls {
      assert CallTidy(s, v, u, s.calls[e.call]);
      CallTidySame(s, Next(s, e), v, u, s.calls[e.call]);
    }
  }

  lemma TidyStepKeeps(s: Sys, v: NodeId, u: string, e: Event)
    requires TurnInv(s, v, u) && Enabled(s, e) && Tidy(e)
    ensures TurnInv(Next(s, e), v, u)
  {
    match e
    case SendRequest(c, r) => SendKeeps(s, v, u, c, r);
    case Respond(q, r, newState) => RespondKeeps(s, v, u, q, r, newState);
    case AdvanceHead(c) => AdvanceKeeps(s, v, u, c);
    case _ => QuietKeeps(s, v, u, e);
  }

  lemma TurnInvHasShape(s: Sys, v: NodeId, u: string)
    requires TurnInv(s, v, u)
    ensures TurnShape(s.nodes, v, u, s.cells.head)
  {
    var head := s.cells.head;
    assert HangsRight(s.nodes, v, u, v);
    forall r | InUse(s.nodes, head, r) ensures r in s.past {
      if r != head {
        var k :| k in s.nodes && s.nodes[k].parent == r;
        assert HangsRight(s.nodes, v, u, k) && ChildOk(s, k);
      }
    }
    forall r, k | InUse(s.nodes, head, r) && r != head && k in s.nodes && s.nodes[k].parent == head
      ensures s.nodes[r].rank < s.nodes[k].rank
    {
      assert HangsRight(s.nodes, v, u, k) && ChildOk(s, k) && Before(s.nodes, r, k);
    }
    forall r, q | InUse(s.nodes, head, r) && InUse(s.nodes, head, q) && s.nodes[r].parent == s.nodes[q].parent
      ensures r == q {
      assert Siblings(s.nodes, r, q);
    }
  }

  // ---------------------------------------------------------------- every shape has a run

  /**
    The plan of a schedule: the rows to produce, the invoke they start from, the head to end on.
    `older` are the ids in use before.
   */
  datatype Plan = Plan(nodes: Rows, v: NodeId, routing: Routing, head: NodeId, older: set<NodeId>)

  /** Only the invoke is there before the turn. */
  ghost predicate FreshBut(nodes: Rows, v: NodeId, older: set<NodeId>) {
    v in older && forall n {:trigger IsNew(n, v, older)} :: n in nodes ==> IsNew(n, v, older)
  }

  predicate IsNew(n: NodeId, v: NodeId, older: set<NodeId>) { n == v || n !in older }

  ghost predicate Planned(p: Plan) {
    TurnShape(p.nodes, p.v, p.routing.submission, p.head) && FreshBut(p.nodes, p.v, p.older)
  }

  function Built(nodes: Rows, i: nat): Rows { map n | n in nodes && nodes[n].rank < i :: nodes[n] }

  ghost function At(nodes: Rows, i: nat): (n: NodeId)
    requires Ranked(nodes) && i < |nodes|
    ensures n in nodes && nodes[n].rank == i
  {
    assert HasRank(nodes, i);
    var n :| n in nodes && nodes[n].rank == i;
    n
  }

  lemma AtIs(nodes: Rows, n: NodeId)
    requires Ranked(nodes) && n in nodes
    ensures nodes[n].rank < |nodes| && At(nodes, nodes[n].rank) == n
  {
    assert RankBelow(nodes, n);
    assert SameRank(nodes, n, At(nodes, nodes[n].rank));
  }

  lemma {:induction false} BuiltGrows(nodes: Rows, i: nat)
    requires Ranked(nodes) && i < |nodes|
    ensures At(nodes, i) !in Built(nodes, i)
    ensures Built(nodes, i + 1) == Built(nodes, i)[At(nodes, i) := nodes[At(nodes, i)]]
  {
    var n := At(nodes, i);
    forall m | m in nodes && nodes[m].rank == i ensures m == n { assert SameRank(nodes, m, n); }
  }

  lemma {:induction false} BuiltSize(nodes: Rows, i: nat)
    requires Ranked(nodes) && i <= |nodes|
    ensures |Built(nodes, i)| == i
  {
    if i > 0 {
      BuiltSize(nodes, i - 1);
      BuiltGrows(nodes, i - 1);
    } else {
      assert Built(nodes, 0) == map[];
    }
  }

  lemma BuiltWhole(nodes: Rows)
    requires Ranked(nodes)
    ensures Built(nodes, |nodes|) == nodes
  {
    forall n | n in nodes ensures n in Built(nodes, |nodes|) { assert RankBelow(nodes, n); }
  }

  /** A response that is to become the head and answers `q`, not yet among `past`. */
  predicate Pending(p: Plan, q: NodeId, past: set<NodeId>, r: NodeId) {
    InUse(p.nodes, p.head, r) && p.nodes[r].parent == q && r !in past
  }

  predicate Awaited(p: Plan, q: NodeId, past: set<NodeId>) {
    exists r :: r in p.nodes && Pending(p, q, past, r)
  }

  /** Call `c` serves the request of rank `c`: ready from its parent's turn as head until sent, then waiting. */
  predicate PhaseFits(p: Plan, i: nat, c: nat, q: NodeId, phase: Phase)
    requires q in p.nodes
  {
    if c >= i then phase.Ready? && phase.turn == p.v && phase.routing == p.routing && phase.parent == p.nodes[q].parent
    else phase == Waiting(p.v, q)
  }

  predicate Open(p: Plan, i: nat, past: set<NodeId>, c: nat, q: NodeId)
    requires q in p.nodes
  {
    p.nodes[q].kind == RequestNode && if c >= i then p.nodes[q].parent in past else Awaited(p, q, past)
  }

  /** The calls in flight after `i` rows; those of number `j` and above have not seen the newest head. */
  predicate CallFits(p: Plan, i: nat, j: nat, older: set<NodeId>, s: Sys, q: NodeId)
    requires q in p.nodes
  {
    var c := p.nodes[q].rank;
    && (c in s.calls <==> Open(p, i, if c < j then s.past else older, c, q))
    && (c in s.calls ==> PhaseFits(p, i, c, q, s.calls[c]))
  }

  predicate CallsFit(p: Plan, i: nat, j: nat, older: set<NodeId>, s: Sys) {
    && (forall q {:trigger CallFits(p, i, j, older, s, q)} :: q in p.nodes ==> CallFits(p, i, j, older, s, q))
    && (forall c :: c in s.calls ==> c < |p.nodes|)
  }

  /** Everything about a scheduled state but its calls and its head. */
  ghost predicate TablesFit(p: Plan, i: nat, s: Sys) {
    && s.stage == Running(p.v)
    && s.cells.routing == p.routing
    && s.nodes == Built(p.nodes, i)
    && s.used == p.older + s.nodes.Keys
    && (forall q :: IsRequest(s.nodes, q) ==>
         q in s.requests && SentFor(s.requests[q], p.v, p.routing.submission))
    && (forall r :: IsResponse(s.nodes, r) ==> r in s.replies && s.replies[r] == Reply(s.nodes[r].parent, None))
  }

  /** What has been the head after `i` rows: all that is in use, the final head only once `done`. */
  ghost predicate PastFits(p: Plan, i: nat, done: bool, s: Sys) {
    forall r :: r in s.past <==>
      r == p.v || (InUse(p.nodes, p.head, r) && p.nodes[r].rank < i && (r != p.head || done))
  }

  /** A waiting call takes its response, makes it the head and ends. */
  lemma CallEnds(s: Sys, c: nat, r: NodeId) returns (es: seq<Event>, t: Sys)
    requires c in s.calls && s.calls[c].Waiting? && r in s.replies && s.replies[r] == Reply(s.calls[c].request, None)
    ensures AllTidy(es) && Run(s, es) == Some(t)
    ensures t == s.(cells := s.cells.(head := r), past := s.past + {r}, calls := s.calls - {c})
  {
    es := [Receive(c, r), AdvanceHead(c), AdvanceState(c)];
    var s1, s2 := TakeResponse(s, c, r);
    t := Next(s2, AdvanceState(c));
    RunThree(s, Receive(c, r), s1, AdvanceHead(c), s2, AdvanceState(c), t);
    assert t.calls == s.calls - {c};
  }

  predicate OnlyCallsMoved(s: Sys, t: Sys) {
    t == s.(cells := s.cells.(sequence := t.cells.sequence), calls := t.calls)
  }

  lemma RunJoin(s: Sys, es: seq<Event>, m: Sys, fs: seq<Event>, t: Sys)
    requires Run(s, es) == Some(m) && Run(m, fs) == Some(t) && AllTidy(es) && AllTidy(fs)
    ensures Run(s, es + fs) == Some(t) && AllTidy(es + fs)
  {
    RunAppend(s, es, fs);
  }

  /** Whether the call of the request of rank `j` begins now: it hangs on the head just taken. */
  predicate Begins(p: Plan, q: NodeId, older: set<NodeId>, past: set<NodeId>)
    requires q in p.nodes
  {
    p.nodes[q].kind == RequestNode && p.nodes[q].parent in past && p.nodes[q].parent !in older
  }

  lemma ChildFits(p: Plan, i: nat, j: nat, older: set<NodeId>, s: Sys, t: Sys, q: NodeId, m: NodeId)
    requires Ranked(p.nodes) && i <= j && q in p.nodes && p.nodes[q].rank == j && m in p.nodes
    requires CallFits(p, i, j, older, s, m) && t.past == s.past && older <= s.past
    requires if Begins(p, q, older, s.past)
             then j !in s.calls && j in t.calls && t.calls == s.calls[j := t.calls[j]] &&
                 PhaseFits(p, i, j, q, t.calls[j])
             else t.calls == s.calls
    ensures CallFits(p, i, j + 1, older, t, m)
  {
    if p.nodes[m].rank == j { assert SameRank(p.nodes, m, q); }
  }

  lemma ChildStarts(p: Plan, i: nat, j: nat, older: set<NodeId>, s: Sys) returns (es: seq<Event>, t: Sys)
    requires Planned(p) && i <= j < |p.nodes| && CallsFit(p, i, j, older, s)
    requires s.stage == Running(p.v) && s.cells.routing == p.routing && s.past == older + {s.cells.head}
    ensures AllTidy(es) && Run(s, es) == Some(t) && OnlyCallsMoved(s, t) && CallsFit(p, i, j + 1, older, t)
  {
    var q := At(p.nodes, j);
    assert CallFits(p, i, j, older, s, q);
    es, t := [], s;
    if Begins(p, q, older, s.past) {
      es := [BeginCall(j), ReadHead(j), ReadState(j)];
      t := CallReads(s, j);
    }
    forall m | m in p.nodes ensures CallFits(p, i, j + 1, older, t, m) {
      assert CallFits(p, i, j, older, s, m);
      ChildFits(p, i, j, older, s, t, q, m);
    }
  }

  /** After the head moved: every call whose request hangs on the new head begins and reads it. */
  lemma {:induction false} ChildrenStart(
      p: Plan, i: nat, j: nat, older: set<NodeId>, s: Sys)
      returns (es: seq<Event>, t: Sys)
    requires Planned(p) && i <= j <= |p.nodes| && CallsFit(p, i, j, older, s)
    requires s.stage == Running(p.v) && s.cells.routing == p.routing && s.past == older + {s.cells.head}
    ensures AllTidy(es) && Run(s, es) == Some(t) && OnlyCallsMoved(s, t) && CallsFit(p, i, |p.nodes|, {}, t)
    decreases |p.nodes| - j
  {
    if j == |p.nodes| {
      es, t := [], s;
      forall m | m in p.nodes ensures CallFits(p, i, j, {}, t, m) {
        assert CallFits(p, i, j, older, s, m);
        AtIs(p.nodes, m);
      }
    } else {
      var fs, m := ChildStarts(p, i, j, older, s);
      var gs, u := ChildrenStart(p, i, j + 1, older, m);
      RunJoin(s, fs, m, gs, u);
      es, t := fs + gs, u;
    }
  }

  /** A response in use becomes the head, and the calls that hang on it begin. */
  lemma HeadMoves(p: Plan, i: nat, s: Sys, r: NodeId) returns (es: seq<Event>, t: Sys)
    requires Planned(p) && i <= |p.nodes| && TablesFit(p, i, s) && CallsFit(p, i, |p.nodes|, {}, s)
    requires InUse(p.nodes, p.head, r) && p.nodes[r].rank < i && r !in s.past
    ensures AllTidy(es) && Run(s, es) == Some(t)
    ensures TablesFit(p, i, t) && CallsFit(p, i, |p.nodes|, {}, t)
    ensures t.past == s.past + {r} && t.cells.head == r
  {
    var q := p.nodes[r].parent;
    assert HangsRight(p.nodes, p.v, p.routing.submission, r);
    AtIs(p.nodes, q);
    assert CallFits(p, i, |p.nodes|, {}, s, q);
    var c := p.nodes[q].rank;
    assert Pending(p, q, s.past, r);
    assert r in s.nodes && IsResponse(s.nodes, r);
    var fs, m := CallEnds(s, c, r);
    forall n | n in p.nodes ensures CallFits(p, i, i, s.past, m, n) {
      AtIs(p.nodes, n);
      assert CallFits(p, i, |p.nodes|, {}, s, n);
      if n != q { OthersStillAwait(p, r, n, s.past); } else { NoneAwait(p, r, s.past); }
      if p.nodes[n].rank == c { assert SameRank(p.nodes, n, q); }
    }
    var gs, u := ChildrenStart(p, i, i, s.past, m);
    RunJoin(s, fs, m, gs, u);
    es, t := fs + gs, u;
  }

  lemma OthersStillAwait(p: Plan, r: NodeId, n: NodeId, past: set<NodeId>)
    requires r in p.nodes && p.nodes[r].parent != n
    ensures Awaited(p, n, past + {r}) == Awaited(p, n, past)
  {
    if Awaited(p, n, past) {
      var a :| a in p.nodes && Pending(p, n, past, a);
      assert Pending(p, n, past + {r}, a);
    }
    if Awaited(p, n, past + {r}) {
      var a :| a in p.nodes && Pending(p, n, past + {r}, a);
      assert Pending(p, n, past, a);
    }
  }

  lemma NoneAwait(p: Plan, r: NodeId, past: set<NodeId>)
    requires Planned(p) && InUse(p.nodes, p.head, r)
    ensures !Awaited(p, p.nodes[r].parent, past + {r})
  {
    forall a | a in p.nodes ensures !Pending(p, p.nodes[r].parent, past + {r}, a) {}
  }

  // ---------------------------------------------------------------- the schedule, row by row

  /** Once the head is final, whatever else is in use has been recorded. */
  ghost predicate Settled(p: Plan, i: nat) {
    forall r {:trigger InUse(p.nodes, p.head, r)} :: InUse(p.nodes, p.head, r) && r != p.head ==> p.nodes[r].rank < i
  }

  ghost predicate Fits(p: Plan, i: nat, done: bool, s: Sys) {
    && 1 <= i <= |p.nodes|
    && TablesFit(p, i, s) && PastFits(p, i, done, s) && CallsFit(p, i, |p.nodes|, {}, s)
    && (done ==>
         s.cells.head == p.head && Settled(p, i) && (p.head == p.v || (p.head in p.nodes && p.nodes[p.head].rank < i)))
    && (p.head == p.v ==> done)
  }

  /** If the turn ends on its invoke, no response was ever in use. */
  lemma {:induction false} NothingInUse(p: Plan, r: NodeId)
    requires Planned(p) && p.head == p.v
    ensures !InUse(p.nodes, p.head, r)
    decreases if r in p.nodes then p.nodes[r].rank else 0
  {
    if InUse(p.nodes, p.head, r) {
      var u := p.routing.submission;
      assert HangsRight(p.nodes, p.v, u, p.v) && HangsRight(p.nodes, p.v, u, r);
      var q := p.nodes[r].parent;
      assert HangsRight(p.nodes, p.v, u, q);
      var a := p.nodes[q].parent;
      if a != p.v {
        assert InUse(p.nodes, p.head, a);
        NothingInUse(p, a);
      }
    }
  }

  lemma StartCalls(p: Plan, s: Sys)
    requires Planned(p) && Opening(s, p.v) && s.used == p.older && s.cells.routing == p.routing
    ensures TablesFit(p, 1, s) && CallsFit(p, 1, 1, {}, s) && PastFits(p, 1, p.head == p.v, s)
  {
    assert HangsRight(p.nodes, p.v, p.routing.submission, p.v) && RankBelow(p.nodes, p.v);
    forall n | n in p.nodes && p.nodes[n].rank < 1 ensures n == p.v { assert SameRank(p.nodes, n, p.v); }
    assert s.nodes == Built(p.nodes, 1);
    forall n | n in p.nodes ensures CallFits(p, 1, 1, {}, s, n) {}
  }

  lemma StartFits(p: Plan, s: Sys) returns (es: seq<Event>, t: Sys)
    requires Planned(p) && Opening(s, p.v) && s.used == p.older && s.cells.routing == p.routing
    ensures AllTidy(es) && Run(s, es) == Some(t)
    ensures Fits(p, 1, p.head == p.v, t)
  {
    StartCalls(p, s);
    assert RankBelow(p.nodes, p.v);
    es, t := ChildrenStart(p, 1, 1, {}, s);
    assert TablesFit(p, 1, t);
    if p.head == p.v {
      forall r ensures !InUse(p.nodes, p.head, r) { NothingInUse(p, r); }
    }
  }

  /** The final head is taken once everything else in use is recorded. */
  lemma HeadIsTaken(p: Plan, i: nat, s: Sys) returns (es: seq<Event>, t: Sys)
    requires Planned(p) && Fits(p, i, false, s) && Settled(p, i) && p.head in p.nodes && p.nodes[p.head].rank < i
    ensures AllTidy(es) && Run(s, es) == Some(t) && Fits(p, i, true, t)
  {
    assert InUse(p.nodes, p.head, p.head);
    es, t := HeadMoves(p, i, s, p.head);
  }

  // -- a response

  lemma ResponseTables(p: Plan, i: nat, s: Sys, n: NodeId) returns (t: Sys)
    requires Ranked(p.nodes) && i < |p.nodes| && TablesFit(p, i, s) && n !in p.older
    requires n == At(p.nodes, i) && n != ROOT && p.nodes[n].parent != ROOT && IsRequest(s.nodes, p.nodes[n].parent)
    requires p.nodes[n] == Node(p.nodes[n].parent, ResponseNode, p.v, p.routing.submission, i)
    ensures Steps(s, Respond(p.nodes[n].parent, Recording(n, true, true), None), t)
    ensures TablesFit(p, i + 1, t) && t.calls == s.calls && t.past == s.past && t.cells == s.cells
  {
    BuiltGrows(p.nodes, i);
    BuiltSize(p.nodes, i);
    t := Next(s, Respond(p.nodes[n].parent, Recording(n, true, true), None));
    assert t.nodes == s.nodes[n := p.nodes[n]];
  }

  lemma ResponseRecorded(p: Plan, i: nat, s: Sys) returns (es: seq<Event>, t: Sys)
    requires Planned(p) && i < |p.nodes| && p.nodes[At(p.nodes, i)].kind == ResponseNode
    requires TablesFit(p, i, s) && CallsFit(p, i, |p.nodes|, {}, s)
    ensures AllTidy(es) && Run(s, es) == Some(t) && t.past == s.past && t.cells == s.cells
    ensures TablesFit(p, i + 1, t) && CallsFit(p, i + 1, |p.nodes|, {}, t)
  {
    var n := At(p.nodes, i);
    var q := p.nodes[n].parent;
    assert HangsRight(p.nodes, p.v, p.routing.submission, p.v);
    assert HangsRight(p.nodes, p.v, p.routing.submission, n);
    assert IsNew(n, p.v, p.older);
    t := ResponseTables(p, i, s, n);
    es := [Respond(q, Recording(n, true, true), None)];
    RunOne(s, es[0]);
    forall m | m in p.nodes ensures CallFits(p, i + 1, |p.nodes|, {}, t, m) {
      assert CallFits(p, i, |p.nodes|, {}, s, m);
      if p.nodes[m].rank == i { assert SameRank(p.nodes, m, n); }
    }
  }

  /** Row `n`, the i-th, has come: it joins the past, or is not to, or is the head still to be taken. */
  lemma PastAfterRow(p: Plan, i: nat, done: bool, s: Sys, n: NodeId, t: Sys)
    requires Ranked(p.nodes) && PastFits(p, i, done, s) && n in p.nodes && p.nodes[n].rank == i
    requires t.past == if InUse(p.nodes, p.head, n) && (n != p.head || done) then s.past + {n} else s.past
    ensures PastFits(p, i + 1, done, t)
  {
    forall r | r in p.nodes && p.nodes[r].rank == i ensures r == n { assert SameRank(p.nodes, r, n); }
  }

  lemma FitsNext(p: Plan, i: nat, done: bool, s: Sys, t: Sys)
    requires Fits(p, i, done, s) && i < |p.nodes|
    requires TablesFit(p, i + 1, t) && PastFits(p, i + 1, done, t) && CallsFit(p, i + 1, |p.nodes|, {}, t)
    requires done ==> t.cells.head == s.cells.head
    ensures Fits(p, i + 1, done, t)
  {
    if done {
      forall r | InUse(p.nodes, p.head, r) && r != p.head ensures p.nodes[r].rank < i + 1 {}
    }
  }

  lemma ResponseTaken(p: Plan, i: nat, s: Sys) returns (es: seq<Event>, t: Sys)
    requires Planned(p) && i < |p.nodes| && p.nodes[At(p.nodes, i)].kind == ResponseNode && At(p.nodes, i) !in s.past
    requires TablesFit(p, i, s) && CallsFit(p, i, |p.nodes|, {}, s)
    ensures AllTidy(es) && Run(s, es) == Some(t) && TablesFit(p, i + 1, t) && CallsFit(p, i + 1, |p.nodes|, {}, t)
    ensures var n := At(p.nodes, i);
      if InUse(p.nodes, p.head, n) && n != p.head then t.past == s.past + {n} && t.cells.head == n
      else t.past == s.past && t.cells == s.cells
  {
    var n := At(p.nodes, i);
    es, t := ResponseRecorded(p, i, s);
    if InUse(p.nodes, p.head, n) && n != p.head {
      var gs, w := HeadMoves(p, i + 1, t, n);
      RunJoin(s, es, t, gs, w);
      es, t := es + gs, w;
    }
  }

  lemma ResponseStep(p: Plan, i: nat, done: bool, s: Sys) returns (es: seq<Event>, t: Sys)
    requires Planned(p) && Fits(p, i, done, s) && i < |p.nodes| && p.nodes[At(p.nodes, i)].kind == ResponseNode
    ensures AllTidy(es) && Run(s, es) == Some(t) && Fits(p, i + 1, done, t)
  {
    var n := At(p.nodes, i);
    assert HangsRight(p.nodes, p.v, p.routing.submission, p.v);
    es, t := ResponseTaken(p, i, s);
    PastAfterRow(p, i, done, s, n, t);
    FitsNext(p, i, done, s, t);
  }

  // -- a request

  lemma RequestTables(p: Plan, i: nat, s: Sys, n: NodeId) returns (t: Sys)
    requires Ranked(p.nodes) && i < |p.nodes| && TablesFit(p, i, s) && n !in p.older
    requires n == At(p.nodes, i) && n != ROOT && p.nodes[n].parent != ROOT && p.nodes[n].parent in s.nodes
    requires p.nodes[n] == Node(p.nodes[n].parent, RequestNode, p.v, p.routing.submission, i)
    requires i in s.calls && PhaseFits(p, i, i, n, s.calls[i])
    ensures Steps(s, SendRequest(i, Recording(n, true, true)), t)
    ensures TablesFit(p, i + 1, t) && t.calls == s.calls[i := Waiting(p.v, n)] && t.past == s.past && t.cells == s.cells
  {
    BuiltGrows(p.nodes, i);
    BuiltSize(p.nodes, i);
    t := Next(s, SendRequest(i, Recording(n, true, true)));
    assert t.nodes == s.nodes[n := p.nodes[n]];
  }

  lemma SendAndWait(s: Sys, e: Event, m: Sys, c: nat, keep: bool) returns (es: seq<Event>, t: Sys)
    requires Steps(s, e, m) && Tidy(e) && c in m.calls && m.calls[c].Waiting?
    ensures AllTidy(es) && Run(s, es) == Some(t)
    ensures t == if keep then m else m.(calls := m.calls - {c})
  {
    RunOne(s, e);
    if keep {
      es, t := [e], m;
    } else {
      t := Next(m, FailCall(c));
      RunOne(m, FailCall(c));
      RunJoin(s, [e], m, [FailCall(c)], t);
      es := [e] + [FailCall(c)];
    }
  }

  lemma RequestCalls(p: Plan, i: nat, s: Sys, n: NodeId, t: Sys)
    requires Ranked(p.nodes) && i < |p.nodes| && n == At(p.nodes, i) && p.nodes[n].kind == RequestNode
    requires CallsFit(p, i, |p.nodes|, {}, s) && t.past == s.past
    requires t.calls == if Awaited(p, n, s.past) then s.calls[i := Waiting(p.v, n)] else s.calls - {i}
    ensures CallsFit(p, i + 1, |p.nodes|, {}, t)
  {
    forall k | k in p.nodes ensures CallFits(p, i + 1, |p.nodes|, {}, t, k) {
      assert CallFits(p, i, |p.nodes|, {}, s, k);
      assert RankBelow(p.nodes, k);
      if p.nodes[k].rank == i { assert SameRank(p.nodes, k, n); }
    }
  }

  lemma RequestRecorded(p: Plan, i: nat, s: Sys) returns (es: seq<Event>, t: Sys)
    requires Planned(p) && i < |p.nodes| && p.nodes[At(p.nodes, i)].kind == RequestNode
    requires TablesFit(p, i, s) && CallsFit(p, i, |p.nodes|, {}, s) && p.nodes[At(p.nodes, i)].parent in s.past
    ensures AllTidy(es) && Run(s, es) == Some(t) && t.past == s.past && t.cells == s.cells
    ensures TablesFit(p, i + 1, t) && CallsFit(p, i + 1, |p.nodes|, {}, t)
  {
    var n := At(p.nodes, i);
    assert HangsRight(p.nodes, p.v, p.routing.submission, p.v);
    assert HangsRight(p.nodes, p.v, p.routing.submission, n);
    assert CallFits(p, i, |p.nodes|, {}, s, n);
    assert IsNew(n, p.v, p.older);
    var m := RequestTables(p, i, s, n);
    es, t := SendAndWait(s, SendRequest(i, Recording(n, true, true)), m, i, Awaited(p, n, s.past));
    assert s.calls[i := Waiting(p.v, n)] - {i} == s.calls - {i};
    RequestCalls(p, i, s, n, t);
  }

  /** The invoke is never a response, so what is past of the rest is in use. */
  lemma ParentIsPast(p: Plan, i: nat, done: bool, s: Sys, n: NodeId)
    requires Planned(p) && Fits(p, i, done, s) && n in p.nodes && p.nodes[n].rank == i && p.nodes[n].kind == RequestNode
    requires done || p.nodes[n].parent != p.head
    ensures p.nodes[n].parent in s.past
  {
    var a := p.nodes[n].parent;
    assert HangsRight(p.nodes, p.v, p.routing.submission, p.v);
    assert HangsRight(p.nodes, p.v, p.routing.submission, n);
    if a != p.v { assert InUse(p.nodes, p.head, a); }
  }

  lemma RequestStep(p: Plan, i: nat, s: Sys, done: bool) returns (es: seq<Event>, t: Sys)
    requires Planned(p) && Fits(p, i, done, s) && i < |p.nodes| && p.nodes[At(p.nodes, i)].kind == RequestNode
    requires p.nodes[At(p.nodes, i)].parent in s.past
    ensures AllTidy(es) && Run(s, es) == Some(t) && Fits(p, i + 1, done, t)
  {
    var n := At(p.nodes, i);
    es, t := RequestRecorded(p, i, s);
    PastAfterRow(p, i, done, s, n, t);
  }

  lemma RowStep(p: Plan, i: nat, done: bool, s: Sys) returns (es: seq<Event>, t: Sys, after: bool)
    requires Planned(p) && Fits(p, i, done, s) && i < |p.nodes|
    ensures AllTidy(es) && Run(s, es) == Some(t) && Fits(p, i + 1, after, t)
  {
    var n := At(p.nodes, i);
    var u := p.routing.submission;
    assert HangsRight(p.nodes, p.v, u, n);
    assert HangsRight(p.nodes, p.v, u, p.v);
    if p.nodes[n].kind == ResponseNode {
      after := done;
      es, t := ResponseStep(p, i, done, s);
    } else if done || p.nodes[n].parent != p.head {
      after := done;
      ParentIsPast(p, i, done, s, n);
      es, t := RequestStep(p, i, s, done);
    } else {
      after := true;
      var fs, m := HeadIsTaken(p, i, s);
      ParentIsPast(p, i, true, m, n);
      var gs, w := RequestStep(p, i, m, true);
      RunJoin(s, fs, m, gs, w);
      es, t := fs + gs, w;
    }
  }

  lemma NoCallIsLeft(p: Plan, s: Sys)
    requires Planned(p) && PastFits(p, |p.nodes|, true, s) && CallsFit(p, |p.nodes|, |p.nodes|, {}, s)
    ensures s.calls == map[]
  {
    forall q, r | r in p.nodes ensures !Pending(p, q, s.past, r) { assert RankBelow(p.nodes, r); }
    forall c: nat | c < |p.nodes| ensures c !in s.calls {
      assert CallFits(p, |p.nodes|, |p.nodes|, {}, s, At(p.nodes, c));
    }
  }

  lemma ScheduleEnds(p: Plan, done: bool, s: Sys) returns (es: seq<Event>, t: Sys)
    requires Planned(p) && Fits(p, |p.nodes|, done, s)
    ensures AllTidy(es) && Run(s, es) == Some(t) && Fits(p, |p.nodes|, true, t)
  {
    if done {
      es, t := [], s;
    } else {
      assert RankBelow(p.nodes, p.head);
      forall r | InUse(p.nodes, p.head, r) ensures p.nodes[r].rank < |p.nodes| { assert RankBelow(p.nodes, r); }
      es, t := HeadIsTaken(p, |p.nodes|, s);
    }
  }

  lemma {:induction false} Schedule(p: Plan, i: nat, done: bool, s: Sys) returns (es: seq<Event>, t: Sys)
    requires Planned(p) && Fits(p, i, done, s)
    ensures AllTidy(es) && Run(s, es) == Some(t) && Fits(p, |p.nodes|, true, t)
    decreases |p.nodes| - i
  {
    if i < |p.nodes| {
      var fs, m, after := RowStep(p, i, done, s);
      var gs, w := Schedule(p, i + 1, after, m);
      RunJoin(s, fs, m, gs, w);
      es, t := fs + gs, w;
    } else {
      es, t := ScheduleEnds(p, done, s);
    }
  }

  /** A turn by itself can leave every shape, with every call ended. */
  lemma EveryShapeIsLeft(p: Plan, s: Sys) returns (es: seq<Event>, t: Sys)
    requires Planned(p) && Opening(s, p.v) && s.used == p.older && s.cells.routing == p.routing
    ensures AllTidy(es) && Run(s, es) == Some(t) && t.nodes == p.nodes && t.cells.head == p.head && t.calls == map[]
  {
    var fs, w := StartFits(p, s);
    var gs;
    gs, t := Schedule(p, 1, p.head == p.v, w);
    BuiltWhole(p.nodes);
    NoCallIsLeft(p, t);
    RunJoin(s, fs, w, gs, t);
    es := fs + gs;
  }

  // ---------------------------------------------------------------- turns without overlap

  /** One call at a time, none failing, each request answered once. */
  predicate Serial(s: Sys, e: Event) {
    && Tidy(e) && !e.FailCall?
    && (e.BeginCall? ==> s.calls == map[])
    && (e.Respond? ==> AwaitsAnswer(s, e.request))
  }

  predicate AwaitsAnswer(s: Sys, q: NodeId) {
    && (exists c :: c in s.calls && s.calls[c].Waiting? && s.calls[c].request == q)
    && (forall r :: r in s.replies ==> s.replies[r].request != q)
  }

  predicate OnLine(nodes: Rows, v: NodeId, n: NodeId)
    requires n in nodes
  {
    n == v || (nodes[n].parent in nodes && nodes[nodes[n].parent].rank == nodes[n].rank - 1)
  }

  /** Each row hangs on the row recorded just before it. */
  ghost predicate Line(nodes: Rows, v: NodeId) {
    forall n {:trigger OnLine(nodes, v, n)} :: n in nodes ==> OnLine(nodes, v, n)
  }

  predicate Newest(nodes: Rows, n: NodeId) { n in nodes && nodes[n].rank == |nodes| - 1 }

  /** The call in flight has the newest row in hand, or its response is the newest row. */
  predicate InHand(s: Sys, p: Phase) {
    match p
    case Begun(_, _, _) => Newest(s.nodes, s.cells.head)
    case HeadRead(_, _, _, parent) => Newest(s.nodes, parent)
    case Ready(_, _, _, parent, _) => Newest(s.nodes, parent)
    case Waiting(_, q) =>
      if forall r :: r in s.replies ==> s.replies[r].request != q then Newest(s.nodes, q)
      else forall r :: r in s.replies && s.replies[r].request == q ==> Newest(s.nodes, r)
    case Received(_, _, r, _) => Newest(s.nodes, r)
    case HeadSet(_, _) => Newest(s.nodes, s.cells.head)
  }

  ghost predicate LineInv(s: Sys, v: NodeId) {
    && Line(s.nodes, v) && s.nodes.Keys <= s.used && s.stage == Running(v)
    && (forall c, d :: c in s.calls && d in s.calls ==> c == d)
    && (forall c :: c in s.calls ==> InHand(s, s.calls[c]))
    && (s.calls == map[] ==> Newest(s.nodes, s.cells.head))
    && s.requests.Keys <= s.nodes.Keys
    && (forall r :: r in s.replies ==> s.replies[r].request in s.requests)
  }

  lemma LineGrows(nodes: Rows, v: NodeId, id: NodeId, n: Node)
    requires Line(nodes, v) && id !in nodes && Newest(nodes, n.parent) && n.rank == |nodes|
    ensures Line(nodes[id := n], v) && Newest(nodes[id := n], id)
  {
    var more := nodes[id := n];
    forall m | m in more ensures OnLine(more, v, m) {
      if m != id { assert OnLine(nodes, v, m); }
    }
  }

  lemma SerialSend(s: Sys, v: NodeId, c: nat, r: Recording)
    requires LineInv(s, v) && ROOT !in s.nodes && c in s.calls && s.calls[c].Ready? && CanStore(s, r)
    ensures LineInv(RequestSent(s, c, s.calls[c], r), v)
  {
    var p := s.calls[c];
    var t := RequestSent(s, c, p, r);
    assert InHand(s, p);
    LineGrows(s.nodes, v, r.id, t.nodes[r.id]);
    assert t.calls == map[c := Waiting(p.turn, r.id)];
    assert r.id !in s.requests;
  }

  lemma SerialRespond(s: Sys, v: NodeId, q: NodeId, r: Recording, newState: Option<string>)
    requires LineInv(s, v) && ROOT !in s.nodes && q in s.requests && CanStore(s, r) && AwaitsAnswer(s, q)
    ensures LineInv(Responded(s, q, s.requests[q], r, newState), v)
  {
    var t := Responded(s, q, s.requests[q], r, newState);
    var c :| c in s.calls && s.calls[c].Waiting? && s.calls[c].request == q;
    assert InHand(s, s.calls[c]);
    LineGrows(s.nodes, v, r.id, t.nodes[r.id]);
    assert t.replies[r.id].request == q;
    assert InHand(t, t.calls[c]);
  }

  lemma SerialQuiet(s: Sys, v: NodeId, e: Event)
    requires LineInv(s, v) && Enabled(s, e) && Serial(s, e) && !e.SendRequest? && !e.Respond?
    ensures LineInv(Next(s, e), v)
  {
    var t, c := Next(s, e), e.call;
    if c in s.calls {
      assert InHand(s, s.calls[c]);
      assert s.calls == map[c := s.calls[c]];
    }
    assert c in t.calls ==> InHand(t, t.calls[c]);
  }

  lemma SerialStepKeeps(s: Sys, v: NodeId, u: string, e: Event)
    requires LineInv(s, v) && TurnInv(s, v, u) && Enabled(s, e) && Serial(s, e)
    ensures LineInv(Next(s, e), v)
  {
    match e
    case SendRequest(c, r) => SerialSend(s, v, c, r);
    case Respond(q, r, newState) => SerialRespond(s, v, q, r, newState);
    case _ => SerialQuiet(s, v, e);
  }

  lemma OpeningLineInv(s: Sys, v: NodeId)
    requires Opening(s, v)
    ensures LineInv(s, v)
  {
    assert |s.nodes| == 1;
  }
}
