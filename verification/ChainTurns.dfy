/**
  A turn in the middle of a history. Rows of earlier turns are there, the sequence has moved,
  the invoke hangs anywhere, further invokes arrive, and workers still answer requests of
  earlier turns. Every event is either one of the turn seen by itself or leaves it alone.
 */
module ChainTurns {
  import opened Text
  import opened Dag
  import opened ChainHead
  import opened ChainShapes

  // ---------------------------------------------------------------- the rows of a turn

  /** The invoke, its requests, and their responses; `base` are the rows from before. */
  predicate Mine(nodes: Rows, base: set<NodeId>, v: NodeId, n: NodeId) {
    n in nodes &&
    (n == v ||
      (n !in base && (nodes[n].kind.RequestNode? || (nodes[n].kind.ResponseNode? && nodes[n].parent !in base))))
  }

  function MineBefore(nodes: Rows, base: set<NodeId>, v: NodeId, i: nat): set<NodeId> {
    set m | m in nodes && Mine(nodes, base, v, m) && nodes[m].rank < i
  }

  /** The rows of a turn, ranked among themselves, the invoke as a first row wherever it hangs. */
  function TurnRows(nodes: Rows, base: set<NodeId>, v: NodeId, u: string): Rows {
    map n | n in nodes && Mine(nodes, base, v, n) ::
      if n == v then Node(ROOT, InvokeNode, v, u, 0)
      else nodes[n].(rank := |MineBefore(nodes, base, v, nodes[n].rank)|)
  }

  function ByItself(s: Sys, base: set<NodeId>, v: NodeId): Sys {
    s.(nodes := TurnRows(s.nodes, base, v, s.cells.routing.submission),
       requests := map q | q in s.requests && q !in base :: s.requests[q],
       replies := map r | r in s.replies && s.replies[r].request !in base :: s.replies[r])
  }

  ghost predicate History(s: Sys, base: set<NodeId>, v: NodeId) {
    && v in base && base <= s.nodes.Keys && ROOT !in s.nodes && s.nodes.Keys <= s.used && s.replies.Keys <= s.used
    && forall n {:trigger RankBelow(s.nodes, n)} :: n in s.nodes ==> RankBelow(s.nodes, n)
  }

  /** What adding a row does to the rows of the turn: nothing, or it is their next one. */
  lemma RowAdded(nodes: Rows, base: set<NodeId>, v: NodeId, u: string, id: NodeId, n: Node)
    requires id !in nodes && id !in base && id != v && n.rank == |nodes|
    requires forall m {:trigger RankBelow(nodes, m)} :: m in nodes ==> RankBelow(nodes, m)
    ensures var rows := TurnRows(nodes, base, v, u);
      TurnRows(nodes[id := n], base, v, u) ==
        if Mine(nodes[id := n], base, v, id) then rows[id := n.(rank := |rows|)] else rows
  {
    var more := nodes[id := n];
    forall m | m in nodes
      ensures MineBefore(more, base, v, nodes[m].rank) == MineBefore(nodes, base, v, nodes[m].rank) {
      assert RankBelow(nodes, m);
    }
    var rows := TurnRows(nodes, base, v, u);
    forall m | m in rows ensures m in MineBefore(more, base, v, |nodes|) { assert RankBelow(nodes, m); }
    assert MineBefore(more, base, v, |nodes|) == rows.Keys;
    assert |rows.Keys| == |rows|;
  }

  // ---------------------------------------------------------------- events

  /** What may happen while the agent runs: its calls, workers' answers, further invokes. */
  predicate Allowed(e: Event) { e.RecordInvoke? || Tidy(e) }

  predicate AllAllowed(es: seq<Event>) { forall e :: e in es ==> Allowed(e) }

  /** An event of another turn: an invoke, or an answer to a request from before. */
  predicate Foreign(base: set<NodeId>, e: Event) { e.RecordInvoke? || (e.Respond? && e.request in base) }

  ghost predicate InTurn(s: Sys, base: set<NodeId>, v: NodeId) {
    History(s, base, v) && TurnInv(ByItself(s, base, v), v, s.cells.routing.submission)
  }

  lemma StoreKeepsHistory(
      s: Sys, base: set<NodeId>, v: NodeId, r: Recording, hint: NodeId, k: Kind, turn: NodeId, u: string)
    requires History(s, base, v) && r.id != ROOT && r.id !in s.used
    ensures History(Store(s, r, hint, k, turn, u), base, v)
  {
    var t := Store(s, r, hint, k, turn, u);
    forall n | n in t.nodes ensures RankBelow(t.nodes, n) {
      if n in s.nodes { assert RankBelow(s.nodes, n); }
    }
  }

  lemma QuietStep(s: Sys, e: Event)
    requires Enabled(s, e) && Tidy(e) && !e.SendRequest? && !e.Respond?
    ensures var t := Next(s, e);
      t == s.(cells := t.cells, calls := t.calls, past := t.past) && t.cells.routing == s.cells.routing
  {}

  lemma StepKeepsHistory(s: Sys, base: set<NodeId>, v: NodeId, e: Event)
    requires History(s, base, v) && Allowed(e) && Enabled(s, e)
    ensures History(Next(s, e), base, v) && Next(s, e).cells.routing == s.cells.routing
  {
    match e
    case RecordInvoke(r, hint, m) => StoreKeepsHistory(s, base, v, r, hint, InvokeNode, r.id, m.routing.submission);
    case SendRequest(c, r) =>
      var p := s.calls[c];
      StoreKeepsHistory(s, base, v, r, p.parent, RequestNode, p.turn, p.routing.submission);
    case Respond(q, r, _) =>
      StoreKeepsHistory(s, base, v, r, q, ResponseNode, s.requests[q].turn, s.requests[q].submission);
    case _ => QuietStep(s, e);
  }

  /** The turn by itself after an event of another turn. */
  function Widened(s: Sys, ids: set<NodeId>, messages: map<NodeId, InvokeMessage>): Sys {
    s.(used := ids, invokes := messages)
  }

  /** An event of another turn adds no row to this one and changes nothing its calls can see. */
  lemma ForeignStep(s: Sys, base: set<NodeId>, v: NodeId, e: Event)
    requires History(s, base, v) && Allowed(e) && Foreign(base, e) && Enabled(s, e)
    ensures var t := Next(s, e);
      ByItself(t, base, v) == Widened(ByItself(s, base, v), t.used, t.invokes)
  {
    var t, u := Next(s, e), s.cells.routing.submission;
    if t.nodes != s.nodes { RowAdded(s.nodes, base, v, u, e.record.id, t.nodes[e.record.id]); }
    assert ByItself(t, base, v).nodes == ByItself(s, base, v).nodes;
    assert ByItself(t, base, v).requests == ByItself(s, base, v).requests;
    assert ByItself(t, base, v).replies == ByItself(s, base, v).replies;
  }

  lemma MoreUsed(s: Sys, v: NodeId, u: string, ids: set<NodeId>, messages: map<NodeId, InvokeMessage>)
    requires TurnInv(s, v, u) && s.used <= ids
    ensures TurnInv(Widened(s, ids, messages), v, u)
  {
    var t := Widened(s, ids, messages);
    forall k | IsRequest(t.nodes, k) ensures ChildOk(t, k) { assert ChildOk(s, k); }
    forall c | c in t.calls ensures CallTidy(t, v, u, t.calls[c]) { CallTidySame(s, t, v, u, s.calls[c]); }
  }

  /** A row that hangs on one of the turn is stored alike. */
  lemma StoreCommutes(
      s: Sys, base: set<NodeId>, v: NodeId, r: Recording, hint: NodeId, k: Kind, turn: NodeId, u: string)
    requires History(s, base, v) && CanStore(s, r) && (k.RequestNode? || (k.ResponseNode? && hint !in base))
    requires Mine(s.nodes, base, v, hint)
    ensures var x := s.cells.routing.submission;
      TurnRows(Store(s, r, hint, k, turn, u).nodes, base, v, x) ==
        Store(ByItself(s, base, v), r, hint, k, turn, u).nodes
  {
    var n := Node(hint, k, turn, u, |s.nodes|);
    RowAdded(s.nodes, base, v, s.cells.routing.submission, r.id, n);
    assert Mine(s.nodes[r.id := n], base, v, r.id);
  }

  lemma SendCommutes(s: Sys, base: set<NodeId>, v: NodeId, c: nat, r: Recording)
    requires InTurn(s, base, v) && c in s.calls && s.calls[c].Ready? && CanStore(s, r)
    ensures var l := ByItself(s, base, v);
      ByItself(RequestSent(s, c, s.calls[c], r), base, v) == RequestSent(l, c, s.calls[c], r)
  {
    var l, p := ByItself(s, base, v), s.calls[c];
    assert CallTidy(l, v, s.cells.routing.submission, p);
    assert HangsRight(l.nodes, v, s.cells.routing.submission, v);
    assert p.parent == v || IsResponse(l.nodes, p.parent);
    StoreCommutes(s, base, v, r, p.parent, RequestNode, p.turn, p.routing.submission);
    SendTables(s, base, v, c, r);
  }

  lemma SendTables(s: Sys, base: set<NodeId>, v: NodeId, c: nat, r: Recording)
    requires History(s, base, v) && c in s.calls && s.calls[c].Ready? && CanStore(s, r)
    ensures var l, t := ByItself(s, base, v), ByItself(RequestSent(s, c, s.calls[c], r), base, v);
      t == RequestSent(l, c, s.calls[c], r).(nodes := t.nodes)
  {
    var t, l := RequestSent(s, c, s.calls[c], r), ByItself(s, base, v);
    assert ByItself(t, base, v).requests == RequestSent(l, c, s.calls[c], r).requests;
    assert ByItself(t, base, v).replies == l.replies;
  }

  lemma RespondCommutes(s: Sys, base: set<NodeId>, v: NodeId, q: NodeId, r: Recording, newState: Option<string>)
    requires InTurn(s, base, v) && q in s.requests && q !in base && CanStore(s, r)
    ensures var l := ByItself(s, base, v);
      ByItself(Responded(s, q, s.requests[q], r, newState), base, v) == Responded(l, q, s.requests[q], r, newState)
  {
    var l, sent := ByItself(s, base, v), s.requests[q];
    assert q in l.requests && IsRequest(l.nodes, q);
    StoreCommutes(s, base, v, r, q, ResponseNode, sent.turn, sent.submission);
    RespondTables(s, base, v, q, r, newState);
  }

  lemma RespondTables(s: Sys, base: set<NodeId>, v: NodeId, q: NodeId, r: Recording, newState: Option<string>)
    requires History(s, base, v) && q in s.requests && q !in base && CanStore(s, r)
    ensures var l, t := ByItself(s, base, v), ByItself(Responded(s, q, s.requests[q], r, newState), base, v);
      t == Responded(l, q, s.requests[q], r, newState).(nodes := t.nodes)
  {
    var t, l := Responded(s, q, s.requests[q], r, newState), ByItself(s, base, v);
    assert t.requests == s.requests && t.replies == s.replies[r.id := Reply(q, newState)];
    assert ByItself(t, base, v).requests == l.requests;
    RepliesByItself(s.replies, base, r.id, Reply(q, newState));
  }

  lemma RepliesByItself(replies: map<NodeId, Reply>, base: set<NodeId>, id: NodeId, x: Reply)
    requires x.request !in base
    ensures var more := replies[id := x];
      (map r | r in more && more[r].request !in base :: more[r]) ==
      (map r | r in replies && replies[r].request !in base :: replies[r])[id := x]
  {}

  lemma QuietCommutes(s: Sys, base: set<NodeId>, v: NodeId, e: Event)
    requires InTurn(s, base, v) && Tidy(e) && !e.SendRequest? && !e.Respond?
    requires Enabled(s, e) || Enabled(ByItself(s, base, v), e)
    ensures var l := ByItself(s, base, v);
      Enabled(s, e) && Enabled(l, e) && ByItself(Next(s, e), base, v) == Next(l, e)
  {
    var l, u := ByItself(s, base, v), s.cells.routing.submission;
    if e.Receive? {
      assert CallTidy(l, v, u, s.calls[e.call]);
      assert HangsRight(l.nodes, v, u, v);
    }
  }

  /** Every other event is a step of the turn by itself. */
  lemma OwnStep(s: Sys, base: set<NodeId>, v: NodeId, e: Event)
    requires InTurn(s, base, v) && Tidy(e) && !Foreign(base, e)
    requires Enabled(s, e) || Enabled(ByItself(s, base, v), e)
    ensures var l := ByItself(s, base, v);
      Enabled(s, e) && Enabled(l, e) && ByItself(Next(s, e), base, v) == Next(l, e)
  {
    match e
    case SendRequest(c, r) => SendCommutes(s, base, v, c, r);
    case Respond(q, r, newState) => RespondCommutes(s, base, v, q, r, newState);
    case _ => QuietCommutes(s, base, v, e);
  }

  lemma StepInTurn(s: Sys, base: set<NodeId>, v: NodeId, e: Event)
    requires InTurn(s, base, v) && Allowed(e) && Enabled(s, e)
    ensures InTurn(Next(s, e), base, v)
  {
    var l, t, u := ByItself(s, base, v), Next(s, e), s.cells.routing.submission;
    StepKeepsHistory(s, base, v, e);
    if Foreign(base, e) {
      ForeignStep(s, base, v, e);
      MoreUsed(l, v, u, t.used, t.invokes);
    } else {
      OwnStep(s, base, v, e);
      TidyStepKeeps(l, v, u, e);
    }
  }

  lemma {:induction false} RunInTurn(s: Sys, base: set<NodeId>, v: NodeId, es: seq<Event>, t: Sys)
    requires InTurn(s, base, v) && AllAllowed(es) && Run(s, es) == Some(t)
    ensures InTurn(t, base, v) && t.cells.routing == s.cells.routing
  {
    if es != [] {
      var m := Run(s, es[..|es| - 1]).value;
      RunInTurn(s, base, v, es[..|es| - 1], m);
      StepKeepsHistory(m, base, v, es[|es| - 1]);
      StepInTurn(m, base, v, es[|es| - 1]);
    }
  }

  /** A run of the turn by itself is one in the middle of the history, too. */
  lemma {:induction false} RunLifts(s: Sys, base: set<NodeId>, v: NodeId, es: seq<Event>, l: Sys) returns (t: Sys)
    requires InTurn(s, base, v) && AllTidy(es) && Run(ByItself(s, base, v), es) == Some(l)
    ensures Run(s, es) == Some(t) && ByItself(t, base, v) == l && InTurn(t, base, v)
  {
    if es == [] {
      t := s;
    } else {
      var k := |es| - 1;
      var m := RunLifts(s, base, v, es[..k], Run(ByItself(s, base, v), es[..k]).value);
      OwnStep(m, base, v, es[k]);
      StepInTurn(m, base, v, es[k]);
      t := Next(m, es[k]);
    }
  }
}
