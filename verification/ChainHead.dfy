/**
  The chain-head protocol of the provider server. Concurrent provider calls share four
  cells, each behind its own lock; a call reads the head, awaits a service, and writes the
  head again. Every lock section and every await is one step, so a run is any interleaving.
 */
module ChainHead {
  import opened Text
  import opened Dag

  datatype Routing = Routing(branch: int, submission: string, session: string)

  /** The cells of one `InvokeHandler`. */
  datatype Cells = Cells(head: NodeId, state: Option<string>, routing: Routing, sequence: nat)

  datatype InvokeMessage = InvokeMessage(routing: Routing, state: Option<string>)

  /** An agent with object storage starts from the invoke's state, empty text by default. */
  function SeedState(objectStorage: bool, state: Option<string>): Option<string> {
    if !objectStorage then None else Some(if state.Some? then state.value else "")
  }

  function KeepOr(state: Option<string>, newState: Option<string>): Option<string> {
    if newState.Some? then newState else state
  }

  datatype Answer = Failed | Answered(response: NodeId, newState: Option<string>)

  /** The cells after a reset for an invoke. */
  function AfterReset(c: Cells, invoke: NodeId, msg: InvokeMessage, objectStorage: bool): Cells {
    Cells(invoke, SeedState(objectStorage, msg.state), msg.routing, c.sequence)
  }

  /** The cells after a call. */
  function AfterCall(c: Cells, answer: Answer): Cells {
    match answer
    case Failed => c.(sequence := c.sequence + 1)
    case Answered(r, newState) => Cells(r, KeepOr(c.state, newState), c.routing, c.sequence + 1)
  }

  /** One handler, one lock section per method. */
  class InvokeHandler {
    var chainHead: NodeId
    var state: Option<string>
    var routing: Routing
    var sequence: nat

    function View(): Cells reads this { Cells(chainHead, state, routing, sequence) }

    constructor (r: Routing, initial: Option<string>, head: NodeId)
      ensures View() == Cells(head, initial, r, 1)
    {
      chainHead, state, routing, sequence := head, initial, r, 1;
    }

    method NextSequence() returns (n: nat)
      modifies this`sequence
      ensures n == old(sequence) && View() == old(View()).(sequence := n + 1)
    {
      n := sequence;
      sequence := n + 1;
    }

    method SetChainHead(head: NodeId)
      modifies this`chainHead
      ensures View() == old(View()).(head := head)
    {
      chainHead := head;
    }

    method SetRouting(r: Routing)
      modifies this`routing
      ensures View() == old(View()).(routing := r)
    {
      routing := r;
    }

    method SetState(newState: Option<string>)
      modifies this`state
      ensures View() == old(View()).(state := newState)
    {
      state := newState;
    }

    method ResetForInvoke(invoke: NodeId, msg: InvokeMessage, objectStorage: bool)
      modifies this
      ensures View() == AfterReset(old(View()), invoke, msg, objectStorage)
      ensures chainHead == invoke && routing == msg.routing && sequence == old(sequence)
      ensures state == if !objectStorage then None else if msg.state.Some? then msg.state else Some("")
    {
      SetChainHead(invoke);
      SetRouting(msg.routing);
      SetState(SeedState(objectStorage, msg.state));
    }

    /** A call that nothing interrupts. `answer` is what the queue gave for the request. */
    method ForwardProvider(answer: Answer)
      returns (sequenceUsed: nat, parent: NodeId, sentState: Option<string>, ok: bool)
      modifies this
      ensures sequenceUsed == old(sequence) && parent == old(chainHead) && sentState == old(state)
      ensures ok <==> answer.Answered?
      ensures View() == AfterCall(old(View()), answer)
      ensures sequence == old(sequence) + 1 && routing == old(routing)
      ensures chainHead == if answer.Answered? then answer.response else old(chainHead)
      ensures state == if answer.Answered? && answer.newState.Some? then answer.newState else old(state)
    {
      sequenceUsed := NextSequence();
      parent := chainHead;
      sentState := state;
      match answer
      case Failed => ok := false;
      case Answered(r, s) =>
        SetChainHead(r);
        if s.Some? { SetState(s); }
        ok := true;
    }
  }

  // ---------------------------------------------------------------- the store

  datatype Kind = InvokeNode | RequestNode | ResponseNode | CompleteNode(success: bool)

  /**
    A recorded row and its place in insertion order. `turn` names the invoke the message was
    produced under; the store does not hold it.
   */
  datatype Node = Node(parent: NodeId, kind: Kind, turn: NodeId, submission: string, rank: nat)

  function LinksOf(nodes: map<NodeId, Node>): Links {
    map n | n in nodes :: Link(nodes[n].parent, nodes[n].rank)
  }

  /** The parent the recording queue writes: the hint if it is found in the store, else root. */
  function ParentFor(nodes: map<NodeId, Node>, hint: NodeId, lookup: bool): NodeId {
    if hint != ROOT && lookup && hint in nodes then hint else ROOT
  }

  // ---------------------------------------------------------------- the system

  datatype Phase =
    | Begun(turn: NodeId, routing: Routing, sequence: nat)
    | HeadRead(turn: NodeId, routing: Routing, sequence: nat, parent: NodeId)
    | Ready(turn: NodeId, routing: Routing, sequence: nat, parent: NodeId, state: Option<string>)
    | Waiting(turn: NodeId, request: NodeId)
    | Received(turn: NodeId, request: NodeId, response: NodeId, newState: Option<string>)
    | HeadSet(turn: NodeId, newState: Option<string>)

  /** The dispatch loop: three separate writes reset the cells, then the agent runs. */
  datatype Stage =
    | NoTurn
    | HeadWritten(invoke: NodeId)
    | RoutingWritten(invoke: NodeId)
    | Running(invoke: NodeId)
    | Replied(invoke: NodeId)

  datatype SentRequest = SentRequest(turn: NodeId, submission: string, sequence: nat, state: Option<string>)

  datatype Reply = Reply(request: NodeId, newState: Option<string>)

  /** `past` is history: every value the head has held since the last reset. */
  datatype Sys = Sys(
    cells: Cells,
    objectStorage: bool,
    stage: Stage,
    calls: map<nat, Phase>,
    nodes: map<NodeId, Node>,
    used: set<NodeId>,
    invokes: map<NodeId, InvokeMessage>,
    requests: map<NodeId, SentRequest>,
    replies: map<NodeId, Reply>,
    past: set<NodeId>)

  /** How recording one message went: the id computed, the parent lookup, the insert. */
  datatype Recording = Recording(id: NodeId, lookup: bool, stored: bool)

  datatype Event =
    | RecordInvoke(record: Recording, hint: NodeId, message: InvokeMessage)
    | ResetHead(invoke: NodeId)
    | ResetRouting
    | ResetState
    | BeginCall(call: nat)
    | ReadHead(call: nat)
    | ReadState(call: nat)
    | SendRequest(call: nat, record: Recording)
    | Respond(request: NodeId, record: Recording, newState: Option<string>)
    | Receive(call: nat, response: NodeId)
    | FailCall(call: nat)
    | AdvanceHead(call: nat)
    | AdvanceState(call: nat)
    | ReplyOk(record: Recording)
    | ReplyError(record: Recording)

  predicate IsRecording(e: Event) {
    e.RecordInvoke? || e.SendRequest? || e.Respond? || e.ReplyOk? || e.ReplyError?
  }

  predicate Enabled(s: Sys, e: Event) {
    (IsRecording(e) ==> e.record.id != ROOT && e.record.id !in s.used) &&
    match e
    case RecordInvoke(_, _, _) => true
    case ResetHead(v) => v in s.invokes && (s.stage.NoTurn? || s.stage.Replied?)
    case ResetRouting => s.stage.HeadWritten? && s.stage.invoke in s.invokes
    case ResetState => s.stage.RoutingWritten? && s.stage.invoke in s.invokes
    case BeginCall(c) => c !in s.calls && !s.stage.NoTurn?
    case ReadHead(c) => c in s.calls && s.calls[c].Begun?
    case ReadState(c) => c in s.calls && s.calls[c].HeadRead?
    case SendRequest(c, _) => c in s.calls && s.calls[c].Ready?
    case Respond(q, _, _) => q in s.requests
    case Receive(c, r) =>
      c in s.calls && s.calls[c].Waiting? && r in s.replies && s.replies[r].request == s.calls[c].request
    case FailCall(c) => c in s.calls && s.calls[c].Waiting?
    case AdvanceHead(c) => c in s.calls && s.calls[c].Received?
    case AdvanceState(c) => c in s.calls && s.calls[c].HeadSet?
    case ReplyOk(_) => s.stage.Running? && s.stage.invoke in s.invokes
    case ReplyError(_) => s.stage.Running? && s.stage.invoke in s.invokes
  }

  function Store(s: Sys, r: Recording, hint: NodeId, kind: Kind, turn: NodeId, submission: string): Sys {
    var n := Node(ParentFor(s.nodes, hint, r.lookup), kind, turn, submission, |s.nodes|);
    s.(nodes := if r.stored then s.nodes[r.id := n] else s.nodes, used := s.used + {r.id})
  }

  function RequestSent(s: Sys, c: nat, p: Phase, r: Recording): Sys
    requires p.Ready?
  {
    Store(s, r, p.parent, RequestNode, p.turn, p.routing.submission).(
      calls := s.calls[c := Waiting(p.turn, r.id)],
      requests := s.requests[r.id := SentRequest(p.turn, p.routing.submission, p.sequence, p.state)])
  }

  function Responded(s: Sys, q: NodeId, sent: SentRequest, r: Recording, newState: Option<string>): Sys {
    Store(s, r, q, ResponseNode, sent.turn, sent.submission).(replies := s.replies[r.id := Reply(q, newState)])
  }

  function Next(s: Sys, e: Event): Sys
    requires Enabled(s, e)
  {
    match e
    case RecordInvoke(r, hint, m) =>
      Store(s, r, hint, InvokeNode, r.id, m.routing.submission).(invokes := s.invokes[r.id := m])
    case ResetHead(v) => s.(cells := s.cells.(head := v), stage := HeadWritten(v), past := {v})
    case ResetRouting =>
      s.(cells := s.cells.(routing := s.invokes[s.stage.invoke].routing), stage := RoutingWritten(s.stage.invoke))
    case ResetState =>
      s.(cells := s.cells.(state := SeedState(s.objectStorage, s.invokes[s.stage.invoke].state)),
        stage := Running(s.stage.invoke))
    case BeginCall(c) =>
      s.(cells := s.cells.(sequence := s.cells.sequence + 1),
        calls := s.calls[c := Begun(s.stage.invoke, s.cells.routing, s.cells.sequence)])
    case ReadHead(c) =>
      var p := s.calls[c];
      s.(calls := s.calls[c := HeadRead(p.turn, p.routing, p.sequence, s.cells.head)])
    case ReadState(c) =>
      var p := s.calls[c];
      s.(calls := s.calls[c := Ready(p.turn, p.routing, p.sequence, p.parent, s.cells.state)])
    case SendRequest(c, r) => RequestSent(s, c, s.calls[c], r)
    case Respond(q, r, newState) => Responded(s, q, s.requests[q], r, newState)
    case Receive(c, r) =>
      var p := s.calls[c];
      s.(calls := s.calls[c := Received(p.turn, p.request, r, s.replies[r].newState)])
    case FailCall(c) => s.(calls := s.calls - {c})
    case AdvanceHead(c) =>
      var p := s.calls[c];
      s.(cells := s.cells.(head := p.response), calls := s.calls[c := HeadSet(p.turn, p.newState)],
        past := s.past + {p.response})
    case AdvanceState(c) =>
      s.(cells := s.cells.(state := KeepOr(s.cells.state, s.calls[c].newState)), calls := s.calls - {c})
    case ReplyOk(r) =>
      var v := s.stage.invoke;
      Store(s, r, s.cells.head, CompleteNode(true), v, s.invokes[v].routing.submission).(stage := Replied(v))
    case ReplyError(r) =>
      var v := s.stage.invoke;
      Store(s, r, ROOT, CompleteNode(false), v, s.invokes[v].routing.submission).(stage := Replied(v))
  }

  function Run(s: Sys, es: seq<Event>): Option<Sys> {
    if es == [] then Some(s)
    else
      match Run(s, es[..|es| - 1])
      case None => None
      case Some(t) => if Enabled(t, es[|es| - 1]) then Some(Next(t, es[|es| - 1])) else None
  }

  function Initial(objectStorage: bool, r: Routing): Sys {
    Sys(Cells(ROOT, None, r, 1), objectStorage, NoTurn, map[], map[], {}, map[], map[], map[], {})
  }

  /**
    The discipline under which the chain is sound: the store answers, no call outlives its
    turn into the next reset, and the agent calls only while it holds an invoke.
   */
  predicate Orderly(s: Sys, e: Event) {
    && (IsRecording(e) ==> e.record.lookup && e.record.stored)
    && (e.ResetHead? ==> s.calls == map[])
    && (e.BeginCall? ==> s.stage.Running?)
  }

  predicate OrderlyRun(s: Sys, es: seq<Event>) {
    es == [] ||
    (OrderlyRun(s, es[..|es| - 1]) &&
     (Run(s, es[..|es| - 1]).Some? ==> Orderly(Run(s, es[..|es| - 1]).value, es[|es| - 1])))
  }

  // ---------------------------------------------------------------- the shape of a turn

  predicate IsInvoke(nodes: map<NodeId, Node>, v: NodeId, submission: string) {
    v in nodes && nodes[v].kind == InvokeNode && nodes[v].submission == submission
  }

  predicate IsOf(nodes: map<NodeId, Node>, id: NodeId, kind: Kind, turn: NodeId) {
    id in nodes && nodes[id].kind == kind && nodes[id].turn == turn
  }

  /** What the head may be during a turn: its invoke, or one of its responses. */
  predicate MayHead(nodes: map<NodeId, Node>, id: NodeId, turn: NodeId) {
    id in nodes && if nodes[id].kind == InvokeNode then id == turn else IsOf(nodes, id, ResponseNode, turn)
  }

  /** A row hangs where the protocol says, below its turn's invoke. */
  predicate Attached(nodes: map<NodeId, Node>, n: Node) {
    match n.kind
    case InvokeNode => n.parent == ROOT || n.parent in nodes
    case RequestNode => IsInvoke(nodes, n.turn, n.submission) && MayHead(nodes, n.parent, n.turn)
    case ResponseNode => IsInvoke(nodes, n.turn, n.submission) && IsOf(nodes, n.parent, RequestNode, n.turn)
    case CompleteNode(ok) =>
      if ok then IsInvoke(nodes, n.turn, n.submission) && MayHead(nodes, n.parent, n.turn) else n.parent == ROOT
  }

  predicate RowOk(nodes: map<NodeId, Node>, n: NodeId)
    requires n in nodes
  {
    && Attached(nodes, nodes[n])
    && nodes[n].rank < |nodes|
    && (nodes[n].parent in nodes ==> nodes[nodes[n].parent].rank < nodes[n].rank)
  }

  predicate Structured(nodes: map<NodeId, Node>) {
    forall n {:trigger RowOk(nodes, n)} :: n in nodes ==> RowOk(nodes, n)
  }

  predicate CallOk(nodes: map<NodeId, Node>, v: NodeId, p: Phase) {
    p.turn == v &&
    match p
    case Begun(_, r, _) => IsInvoke(nodes, v, r.submission)
    case HeadRead(_, r, _, parent) => IsInvoke(nodes, v, r.submission) && MayHead(nodes, parent, v)
    case Ready(_, r, _, parent, _) => IsInvoke(nodes, v, r.submission) && MayHead(nodes, parent, v)
    case Waiting(_, q) => IsOf(nodes, q, RequestNode, v)
    case Received(_, _, r, _) => IsOf(nodes, r, ResponseNode, v)
    case HeadSet(_, _) => true
  }

  predicate CallsOk(nodes: map<NodeId, Node>, v: NodeId, calls: map<nat, Phase>) {
    forall c :: c in calls ==> CallOk(nodes, v, calls[c])
  }

  predicate StageOk(s: Sys) {
    if s.stage.NoTurn? then s.calls == map[]
    else
      var v := s.stage.invoke;
      && v in s.invokes
      && MayHead(s.nodes, s.cells.head, v)
      && (s.stage.HeadWritten? || s.stage.RoutingWritten? ==> s.calls == map[])
      && (!s.stage.HeadWritten? ==> s.cells.routing == s.invokes[v].routing)
      && CallsOk(s.nodes, v, s.calls)
  }

  predicate InvokeOk(nodes: map<NodeId, Node>, v: NodeId, m: InvokeMessage) {
    IsInvoke(nodes, v, m.routing.submission)
  }

  predicate InvokesOk(nodes: map<NodeId, Node>, invokes: map<NodeId, InvokeMessage>) {
    forall v :: v in invokes ==> InvokeOk(nodes, v, invokes[v])
  }

  predicate RequestOk(nodes: map<NodeId, Node>, q: NodeId, r: SentRequest) {
    IsOf(nodes, q, RequestNode, r.turn) && IsInvoke(nodes, r.turn, r.submission)
  }

  predicate TablesOk(s: Sys) {
    && InvokesOk(s.nodes, s.invokes)
    && (forall q :: q in s.requests ==> RequestOk(s.nodes, q, s.requests[q]))
    && (forall r :: r in s.replies ==> ReplyOfRequest(s.nodes, s.requests, r, s.replies[r]))
  }

  predicate ReplyOfRequest(nodes: map<NodeId, Node>, requests: map<NodeId, SentRequest>, r: NodeId, reply: Reply) {
    reply.request in requests && IsOf(nodes, r, ResponseNode, requests[reply.request].turn)
  }

  predicate Inv(s: Sys) {
    ROOT !in s.nodes && s.nodes.Keys <= s.used && Structured(s.nodes) && StageOk(s) && TablesOk(s)
  }

  lemma CallOkGrows(nodes: map<NodeId, Node>, id: NodeId, n: Node, v: NodeId, p: Phase)
    requires id !in nodes && CallOk(nodes, v, p)
    ensures CallOk(nodes[id := n], v, p)
  {}

  lemma AttachedGrows(nodes: map<NodeId, Node>, id: NodeId, n: Node, m: Node)
    requires id !in nodes && Attached(nodes, m)
    ensures Attached(nodes[id := n], m)
  {}

  lemma StructuredGrows(nodes: map<NodeId, Node>, id: NodeId, n: Node)
    requires id !in nodes && Structured(nodes) && Attached(nodes, n) && n.rank == |nodes|
    requires ROOT !in nodes && id != ROOT && (n.parent == ROOT || n.parent in nodes)
    ensures Structured(nodes[id := n])
  {
    var more := nodes[id := n];
    forall m | m in more ensures RowOk(more, m) {
      if m != id { assert RowOk(nodes, m); }
      if m == id && n.parent in nodes { assert RowOk(nodes, n.parent); }
      AttachedGrows(nodes, id, n, more[m]);
    }
  }

  lemma StoreKeeps(s: Sys, r: Recording, hint: NodeId, kind: Kind, turn: NodeId, submission: string)
    requires Inv(s) && r.id != ROOT && r.id !in s.used && r.stored
    requires Attached(s.nodes, Node(ParentFor(s.nodes, hint, r.lookup), kind, turn, submission, |s.nodes|))
    ensures Inv(Store(s, r, hint, kind, turn, submission))
  {
    var n := Node(ParentFor(s.nodes, hint, r.lookup), kind, turn, submission, |s.nodes|);
    var t := Store(s, r, hint, kind, turn, submission);
    StructuredGrows(s.nodes, r.id, n);
    if !s.stage.NoTurn? {
      forall c | c in t.calls ensures CallOk(t.nodes, t.stage.invoke, t.calls[c]) {
        CallOkGrows(s.nodes, r.id, n, s.stage.invoke, s.calls[c]);
      }
    }
  }

  /** A call of the current turn moves on; nothing else changes. */
  lemma CallMoves(s: Sys, cells: Cells, calls: map<nat, Phase>, past: set<NodeId>)
    requires Inv(s) && !s.stage.NoTurn? && cells.routing == s.cells.routing
    requires MayHead(s.nodes, cells.head, s.stage.invoke) && CallsOk(s.nodes, s.stage.invoke, calls)
    requires s.stage.HeadWritten? || s.stage.RoutingWritten? ==> calls == map[]
    ensures Inv(s.(cells := cells, calls := calls, past := past))
  {
    var t := s.(cells := cells, calls := calls, past := past);
  }

  lemma CallStepKeepsInv(s: Sys, e: Event)
    requires Inv(s) && Enabled(s, e) && Orderly(s, e) && !IsRecording(e)
    requires !e.ResetHead? && !e.ResetRouting? && !e.ResetState?
    ensures Inv(Next(s, e))
  {
    var c := e.call;
    var t := Next(s, e);
    if c in s.calls { assert CallOk(s.nodes, s.stage.invoke, s.calls[c]); }
    if e.Receive? { assert RequestOk(s.nodes, s.calls[c].request, s.requests[s.calls[c].request]); }
    CallMoves(s, t.cells, t.calls, t.past);
  }

  predicate CanRecord(s: Sys, r: Recording) { r.id != ROOT && r.id !in s.used && r.lookup && r.stored }

  /** A recorded request is entered in the table of requests. */
  lemma RequestEntered(s: Sys, q: NodeId, sent: SentRequest)
    requires Inv(s) && RequestOk(s.nodes, q, sent)
    ensures Inv(s.(requests := s.requests[q := sent]))
  {}

  lemma SendKeepsInv(s: Sys, c: nat, r: Recording)
    requires Inv(s) && c in s.calls && s.calls[c].Ready? && CanRecord(s, r)
    ensures Inv(RequestSent(s, c, s.calls[c], r))
  {
    var p := s.calls[c];
    var m := Store(s, r, p.parent, RequestNode, p.turn, p.routing.submission);
    assert CallOk(s.nodes, s.stage.invoke, p);
    StoreKeeps(s, r, p.parent, RequestNode, p.turn, p.routing.submission);
    var calls := s.calls[c := Waiting(p.turn, r.id)];
    CallMoves(m, m.cells, calls, m.past);
    RequestEntered(m.(calls := calls), r.id, SentRequest(p.turn, p.routing.submission, p.sequence, p.state));
  }

  lemma RespondKeepsInv(s: Sys, q: NodeId, r: Recording, newState: Option<string>)
    requires Inv(s) && q in s.requests && CanRecord(s, r)
    ensures Inv(Responded(s, q, s.requests[q], r, newState))
  {
    assert RequestOk(s.nodes, q, s.requests[q]);
    StoreKeeps(s, r, q, ResponseNode, s.requests[q].turn, s.requests[q].submission);
  }

  lemma ReplyKeepsInv(s: Sys, e: Event)
    requires Inv(s) && Enabled(s, e) && Orderly(s, e) && (e.ReplyOk? || e.ReplyError?)
    ensures Inv(Next(s, e))
  {
    var v := s.stage.invoke;
    var hint := if e.ReplyOk? then s.cells.head else ROOT;
    var m := Store(s, e.record, hint, CompleteNode(e.ReplyOk?), v, s.invokes[v].routing.submission);
    StoreKeeps(s, e.record, hint, CompleteNode(e.ReplyOk?), v, s.invokes[v].routing.submission);
    var t := Next(s, e);
  }

  lemma ResetKeepsInv(s: Sys, e: Event)
    requires Inv(s) && Enabled(s, e) && Orderly(s, e) && (e.ResetHead? || e.ResetRouting? || e.ResetState?)
    ensures Inv(Next(s, e))
  {
    var t := Next(s, e);
    if e.ResetHead? { assert InvokeOk(s.nodes, e.invoke, s.invokes[e.invoke]); }
  }

  lemma InvokeKeepsInv(s: Sys, e: Event)
    requires Inv(s) && Enabled(s, e) && Orderly(s, e) && e.RecordInvoke?
    ensures Inv(Next(s, e))
  {
    var u := e.message.routing.submission;
    var m := Store(s, e.record, e.hint, InvokeNode, e.record.id, u);
    StoreKeeps(s, e.record, e.hint, InvokeNode, e.record.id, u);
    var t := Next(s, e);
  }

  lemma StepKeepsInv(s: Sys, e: Event)
    requires Inv(s) && Enabled(s, e) && Orderly(s, e)
    ensures Inv(Next(s, e))
  {
    match e
    case RecordInvoke(_, _, _) => InvokeKeepsInv(s, e);
    case SendRequest(c, r) => SendKeepsInv(s, c, r);
    case Respond(q, r, newState) => RespondKeepsInv(s, q, r, newState);
    case ReplyOk(_) => ReplyKeepsInv(s, e);
    case ReplyError(_) => ReplyKeepsInv(s, e);
    case ResetHead(_) => ResetKeepsInv(s, e);
    case ResetRouting => ResetKeepsInv(s, e);
    case ResetState => ResetKeepsInv(s, e);
    case _ => CallStepKeepsInv(s, e);
  }

  lemma {:induction false} RunKeepsInv(s: Sys, es: seq<Event>, t: Sys)
    requires Inv(s) && OrderlyRun(s, es) && Run(s, es) == Some(t)
    ensures Inv(t)
  {
    if es != [] {
      var m := Run(s, es[..|es| - 1]).value;
      RunKeepsInv(s, es[..|es| - 1], m);
      StepKeepsInv(m, es[|es| - 1]);
    }
  }

  // ---------------------------------------------------------------- what orderly runs produce

  lemma StructuredIsGrounded(nodes: map<NodeId, Node>)
    requires Structured(nodes) && ROOT !in nodes
    ensures Grounded(LinksOf(nodes))
  {
    var links := LinksOf(nodes);
    forall n | n in links ensures links[n].parent == ROOT || OlderParent(links, n) {
      assert RowOk(nodes, n);
    }
  }

  predicate OfTurn(kind: Kind) { kind.RequestNode? || kind.ResponseNode? || kind == CompleteNode(true) }

  lemma {:induction false} TurnIsAncestor(nodes: map<NodeId, Node>, n: NodeId)
    requires Structured(nodes) && ROOT !in nodes && n in nodes && OfTurn(nodes[n].kind)
    ensures HasAncestor(LinksOf(nodes), n, nodes[n].turn)
    ensures IsInvoke(nodes, nodes[n].turn, nodes[n].submission)
    decreases nodes[n].rank
  {
    assert RowOk(nodes, n);
    var p := nodes[n].parent;
    if p != nodes[n].turn { TurnIsAncestor(nodes, p); }
  }

  /**
    The soundness theorem. However the calls of a turn interleave, in every orderly run each
    request, response and successful complete descends from its own turn's invoke and carries
    that invoke's submission; and while an invoke is being served, the head is that invoke or
    one of its responses.
   */
  lemma OrderlyRunsAreRooted(objectStorage: bool, r: Routing, es: seq<Event>, s: Sys, n: NodeId)
    requires OrderlyRun(Initial(objectStorage, r), es) && Run(Initial(objectStorage, r), es) == Some(s)
    ensures Grounded(LinksOf(s.nodes))
    ensures n in s.nodes && OfTurn(s.nodes[n].kind) ==> HasAncestor(LinksOf(s.nodes), n, s.nodes[n].turn)
    ensures n in s.nodes && OfTurn(s.nodes[n].kind) ==> IsInvoke(s.nodes, s.nodes[n].turn, s.nodes[n].submission)
    ensures s.stage.Running? ==>
        s.cells.head == s.stage.invoke || IsOf(s.nodes, s.cells.head, ResponseNode, s.stage.invoke)
  {
    RunKeepsInv(Initial(objectStorage, r), es, s);
    StructuredIsGrounded(s.nodes);
    if n in s.nodes && OfTurn(s.nodes[n].kind) { TurnIsAncestor(s.nodes, n); }
  }

  lemma {:induction false} RunAppend(s: Sys, es: seq<Event>, fs: seq<Event>)
    requires Run(s, es).Some?
    ensures Run(s, es + fs) == Run(Run(s, es).value, fs)
  {
    if fs == [] {
      assert es + fs == es;
    } else {
      var k := |fs| - 1;
      assert (es + fs)[..|es + fs| - 1] == es + fs[..k];
      RunAppend(s, es, fs[..k]);
    }
  }

  lemma RunOne(s: Sys, e: Event)
    requires Enabled(s, e)
    ensures Run(s, [e]) == Some(Next(s, e))
  {
    assert [e][..0] == [];
  }

  lemma RunSnoc(s: Sys, es: seq<Event>, e: Event)
    requires Run(s, es).Some? && Enabled(Run(s, es).value, e)
    ensures Run(s, es + [e]) == Some(Next(Run(s, es).value, e))
  {
    RunAppend(s, es, [e]);
    RunOne(Run(s, es).value, e);
  }

  predicate Steps(s: Sys, e: Event, t: Sys) { Enabled(s, e) && t == Next(s, e) }

  lemma RunThree(s0: Sys, e1: Event, s1: Sys, e2: Event, s2: Sys, e3: Event, s3: Sys)
    requires Steps(s0, e1, s1) && Steps(s1, e2, s2) && Steps(s2, e3, s3)
    ensures Run(s0, [e1, e2, e3]) == Some(s3)
  {
    RunOne(s0, e1);
    RunSnoc(s0, [e1], e2);
    RunSnoc(s0, [e1] + [e2], e3);
    assert [e1] + [e2] + [e3] == [e1, e2, e3];
  }

  lemma RunFourth(s0: Sys, e1: Event, e2: Event, e3: Event, s3: Sys, e4: Event, s4: Sys)
    requires Run(s0, [e1, e2, e3]) == Some(s3) && Steps(s3, e4, s4)
    ensures Run(s0, [e1, e2, e3, e4]) == Some(s4)
  {
    RunSnoc(s0, [e1, e2, e3], e4);
    assert [e1, e2, e3] + [e4] == [e1, e2, e3, e4];
  }

  /** A reset that nothing interrupts does to the cells what the handler's method does. */
  lemma ResetIsItsSteps(s: Sys, v: NodeId) returns (t: Sys)
    requires v in s.invokes && (s.stage.NoTurn? || s.stage.Replied?)
    ensures Run(s, [ResetHead(v), ResetRouting, ResetState]) == Some(t)
    ensures t == s.(cells := AfterReset(s.cells, v, s.invokes[v], s.objectStorage), stage := Running(v), past := {v})
  {
    var s1 := Next(s, ResetHead(v));
    var s2 := Next(s1, ResetRouting);
    t := Next(s2, ResetState);
    RunThree(s, ResetHead(v), s1, ResetRouting, s2, ResetState, t);
  }

  /** A call begins and reads the head and the state. */
  lemma CallReads(s: Sys, c: nat) returns (t: Sys)
    requires c !in s.calls && !s.stage.NoTurn?
    ensures Run(s, [BeginCall(c), ReadHead(c), ReadState(c)]) == Some(t)
    ensures t == s.(cells := s.cells.(sequence := s.cells.sequence + 1),
                    calls := s.calls[c := Ready(
                      s.stage.invoke, s.cells.routing, s.cells.sequence, s.cells.head, s.cells.state)])
  {
    var s1 := Next(s, BeginCall(c));
    var s2 := Next(s1, ReadHead(c));
    t := Next(s2, ReadState(c));
    RunThree(s, BeginCall(c), s1, ReadHead(c), s2, ReadState(c), t);
    assert t.calls ==
      s.calls[c := Ready(s.stage.invoke, s.cells.routing, s.cells.sequence, s.cells.head, s.cells.state)];
  }

  /** The first half of a call: what the request is sent with. */
  lemma CallSends(s: Sys, c: nat, q: Recording) returns (t: Sys)
    requires c !in s.calls && s.stage.Running? && q.id != ROOT && q.id !in s.used
    ensures Run(s, [BeginCall(c), ReadHead(c), ReadState(c)] + [SendRequest(c, q)]) == Some(t)
    ensures t.cells == s.cells.(sequence := s.cells.sequence + 1)
    ensures t.calls == s.calls[c := Waiting(s.stage.invoke, q.id)] && t.used == s.used + {q.id} && q.id in t.requests
    ensures t.stage == s.stage
    ensures var parent := ParentFor(s.nodes, s.cells.head, q.lookup);
      var row := Node(parent, RequestNode, s.stage.invoke, s.cells.routing.submission, |s.nodes|);
      t.nodes == if q.stored then s.nodes[q.id := row] else s.nodes
  {
    var m := CallReads(s, c);
    t := Next(m, SendRequest(c, q));
    RunSnoc(s, [BeginCall(c), ReadHead(c), ReadState(c)], SendRequest(c, q));
    assert t.calls == s.calls[c := Waiting(s.stage.invoke, q.id)];
  }

  /** The second half: the answer is taken. */
  lemma CallReceives(s: Sys, c: nat, r: Recording, newState: Option<string>) returns (es: seq<Event>, t: Sys)
    requires c in s.calls && s.calls[c].Waiting? && s.calls[c].request in s.requests && r.id != ROOT && r.id !in s.used
    ensures Run(s, es) == Some(t) && t.calls == s.calls - {c} && t.stage == s.stage
    ensures t.cells == s.cells.(head := r.id, state := KeepOr(s.cells.state, newState))
    ensures forall n :: n in s.nodes && n != r.id ==> n in t.nodes && t.nodes[n] == s.nodes[n]
  {
    var q := s.calls[c].request;
    var s1 := Next(s, Respond(q, r, newState));
    assert s1.replies[r.id] == Reply(q, newState) && s1.calls == s.calls && s1.cells == s.cells;
    var s2, s3 := TakeResponse(s1, c, r.id);
    t := Next(s3, AdvanceState(c));
    es := [Respond(q, r, newState), Receive(c, r.id), AdvanceHead(c), AdvanceState(c)];
    RunThree(s, Respond(q, r, newState), s1, Receive(c, r.id), s2, AdvanceHead(c), s3);
    RunFourth(s, Respond(q, r, newState), Receive(c, r.id), AdvanceHead(c), s3, AdvanceState(c), t);
  }

  lemma CallFails(s: Sys, c: nat) returns (es: seq<Event>, t: Sys)
    requires c in s.calls && s.calls[c].Waiting?
    ensures Run(s, es) == Some(t) && t == s.(calls := s.calls - {c})
  {
    es, t := [FailCall(c)], Next(s, FailCall(c));
    RunOne(s, FailCall(c));
  }

  /** A call that nothing interrupts does to the cells what the handler's method does. */
  lemma CallIsItsSteps(s: Sys, c: nat, q: Recording, r: Recording, newState: Option<string>, ok: bool)
    returns (es: seq<Event>, t: Sys)
    requires c !in s.calls && s.stage.Running? && q.id != ROOT && q.id !in s.used
    requires r.id != ROOT && r.id !in s.used && r.id != q.id
    ensures Run(s, es) == Some(t) && t.calls == s.calls && t.stage == s.stage
    ensures t.cells == AfterCall(s.cells, if ok then Answered(r.id, newState) else Failed)
    ensures q.stored ==> q.id in t.nodes && t.nodes[q.id].parent == ParentFor(s.nodes, s.cells.head, q.lookup)
  {
    var m := CallSends(s, c, q);
    if ok { es, t := CallReceives(m, c, r, newState); } else { es, t := CallFails(m, c); }
    RunAppend(s, [BeginCall(c), ReadHead(c), ReadState(c)] + [SendRequest(c, q)], es);
    es := [BeginCall(c), ReadHead(c), ReadState(c)] + [SendRequest(c, q)] + es;
    assert t.calls == s.calls;
  }

  /**
    Why no call may outlive its turn: whenever one has its response in hand, the next turn can
    be reset under it, and its write then moves the new turn's head to the old turn's response.
   */
  lemma StragglerMovesTheNextHead(s: Sys, v: NodeId, c: nat)
    requires s.stage.Replied? && v in s.invokes && c in s.calls && s.calls[c].Received?
    ensures var t := Run(s, [ResetHead(v), ResetRouting, ResetState, AdvanceHead(c)]);
      t.Some? && t.value.stage == Running(v) && t.value.cells.head == s.calls[c].response
  {
    var s1 := Next(s, ResetHead(v));
    var s2 := Next(s1, ResetRouting);
    var s3 := Next(s2, ResetState);
    RunThree(s, ResetHead(v), s1, ResetRouting, s2, ResetState, s3);
    RunFourth(s, ResetHead(v), ResetRouting, ResetState, s3, AdvanceHead(c), Next(s3, AdvanceHead(c)));
  }

  lemma LostResponse(s: Sys, q: NodeId, lost: NodeId) returns (t: Sys)
    requires q in s.requests && lost != ROOT && lost !in s.used
    ensures Steps(s, Respond(q, Recording(lost, true, false), None), t)
    ensures t == s.(used := s.used + {lost}, replies := s.replies[lost := Reply(q, None)])
  {
    t := Next(s, Respond(q, Recording(lost, true, false), None));
  }

  lemma TakeResponse(s: Sys, c: nat, r: NodeId) returns (m: Sys, t: Sys)
    requires c in s.calls && s.calls[c].Waiting? && r in s.replies && s.replies[r].request == s.calls[c].request
    ensures Steps(s, Receive(c, r), m) && Steps(m, AdvanceHead(c), t)
    ensures t == s.(cells := s.cells.(head := r), past := s.past + {r},
                    calls := s.calls[c := HeadSet(s.calls[c].turn, s.replies[r].newState)])
  {
    m := Next(s, Receive(c, r));
    t := Next(m, AdvanceHead(c));
    assert t.calls == s.calls[c := HeadSet(s.calls[c].turn, s.replies[r].newState)];
  }

  /**
    Why the store must answer: a response whose insert failed still becomes the head, and the
    next complete then hangs below root instead of below the invoke.
   */
  lemma LostResponseOrphansTheComplete(s: Sys, c: nat, lost: NodeId, done: NodeId)
    requires s.stage.Running? && s.stage.invoke in s.invokes && s.nodes.Keys <= s.used
    requires c in s.calls && s.calls[c].Waiting? && s.calls[c].request in s.requests
    requires lost != done && lost != ROOT && done != ROOT && lost !in s.used && done !in s.used
    ensures var t := Run(s, [Respond(s.calls[c].request, Recording(lost, true, false), None), Receive(c, lost),
                             AdvanceHead(c), ReplyOk(Recording(done, true, true))]);
      t.Some? && done in t.value.nodes && t.value.nodes[done].kind == CompleteNode(true) &&
        t.value.nodes[done].parent == ROOT
  {
    var q := s.calls[c].request;
    var s1 := LostResponse(s, q, lost);
    var s2, s3 := TakeResponse(s1, c, lost);
    var e4 := ReplyOk(Recording(done, true, true));
    var s4 := Next(s3, e4);
    assert lost !in s3.nodes;
    RunThree(s, Respond(q, Recording(lost, true, false), None), s1, Receive(c, lost), s2, AdvanceHead(c), s3);
    RunFourth(s, Respond(q, Recording(lost, true, false), None), Receive(c, lost), AdvanceHead(c), s3, e4, s4);
  }
}
