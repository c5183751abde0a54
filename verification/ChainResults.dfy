/**
  What a turn can leave, wherever it starts: the exact shapes, and the line that calls without
  overlap make.
 */
module ChainResults {
  import opened Text
  import opened Dag
  import opened ChainHead
  import opened ChainShapes
  import opened ChainTurns

  // ---------------------------------------------------------------- where a turn starts

  /** The agent starts running for `v`, whatever happened before. */
  ghost predicate TurnStart(s: Sys, v: NodeId) {
    && s.stage == Running(v) && s.cells.head == v && s.calls == map[] && s.past == {v}
    && History(s, s.nodes.Keys, v)
    && s.requests.Keys <= s.nodes.Keys
    && forall r :: r in s.replies ==> s.replies[r].request in s.requests
  }

  lemma TurnOpens(s: Sys, v: NodeId)
    requires TurnStart(s, v)
    ensures Opening(ByItself(s, s.nodes.Keys, v), v) && InTurn(s, s.nodes.Keys, v)
  {
    var l := ByItself(s, s.nodes.Keys, v);
    assert l.nodes == map[v := Node(ROOT, InvokeNode, v, s.cells.routing.submission, 0)];
    assert l.requests == map[] && l.replies == map[];
    OpeningTurnInv(l, v);
  }

  /** During the resets the head is the invoke alone. */
  ghost predicate Resetting(s: Sys) {
    s.stage.HeadWritten? || s.stage.RoutingWritten? ==> s.cells.head == s.stage.invoke && s.past == {s.stage.invoke}
  }

  lemma StepKeepsResetting(s: Sys, e: Event)
    requires Inv(s) && Resetting(s) && Enabled(s, e)
    ensures Resetting(Next(s, e))
  {}

  lemma {:induction false} RunKeepsResetting(s: Sys, es: seq<Event>, t: Sys)
    requires Inv(s) && Resetting(s) && OrderlyRun(s, es) && Run(s, es) == Some(t)
    ensures Resetting(t)
  {
    if es != [] {
      var m := Run(s, es[..|es| - 1]).value;
      RunKeepsInv(s, es[..|es| - 1], m);
      RunKeepsResetting(s, es[..|es| - 1], m);
      StepKeepsResetting(m, es[|es| - 1]);
    }
  }

  /**
    In every orderly run, of any number of turns, each completed reset is the start of a turn
    to which the theorems below apply.
   */
  lemma EveryResetStartsATurn(objectStorage: bool, r: Routing, es: seq<Event>, s: Sys, v: NodeId)
    requires OrderlyRun(Initial(objectStorage, r), es) && Run(Initial(objectStorage, r), es) == Some(s)
    requires s.stage == RoutingWritten(v)
    ensures Enabled(s, ResetState) && TurnStart(Next(s, ResetState), v)
    ensures Next(s, ResetState).cells.routing == s.invokes[v].routing
  {
    RunKeepsInv(Initial(objectStorage, r), es, s);
    RunKeepsResetting(Initial(objectStorage, r), es, s);
    var t := Next(s, ResetState);
    forall n | n in t.nodes ensures RankBelow(t.nodes, n) { assert RowOk(s.nodes, n); }
    forall q | q in t.requests ensures q in t.nodes { assert RequestOk(s.nodes, q, s.requests[q]); }
    forall q | q in t.replies ensures t.replies[q].request in t.requests {
      assert ReplyOfRequest(s.nodes, s.requests, q, s.replies[q]);
    }
  }

  // ---------------------------------------------------------------- the shape theorem

  /** `es` ends with no call left, `head` as head, and `nodes` as the rows of the turn. */
  predicate Leaves(s: Sys, es: seq<Event>, v: NodeId, nodes: Rows, head: NodeId) {
    AllAllowed(es) && var t := Run(s, es);
    t.Some? && t.value.calls == map[] && t.value.cells.head == head &&
    TurnRows(t.value.nodes, s.nodes.Keys, v, s.cells.routing.submission) == nodes
  }

  /** At every moment of a turn, not only at its end, its rows and the head form a turn shape. */
  lemma TurnsHaveShape(s: Sys, v: NodeId, es: seq<Event>, t: Sys)
    requires TurnStart(s, v) && AllAllowed(es) && Run(s, es) == Some(t)
    ensures TurnShape(TurnRows(t.nodes, s.nodes.Keys, v, s.cells.routing.submission), v, s.cells.routing.submission,
        t.cells.head)
  {
    TurnOpens(s, v);
    RunInTurn(s, s.nodes.Keys, v, es, t);
    TurnInvHasShape(ByItself(t, s.nodes.Keys, v), v, s.cells.routing.submission);
  }

  /** Rows from before stay as they are; a row added has an id not used before. */
  predicate Extends(s: Sys, t: Sys) {
    && s.used <= t.used
    && (forall n :: n in s.nodes ==> n in t.nodes && t.nodes[n] == s.nodes[n])
    && (forall n :: n in t.nodes ==> n in s.nodes || n !in s.used)
  }

  lemma StepExtends(s: Sys, e: Event)
    requires Enabled(s, e) && s.nodes.Keys <= s.used
    ensures Extends(s, Next(s, e)) && Next(s, e).nodes.Keys <= Next(s, e).used
  {}

  /** In any run, orderly or not, the older rows are an untouched frame. */
  lemma {:induction false} RunExtends(s: Sys, es: seq<Event>, t: Sys)
    requires s.nodes.Keys <= s.used && Run(s, es) == Some(t)
    ensures Extends(s, t) && t.nodes.Keys <= t.used
  {
    if es != [] {
      var m := Run(s, es[..|es| - 1]).value;
      RunExtends(s, es[..|es| - 1], m);
      StepExtends(m, es[|es| - 1]);
    }
  }

  /**
    The shape theorem. From the start of any turn, with a store that answers, the rows and the
    final head that some interleaving leaves, once every call has ended, are exactly the turn
    shapes over ids not used before. `head` is the parent the complete will get.
   */
  lemma ShapesAreExact(s: Sys, v: NodeId, nodes: Rows, head: NodeId)
    requires TurnStart(s, v)
    ensures TurnShape(nodes, v, s.cells.routing.submission, head) && FreshBut(nodes, v, s.used)
      <==> exists es :: Leaves(s, es, v, nodes, head)
  {
    var base, u := s.nodes.Keys, s.cells.routing.submission;
    TurnOpens(s, v);
    if TurnShape(nodes, v, u, head) && FreshBut(nodes, v, s.used) {
      var es, l := EveryShapeIsLeft(Plan(nodes, v, s.cells.routing, head, s.used), ByItself(s, base, v));
      var t := RunLifts(s, base, v, es, l);
      RunInTurn(s, base, v, es, t);
      assert Leaves(s, es, v, nodes, head);
    }
    if es :| Leaves(s, es, v, nodes, head) {
      var t := Run(s, es).value;
      TurnsHaveShape(s, v, es, t);
      RunExtends(s, es, t);
      forall n | n in nodes ensures IsNew(n, v, s.used) {}
    }
  }

  // ---------------------------------------------------------------- turns without overlap

  /** One call at a time, none failing, each request of the turn answered once. */
  predicate SerialRun(s: Sys, base: set<NodeId>, es: seq<Event>) {
    es == [] ||
    (SerialRun(s, base, es[..|es| - 1]) &&
     (Run(s, es[..|es| - 1]).Some? ==>
        (Foreign(base, es[|es| - 1]) && Allowed(es[|es| - 1])) || Serial(Run(s, es[..|es| - 1]).value, es[|es| - 1])))
  }

  lemma MoreUsedOnLine(s: Sys, v: NodeId, ids: set<NodeId>, messages: map<NodeId, InvokeMessage>)
    requires LineInv(s, v) && s.used <= ids
    ensures LineInv(Widened(s, ids, messages), v)
  {
    var t := Widened(s, ids, messages);
    forall c | c in t.calls ensures InHand(t, t.calls[c]) { assert InHand(s, s.calls[c]); }
  }

  lemma SerialByItself(s: Sys, base: set<NodeId>, v: NodeId, e: Event)
    requires InTurn(s, base, v) && Enabled(s, e) && Serial(s, e) && !Foreign(base, e)
    ensures Serial(ByItself(s, base, v), e)
  {
    if e.Respond? {
      var c :| c in s.calls && s.calls[c].Waiting? && s.calls[c].request == e.request;
      assert c in ByItself(s, base, v).calls;
    }
  }

  lemma {:induction false} SerialRunKeeps(s: Sys, base: set<NodeId>, v: NodeId, es: seq<Event>, t: Sys)
    requires InTurn(s, base, v) && LineInv(ByItself(s, base, v), v) && SerialRun(s, base, es) && Run(s, es) == Some(t)
    ensures InTurn(t, base, v) && LineInv(ByItself(t, base, v), v) && t.cells.routing == s.cells.routing
  {
    if es != [] {
      var m, e := Run(s, es[..|es| - 1]).value, es[|es| - 1];
      SerialRunKeeps(s, base, v, es[..|es| - 1], m);
      StepKeepsHistory(m, base, v, e);
      StepInTurn(m, base, v, e);
      if Foreign(base, e) {
        ForeignStep(m, base, v, e);
        MoreUsedOnLine(ByItself(m, base, v), v, t.used, t.invokes);
      } else {
        SerialByItself(m, base, v, e);
        OwnStep(m, base, v, e);
        SerialStepKeeps(ByItself(m, base, v), v, m.cells.routing.submission, e);
      }
    }
  }

  /**
    Without overlap and failure a turn is a line, whatever is recorded for others in between:
    each of its rows hangs on the one recorded just before it, request and response alternate,
    and between calls the head is the newest row, so the complete closes the line.
   */
  lemma SerialTurnsAreLines(s: Sys, v: NodeId, es: seq<Event>, t: Sys)
    requires TurnStart(s, v) && SerialRun(s, s.nodes.Keys, es) && Run(s, es) == Some(t)
    ensures var rows := TurnRows(t.nodes, s.nodes.Keys, v, s.cells.routing.submission);
      && Alternating(rows, v, s.cells.routing.submission)
      && Line(rows, v)
      && (t.calls == map[] ==> Newest(rows, t.cells.head))
  {
    TurnOpens(s, v);
    OpeningLineInv(ByItself(s, s.nodes.Keys, v), v);
    SerialRunKeeps(s, s.nodes.Keys, v, es, t);
  }
}
