/**
  What the handler's cells do for the calls, whatever comes between the steps of one: what a
  request is sent with, what a response changes, and which state and number are in force.
 */
module ChainCells {
  import opened Text
  import opened Dag
  import opened ChainHead

  /** The event is a step of call `c`. */
  predicate Of(e: Event, c: nat) {
    match e
    case BeginCall(k) => k == c
    case ReadHead(k) => k == c
    case ReadState(k) => k == c
    case SendRequest(k, _) => k == c
    case Receive(k, _) => k == c
    case FailCall(k) => k == c
    case AdvanceHead(k) => k == c
    case AdvanceState(k) => k == c
    case _ => false
  }

  predicate NoneOf(es: seq<Event>, c: nat) { forall e :: e in es ==> !Of(e, c) }

  predicate CallIs(s: Sys, c: nat, p: Phase) { c in s.calls && s.calls[c] == p }

  lemma StepLeavesCall(s: Sys, e: Event, c: nat, p: Phase)
    requires Enabled(s, e) && !Of(e, c) && CallIs(s, c, p)
    ensures CallIs(Next(s, e), c, p)
  {}

  /** While others go on, a call stays where it is. */
  lemma {:induction false} OthersLeaveCall(s: Sys, es: seq<Event>, c: nat, p: Phase, t: Sys)
    requires CallIs(s, c, p) && NoneOf(es, c) && Run(s, es) == Some(t)
    ensures CallIs(t, c, p)
  {
    if es != [] {
      var k := |es| - 1;
      OthersLeaveCall(s, es[..k], c, p, Run(s, es[..k]).value);
      assert !Of(es[k], c);
      StepLeavesCall(Run(s, es[..k]).value, es[k], c, p);
    }
  }

  predicate ReplyIs(s: Sys, r: NodeId, x: Reply) { r in s.replies && s.replies[r] == x && r in s.used }

  lemma StepLeavesReply(s: Sys, e: Event, r: NodeId, x: Reply)
    requires Enabled(s, e) && ReplyIs(s, r, x)
    ensures ReplyIs(Next(s, e), r, x)
  {}

  /** A reply stays what it was when its response was recorded. */
  lemma {:induction false} RepliesStay(s: Sys, es: seq<Event>, r: NodeId, x: Reply, t: Sys)
    requires ReplyIs(s, r, x) && Run(s, es) == Some(t)
    ensures ReplyIs(t, r, x)
  {
    if es != [] {
      var k := |es| - 1;
      RepliesStay(s, es[..k], r, x, Run(s, es[..k]).value);
      StepLeavesReply(Run(s, es[..k]).value, es[k], r, x);
    }
  }

  /** Only events of others lead from `s` to `t`. */
  predicate Others(s: Sys, c: nat, t: Sys, es: seq<Event>) { NoneOf(es, c) && Run(s, es) == Some(t) }

  // ---------------------------------------------------------------- the first half of a call

  lemma CallBegins(s: Sys, c: nat, t: Sys)
    requires Steps(s, BeginCall(c), t)
    ensures CallIs(t, c, Begun(s.stage.invoke, s.cells.routing, s.cells.sequence))
    ensures t.cells == s.cells.(sequence := s.cells.sequence + 1)
  {}

  lemma HeadIsRead(s: Sys, c: nat, turn: NodeId, routing: Routing, sequence: nat, es: seq<Event>, m: Sys, t: Sys)
    requires CallIs(s, c, Begun(turn, routing, sequence)) && Others(s, c, m, es) && Steps(m, ReadHead(c), t)
    ensures CallIs(t, c, HeadRead(turn, routing, sequence, m.cells.head)) && t.cells == m.cells
  {
    OthersLeaveCall(s, es, c, s.calls[c], m);
  }

  lemma StateIsRead(
      s: Sys, c: nat, turn: NodeId, routing: Routing, sequence: nat, parent: NodeId, es: seq<Event>, m: Sys, t: Sys)
    requires CallIs(s, c, HeadRead(turn, routing, sequence, parent)) && Others(s, c, m, es) && Steps(m, ReadState(c), t)
    ensures CallIs(t, c, Ready(turn, routing, sequence, parent, m.cells.state)) && t.cells == m.cells
  {
    OthersLeaveCall(s, es, c, s.calls[c], m);
  }

  /** The request is stored, if it is, below `parent` if that is stored, else below root. */
  predicate RequestRow(before: Sys, after: Sys, r: Recording, parent: NodeId) {
    r.id in after.nodes && after.nodes[r.id].kind == RequestNode &&
    after.nodes[r.id].parent == if parent != ROOT && r.lookup && parent in before.nodes then parent else ROOT
  }

  lemma RequestIsSent(
      s: Sys, c: nat, turn: NodeId, routing: Routing, sequence: nat, parent: NodeId, state: Option<string>,
      es: seq<Event>, m: Sys, r: Recording, t: Sys)
    requires CallIs(s, c, Ready(turn, routing, sequence, parent, state)) && Others(s, c, m, es)
    requires Steps(m, SendRequest(c, r), t)
    ensures r.id in t.requests && t.requests[r.id] == SentRequest(turn, routing.submission, sequence, state)
    ensures CallIs(t, c, Waiting(turn, r.id)) && (r.stored ==> RequestRow(m, t, r, parent))
  {
    OthersLeaveCall(s, es, c, s.calls[c], m);
  }

  /**
    What a request carries, whatever other calls, answers and invokes come between: the turn
    and the submission of the moment its call began, the sequence number of that moment, the
    head that was read as its parent, and the state that was read last.
   */
  lemma RequestsCarryWhatWasRead(
      s0: Sys, c: nat, s1: Sys, es1: seq<Event>, s2: Sys, s3: Sys, es2: seq<Event>, s4: Sys, s5: Sys,
      es3: seq<Event>, s6: Sys, r: Recording, t: Sys)
    requires Steps(s0, BeginCall(c), s1) && Others(s1, c, s2, es1) && Steps(s2, ReadHead(c), s3)
    requires Others(s3, c, s4, es2) && Steps(s4, ReadState(c), s5)
    requires Others(s5, c, s6, es3) && Steps(s6, SendRequest(c, r), t)
    ensures r.id in t.requests && t.requests[r.id] ==
      SentRequest(s0.stage.invoke, s0.cells.routing.submission, s0.cells.sequence, s4.cells.state)
    ensures r.stored ==> RequestRow(s6, t, r, s2.cells.head)
    ensures s1.cells.sequence == s0.cells.sequence + 1
  {
    var v, u, n := s0.stage.invoke, s0.cells.routing, s0.cells.sequence;
    CallBegins(s0, c, s1);
    HeadIsRead(s1, c, v, u, n, es1, s2, s3);
    StateIsRead(s3, c, v, u, n, s2.cells.head, es2, s4, s5);
    RequestIsSent(s5, c, v, u, n, s2.cells.head, s4.cells.state, es3, s6, r, t);
  }

  // ---------------------------------------------------------------- the second half

  lemma AnswerIsTaken(
      s: Sys, q: NodeId, r: NodeId, newState: Option<string>, es: seq<Event>, m: Sys, c: nat, t: Sys)
    requires ReplyIs(s, r, Reply(q, newState)) && Run(s, es) == Some(m) && Steps(m, Receive(c, r), t)
    ensures CallIs(t, c, Received(m.calls[c].turn, m.calls[c].request, r, newState)) && m.calls[c].request == q
  {
    RepliesStay(s, es, r, Reply(q, newState), m);
  }

  lemma HeadIsTaken(
      s: Sys, c: nat, turn: NodeId, q: NodeId, r: NodeId, newState: Option<string>, es: seq<Event>, m: Sys, t: Sys)
    requires CallIs(s, c, Received(turn, q, r, newState)) && Others(s, c, m, es) && Steps(m, AdvanceHead(c), t)
    ensures CallIs(t, c, HeadSet(turn, newState)) && t.cells == m.cells.(head := r)
  {
    OthersLeaveCall(s, es, c, s.calls[c], m);
  }

  lemma StateIsTaken(s: Sys, c: nat, turn: NodeId, newState: Option<string>, es: seq<Event>, m: Sys, t: Sys)
    requires CallIs(s, c, HeadSet(turn, newState)) && Others(s, c, m, es) && Steps(m, AdvanceState(c), t)
    ensures t.cells == m.cells.(state := if newState.Some? then newState else m.cells.state) && c !in t.calls
  {
    OthersLeaveCall(s, es, c, s.calls[c], m);
  }

  /**
    A response takes effect, whatever comes between: its id becomes the head, and its new
    state, if it has one, the state; one without leaves the state as it then is.
   */
  lemma ResponsesTakeEffect(
      s0: Sys, q: NodeId, r: Recording, newState: Option<string>, s1: Sys, es1: seq<Event>, s2: Sys, c: nat, s3: Sys,
      es2: seq<Event>, s4: Sys, s5: Sys, es3: seq<Event>, s6: Sys, t: Sys)
    requires Steps(s0, Respond(q, r, newState), s1) && Run(s1, es1) == Some(s2) && Steps(s2, Receive(c, r.id), s3)
    requires Others(s3, c, s4, es2) && Steps(s4, AdvanceHead(c), s5)
    requires Others(s5, c, s6, es3) && Steps(s6, AdvanceState(c), t)
    ensures s5.cells == s4.cells.(head := r.id)
    ensures t.cells == s6.cells.(state := if newState.Some? then newState else s6.cells.state) && c !in t.calls
  {
    assert ReplyIs(s1, r.id, Reply(q, newState));
    AnswerIsTaken(s1, q, r.id, newState, es1, s2, c, s3);
    HeadIsTaken(s3, c, s2.calls[c].turn, q, r.id, newState, es2, s4, s5);
    StateIsTaken(s5, c, s2.calls[c].turn, newState, es3, s6, t);
  }

  // ---------------------------------------------------------------- the state in force

  lemma StepKeepsStorage(s: Sys, e: Event)
    requires Enabled(s, e)
    ensures Next(s, e).objectStorage == s.objectStorage
  {}

  lemma {:induction false} RunKeepsStorage(s: Sys, es: seq<Event>, t: Sys)
    requires Run(s, es) == Some(t)
    ensures t.objectStorage == s.objectStorage
  {
    if es != [] {
      var m := Run(s, es[..|es| - 1]).value;
      RunKeepsStorage(s, es[..|es| - 1], m);
      StepKeepsStorage(m, es[|es| - 1]);
    }
  }

  lemma ResetSeeds(s: Sys, v: NodeId)
    requires s.stage == RoutingWritten(v) && v in s.invokes
    ensures Enabled(s, ResetState) && Next(s, ResetState).cells.state ==
      if !s.objectStorage then None else if s.invokes[v].state.Some? then s.invokes[v].state else Some("")
  {}

  /**
    What a turn starts from, in every run: without object storage no state, with it the state
    the invoke brings, and the empty text if it brings none.
   */
  lemma TurnsStartFromTheInvokesState(objectStorage: bool, r: Routing, es: seq<Event>, s: Sys, v: NodeId)
    requires Run(Initial(objectStorage, r), es) == Some(s) && s.stage == RoutingWritten(v) && v in s.invokes
    ensures Enabled(s, ResetState)
    ensures Next(s, ResetState).cells.state ==
      if !objectStorage then None else if s.invokes[v].state.Some? then s.invokes[v].state else Some("")
  {
    RunKeepsStorage(Initial(objectStorage, r), es, s);
    ResetSeeds(s, v);
  }

  /** A response's new state, if event `e` writes one into the cell. */
  function Taken(s: Sys, e: Event): Option<string> {
    if e.AdvanceState? && e.call in s.calls && s.calls[e.call].HeadSet? then s.calls[e.call].newState else None
  }

  lemma StepMovesState(s: Sys, e: Event)
    requires Enabled(s, e) && !e.ResetState?
    ensures Next(s, e).cells.state == if Taken(s, e).Some? then Taken(s, e) else s.cells.state
  {}

  /** Event number `k` of the run writes the state `x`. */
  predicate Takes(s: Sys, es: seq<Event>, k: nat, x: string) {
    k < |es| && var m := Run(s, es[..k]); m.Some? && Taken(m.value, es[k]) == Some(x)
  }

  ghost predicate NoneTaken(s: Sys, es: seq<Event>, from: nat) {
    forall j: nat, y {:trigger Takes(s, es, j, y)} :: from <= j ==> !Takes(s, es, j, y)
  }

  predicate NoReset(es: seq<Event>) { forall e :: e in es ==> !e.ResetState? }

  lemma TakesPrefix(s: Sys, es: seq<Event>, n: nat, k: nat, x: string)
    requires n <= |es|
    ensures Takes(s, es[..n], k, x) <==> k < n && Takes(s, es, k, x)
  {
    if k < n { assert es[..n][..k] == es[..k]; }
  }

  lemma NoneTakenPrefix(s: Sys, es: seq<Event>, n: nat, from: nat)
    requires n <= |es| && NoneTaken(s, es, from)
    ensures NoneTaken(s, es[..n], from)
  {
    forall j: nat, y | from <= j ensures !Takes(s, es[..n], j, y) { TakesPrefix(s, es, n, j, y); }
  }

  /** The last event of a run that takes no state leaves it. */
  lemma LastTakesNone(s: Sys, es: seq<Event>, m: Sys, t: Sys)
    requires es != [] && NoReset(es) && NoneTaken(s, es, |es| - 1)
    requires Run(s, es[..|es| - 1]) == Some(m) && Steps(m, es[|es| - 1], t)
    ensures t.cells.state == m.cells.state
  {
    var e := es[|es| - 1];
    StepMovesState(m, e);
    if Taken(m, e).Some? { assert Takes(s, es, |es| - 1, Taken(m, e).value); }
  }

  /** With no new state taken, the state is what it was. */
  lemma {:induction false} StateStays(s: Sys, es: seq<Event>, t: Sys)
    requires Run(s, es) == Some(t) && NoReset(es) && NoneTaken(s, es, 0)
    ensures t.cells.state == s.cells.state
  {
    if es != [] {
      var k := |es| - 1;
      var m := Run(s, es[..k]).value;
      NoneTakenPrefix(s, es, k, 0);
      StateStays(s, es[..k], m);
      LastTakesNone(s, es, m, t);
    }
  }

  /** Else it is the newest that was taken. */
  lemma {:induction false} StateIsTheNewestTaken(s: Sys, es: seq<Event>, t: Sys, k: nat, x: string)
    requires Run(s, es) == Some(t) && NoReset(es) && Takes(s, es, k, x) && NoneTaken(s, es, k + 1)
    ensures t.cells.state == Some(x)
  {
    var n := |es| - 1;
    var m := Run(s, es[..n]).value;
    if k < n {
      TakesPrefix(s, es, n, k, x);
      NoneTakenPrefix(s, es, n, k + 1);
      StateIsTheNewestTaken(s, es[..n], m, k, x);
      LastTakesNone(s, es, m, t);
    } else {
      StepMovesState(m, es[n]);
    }
  }

  // ---------------------------------------------------------------- sequence numbers

  /** The number a call or a request holds. */
  predicate Drawn(p: Phase) { p.Begun? || p.HeadRead? || p.Ready? }

  ghost predicate NumbersOk(s: Sys) {
    && (forall c :: c in s.calls && Drawn(s.calls[c]) ==> s.calls[c].sequence < s.cells.sequence)
    && (forall q :: q in s.requests ==> s.requests[q].sequence < s.cells.sequence)
    && (forall c, d :: c in s.calls && d in s.calls && c != d && Drawn(s.calls[c]) && Drawn(s.calls[d]) ==>
          s.calls[c].sequence != s.calls[d].sequence)
    && (forall c, q :: c in s.calls && Drawn(s.calls[c]) && q in s.requests ==>
          s.calls[c].sequence != s.requests[q].sequence)
    && (forall q, r :: q in s.requests && r in s.requests && q != r ==>
         s.requests[q].sequence != s.requests[r].sequence)
    && s.requests.Keys <= s.used
  }

  lemma NumberDrawn(s: Sys, c: nat)
    requires NumbersOk(s) && Enabled(s, BeginCall(c))
    ensures NumbersOk(Next(s, BeginCall(c)))
  {}

  lemma NumberSent(s: Sys, c: nat, r: Recording)
    requires NumbersOk(s) && Enabled(s, SendRequest(c, r))
    ensures NumbersOk(Next(s, SendRequest(c, r)))
  {}

  /** Nothing in `t` holds a number that it did not hold in `s`. */
  predicate SameNumbers(s: Sys, t: Sys) {
    && t.requests == s.requests && t.cells.sequence == s.cells.sequence && s.used <= t.used
    && forall c :: c in t.calls && Drawn(t.calls[c]) ==>
         c in s.calls && Drawn(s.calls[c]) && s.calls[c].sequence == t.calls[c].sequence
  }

  lemma SameNumbersOk(s: Sys, t: Sys)
    requires NumbersOk(s) && SameNumbers(s, t)
    ensures NumbersOk(t)
  {}

  /** Other events draw no number, send no request, and leave the numbers of the calls that go on. */
  lemma NumbersStay(s: Sys, e: Event)
    requires Enabled(s, e) && !e.BeginCall? && !e.SendRequest?
    ensures SameNumbers(s, Next(s, e))
  {}

  lemma StepKeepsNumbers(s: Sys, e: Event)
    requires NumbersOk(s) && Enabled(s, e)
    ensures NumbersOk(Next(s, e))
  {
    match e
    case BeginCall(c) => NumberDrawn(s, c);
    case SendRequest(c, r) => NumberSent(s, c, r);
    case _ => NumbersStay(s, e); SameNumbersOk(s, Next(s, e));
  }

  /** Over every run, orderly or not, no two requests of a handler carry the same number. */
  lemma {:induction false} NumbersAreDistinct(objectStorage: bool, r: Routing, es: seq<Event>, s: Sys)
    requires Run(Initial(objectStorage, r), es) == Some(s)
    ensures NumbersOk(s)
    ensures forall q, x :: q in s.requests && x in s.requests && q != x ==>
        s.requests[q].sequence != s.requests[x].sequence
  {
    if es != [] {
      var m := Run(Initial(objectStorage, r), es[..|es| - 1]).value;
      NumbersAreDistinct(objectStorage, r, es[..|es| - 1], m);
      StepKeepsNumbers(m, es[|es| - 1]);
    }
  }

  // ---------------------------------------------------------------- where invokes and completes hang

  /** The parent the queue writes for a hint. */
  predicate HangsOn(s: Sys, n: Node, hint: NodeId, lookup: bool) {
    n.parent == if lookup && hint != ROOT && hint in s.nodes then hint else ROOT
  }

  /** An invoke hangs on what it was hinted at if that is stored. */
  lemma InvokesHangOnTheirHint(s: Sys, r: Recording, hint: NodeId, m: InvokeMessage, t: Sys)
    requires Steps(s, RecordInvoke(r, hint, m), t)
    ensures r.id in t.invokes && t.invokes[r.id] == m
    ensures r.stored ==>
        r.id in t.nodes && t.nodes[r.id].kind == InvokeNode && HangsOn(s, t.nodes[r.id], hint, r.lookup)
  {}

  /** A complete hangs on the head, the last response that was taken; one for an error on root. */
  lemma CompletesHangOnTheHead(s: Sys, r: Recording, ok: bool, t: Sys)
    requires Steps(s, if ok then ReplyOk(r) else ReplyError(r), t) && r.stored
    ensures r.id in t.nodes && t.nodes[r.id].kind == CompleteNode(ok) && t.nodes[r.id].turn == s.stage.invoke
    ensures HangsOn(s, t.nodes[r.id], if ok then s.cells.head else ROOT, r.lookup)
    ensures t.stage == Replied(s.stage.invoke) && t.cells == s.cells && t.calls == s.calls
  {}
}
