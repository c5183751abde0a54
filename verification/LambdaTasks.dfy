/**
  The dispatcher tasks of the Lambda runtime as an interleaved system. Each step is what one
  task does between two awaits; a log records what the outside sees.
 */
module LambdaTasks {

  datatype LogEntry =
    | Acked(message: nat, isInvoke: bool, ok: bool)
    | InvokeStarted(agent: string, message: nat)
    | InvokeEnded(agent: string, message: nat, ok: bool)
    | ErrorCompleted(message: nat, ok: bool)
    | DeleteStarted(agent: string)
    | DeleteEnded(agent: string)
    | Activated(agent: string)

  datatype TaskState =
    | Receiving
    | Holding(message: nat, isInvoke: bool)
    | Dispatching(message: nat)
    | Invoking(message: nat)
    | Reporting(message: nat)
    | Ended

  datatype Task = Task(agent: string, cancelled: bool, state: TaskState)

  /**
    Running tasks, what they did, and how many deliveries the queue has made. A message is
    known by the number of its delivery: one delivered again, after an acknowledgement that
    failed, counts as a new one.
   */
  datatype World = World(tasks: map<nat, Task>, log: seq<LogEntry>, delivered: nat)

  datatype Step =
    | Receive(task: nat, isInvoke: bool)
    | NoticeCancel(task: nat)
    | Acknowledge(task: nat, ok: bool)
    | StartInvoke(task: nat)
    | EndInvoke(task: nat, ok: bool)
    | SendError(task: nat, ok: bool)

  function Goes(w: World, t: nat, s: TaskState): World
    requires t in w.tasks
  {
    w.(tasks := w.tasks[t := w.tasks[t].(state := s)])
  }

  function Logged(w: World, e: LogEntry): World { w.(log := w.log + [e]) }

  /**
    One step of one task; a step that is not possible changes nothing. Waiting for a message
    and noticing the cancellation race: a cancelled task may still take one more message. The
    outcomes of an acknowledgement and of an error complete are ignored.
   */
  function Advance(w: World, s: Step): World {
    if s.task !in w.tasks then w
    else
      var k := w.tasks[s.task];
      match s
      case Receive(t, isInvoke) =>
        if k.state.Receiving? then Goes(w, t, Holding(w.delivered, isInvoke)).(delivered := w.delivered + 1) else w
      case NoticeCancel(t) => if k.state.Receiving? && k.cancelled then Goes(w, t, Ended) else w
      case Acknowledge(t, ok) =>
        if k.state.Holding? then
          var next := if k.state.isInvoke then Dispatching(k.state.message) else Receiving;
          Logged(Goes(w, t, next), Acked(k.state.message, k.state.isInvoke, ok))
        else w
      case StartInvoke(t) =>
        if k.state.Dispatching?
        then Logged(Goes(w, t, Invoking(k.state.message)), InvokeStarted(k.agent, k.state.message))
        else w
      case EndInvoke(t, ok) =>
        if k.state.Invoking?
        then
          var next := if ok then Receiving else Reporting(k.state.message);
          Logged(Goes(w, t, next), InvokeEnded(k.agent, k.state.message, ok))
        else w
      case SendError(t, ok) =>
        if k.state.Reporting? then Logged(Goes(w, t, Receiving), ErrorCompleted(k.state.message, ok)) else w
  }

  function AdvanceAll(w: World, steps: seq<Step>): World {
    if steps == [] then w else Advance(AdvanceAll(w, steps[..|steps| - 1]), steps[|steps| - 1])
  }

  // ---------------------------------------------------------------- monitors

  /** What the log so far says of an agent's function. */
  datatype AgentPhase = Free(busy: nat) | Dead | Broken

  function AgentNext(p: AgentPhase, a: string, e: LogEntry): AgentPhase {
    match e
    case InvokeStarted(b, _) => if b != a then p else if p.Free? then Free(p.busy + 1) else Broken
    case InvokeEnded(b, _, _) => if b != a then p else if p.Free? && p.busy > 0 then Free(p.busy - 1) else Broken
    case DeleteStarted(b) => if b != a then p else if p == Free(0) || p == Dead then Dead else Broken
    case Activated(b) => if b != a then p else if p == Dead then Free(0) else p
    case _ => p
  }

  function AgentPhaseOf(log: seq<LogEntry>, a: string): AgentPhase {
    if log == [] then Free(0) else AgentNext(AgentPhaseOf(log[..|log| - 1], a), a, log[|log| - 1])
  }

  /** What the log so far says of one delivered message. */
  datatype MessagePhase = Fresh | SkippedAfterAck | WasAcked | Running | CallDone | CallFailed | Reported | Wrong

  function MessageNext(p: MessagePhase, m: nat, e: LogEntry): MessagePhase {
    match e
    case Acked(n, isInvoke, _) =>
      if n != m then p else if p != Fresh then Wrong else if isInvoke then WasAcked else SkippedAfterAck
    case InvokeStarted(_, n) => if n != m then p else if p == WasAcked then Running else Wrong
    case InvokeEnded(_, n, ok) =>
      if n != m then p else if p != Running then Wrong else if ok then CallDone else CallFailed
    case ErrorCompleted(n, _) => if n != m then p else if p == CallFailed then Reported else Wrong
    case _ => p
  }

  function MessagePhaseOf(log: seq<LogEntry>, m: nat): MessagePhase {
    if log == [] then Fresh else MessageNext(MessagePhaseOf(log[..|log| - 1], m), m, log[|log| - 1])
  }

  // ---------------------------------------------------------------- what monitors mean

  predicate Starts(e: LogEntry, a: string) { e.InvokeStarted? && e.agent == a }

  predicate Ends(e: LogEntry, a: string) { e.InvokeEnded? && e.agent == a }

  /** `invoke_function` calls for `a` still in progress at the end of the log. */
  function InProgress(log: seq<LogEntry>, a: string): int {
    if log == [] then 0
    else
      var e := log[|log| - 1];
      InProgress(log[..|log| - 1], a) + (if Starts(e, a) then 1 else if Ends(e, a) then -1 else 0)
  }

  lemma {:induction false} BrokenStays(log: seq<LogEntry>, k: nat, a: string)
    requires k <= |log| && AgentPhaseOf(log, a) != Broken
    ensures AgentPhaseOf(log[..k], a) != Broken
  {
    if k < |log| {
      var n := |log| - 1;
      assert log[..n][..k] == log[..k];
      BrokenStays(log[..n], k, a);
    } else {
      assert log[..k] == log;
    }
  }

  lemma {:induction false} PhaseCountsCalls(log: seq<LogEntry>, a: string)
    requires AgentPhaseOf(log, a) != Broken
    ensures AgentPhaseOf(log, a).Free? ==> InProgress(log, a) == AgentPhaseOf(log, a).busy
    ensures AgentPhaseOf(log, a).Dead? ==> InProgress(log, a) == 0
  {
    if log != [] {
      var n := |log| - 1;
      BrokenStays(log, n, a);
      PhaseCountsCalls(log[..n], a);
    }
  }

  lemma {:induction false} DeadUntilActivated(log: seq<LogEntry>, i: nat, a: string)
    requires i < |log| && log[i] == DeleteStarted(a) && AgentPhaseOf(log, a) != Broken
    requires forall k :: i < k < |log| ==> log[k] != Activated(a)
    ensures AgentPhaseOf(log, a) == Dead
  {
    var n := |log| - 1;
    BrokenStays(log, n, a);
    if i < n {
      assert log[..n][i] == log[i];
      DeadUntilActivated(log[..n], i, a);
    }
  }

  /** A start after a deletion has an activation in between. */
  lemma ActivatedBetween(log: seq<LogEntry>, a: string, i: nat, j: nat)
    requires AgentPhaseOf(log, a) != Broken && i < j < |log| && log[i] == DeleteStarted(a) && Starts(log[j], a)
    ensures exists k :: i < k < j && log[k] == Activated(a)
  {
    var upTo, before := log[..j + 1], log[..j];
    BrokenStays(log, j + 1, a);
    BrokenStays(log, j, a);
    assert upTo[..j] == before && before[i] == log[i];
    if forall k :: i < k < j ==> before[k] != Activated(a) {
      DeadUntilActivated(before, i, a);
      assert false;
    }
    var k :| i < k < j && before[k] == Activated(a);
    assert log[k] == Activated(a);
  }

  lemma NothingInProgress(log: seq<LogEntry>, a: string, i: nat)
    requires AgentPhaseOf(log, a) != Broken && i < |log| && log[i] == DeleteStarted(a)
    ensures InProgress(log[..i], a) == 0
  {
    BrokenStays(log, i + 1, a);
    assert log[..i + 1][..i] == log[..i];
    BrokenStays(log, i, a);
    PhaseCountsCalls(log[..i], a);
  }

  /**
    What an unbroken monitor means: when a deletion of `a`'s function begins, no invocation of
    it is in progress, and none starts until the function has been activated again.
   */
  lemma NoInvokeMeetsADelete(log: seq<LogEntry>, a: string, i: nat)
    requires AgentPhaseOf(log, a) != Broken && i < |log| && log[i] == DeleteStarted(a)
    ensures InProgress(log[..i], a) == 0
    ensures forall j :: i < j < |log| && Starts(log[j], a) ==> exists k :: i < k < j && log[k] == Activated(a)
  {
    NothingInProgress(log, a, i);
    forall j | i < j < |log| && Starts(log[j], a) ensures exists k :: i < k < j && log[k] == Activated(a) {
      ActivatedBetween(log, a, i, j);
    }
  }

  /** Acknowledgements tried for a delivery. */
  function CountTried(log: seq<LogEntry>, m: nat): nat {
    if log == [] then 0
    else
      var e := log[|log| - 1];
      CountTried(log[..|log| - 1], m) + (if e.Acked? && e.message == m then 1 else 0)
  }

  /** Acknowledgements tried for a delivered invoke, whether or not they reached the queue. */
  function CountAcks(log: seq<LogEntry>, m: nat): nat {
    if log == [] then 0
    else
      var e := log[|log| - 1];
      CountAcks(log[..|log| - 1], m) + (if e.Acked? && e.message == m && e.isInvoke then 1 else 0)
  }

  function CountStarts(log: seq<LogEntry>, m: nat): nat {
    if log == [] then 0
    else
      var e := log[|log| - 1];
      CountStarts(log[..|log| - 1], m) + (if e.InvokeStarted? && e.message == m then 1 else 0)
  }

  function CountFailures(log: seq<LogEntry>, m: nat): nat {
    if log == [] then 0
    else
      var e := log[|log| - 1];
      CountFailures(log[..|log| - 1], m) + (if e.InvokeEnded? && e.message == m && !e.ok then 1 else 0)
  }

  /** Error completes tried, whether or not they were sent. */
  function CountErrors(log: seq<LogEntry>, m: nat): nat {
    if log == [] then 0
    else
      var e := log[|log| - 1];
      CountErrors(log[..|log| - 1], m) + (if e.ErrorCompleted? && e.message == m then 1 else 0)
  }

  lemma {:induction false} WrongStays(log: seq<LogEntry>, k: nat, m: nat)
    requires k <= |log| && MessagePhaseOf(log, m) != Wrong
    ensures MessagePhaseOf(log[..k], m) != Wrong
  {
    if k < |log| {
      var n := |log| - 1;
      assert log[..n][..k] == log[..k];
      WrongStays(log[..n], k, m);
    } else {
      assert log[..k] == log;
    }
  }

  lemma {:induction false} PhaseCounts(log: seq<LogEntry>, m: nat)
    requires MessagePhaseOf(log, m) != Wrong
    ensures var p := MessagePhaseOf(log, m);
      && CountTried(log, m) == (if p == Fresh then 0 else 1)
      && CountAcks(log, m) == (if p == Fresh || p == SkippedAfterAck then 0 else 1)
      && CountStarts(log, m) == (if p == Fresh || p == SkippedAfterAck || p == WasAcked then 0 else 1)
      && CountFailures(log, m) == (if p == CallFailed || p == Reported then 1 else 0)
      && CountErrors(log, m) == (if p == Reported then 1 else 0)
  {
    if log != [] {
      var n := |log| - 1;
      WrongStays(log, n, m);
      PhaseCounts(log[..n], m);
    }
  }

  // ---------------------------------------------------------------- what every step keeps

  predicate Alive(k: Task) { !k.state.Ended? }

  /** Where a task's message stands, by the task and by the log. */
  predicate TaskFits(w: World, t: nat)
    requires t in w.tasks
  {
    var k := w.tasks[t];
    && (Alive(k) ==> AgentPhaseOf(w.log, k.agent) == Free(if k.state.Invoking? then 1 else 0))
    && match k.state
       case Receiving => true
       case Holding(m, _) => m < w.delivered && MessagePhaseOf(w.log, m) == Fresh
       case Dispatching(m) => m < w.delivered && MessagePhaseOf(w.log, m) == WasAcked
       case Invoking(m) => m < w.delivered && MessagePhaseOf(w.log, m) == Running
       case Reporting(m) => m < w.delivered && MessagePhaseOf(w.log, m) == CallFailed
       case Ended => true
  }

  predicate HasMessage(s: TaskState) { s.Holding? || s.Dispatching? || s.Invoking? || s.Reporting? }

  predicate Has(s: TaskState, m: nat) { HasMessage(s) && s.message == m }

  /** Two live tasks of one agent, or two holders of one message. */
  predicate Conflict(w: World, t: nat, u: nat) {
    t in w.tasks && u in w.tasks &&
    ((Alive(w.tasks[t]) && Alive(w.tasks[u]) && w.tasks[t].agent == w.tasks[u].agent)
     || (HasMessage(w.tasks[t].state) && HasMessage(w.tasks[u].state) &&
          w.tasks[t].state.message == w.tasks[u].state.message))
  }

  predicate HeldBy(w: World, m: nat) {
    exists t :: t in w.tasks && HasMessage(w.tasks[t].state) && w.tasks[t].state.message == m
  }

  predicate MessageFits(w: World, m: nat) {
    var p := MessagePhaseOf(w.log, m);
    && p != Wrong
    && (m >= w.delivered ==> p == Fresh)
    && (p == WasAcked || p == Running || p == CallFailed || (p == Fresh && m < w.delivered) ==> HeldBy(w, m))
  }

  predicate HasLive(w: World, a: string) { exists t :: t in w.tasks && Alive(w.tasks[t]) && w.tasks[t].agent == a }

  predicate AgentFits(w: World, a: string) {
    var p := AgentPhaseOf(w.log, a);
    p != Broken && (!HasLive(w, a) ==> p == Free(0) || p == Dead)
  }

  ghost predicate WorldInv(w: World) {
    && (forall t {:trigger TaskFits(w, t)} :: t in w.tasks ==> TaskFits(w, t))
    && (forall t, u {:trigger Conflict(w, t, u)} :: Conflict(w, t, u) ==> t == u)
    && (forall m: nat {:trigger MessageFits(w, m)} :: MessageFits(w, m))
    && (forall a {:trigger AgentFits(w, a)} :: AgentFits(w, a))
  }

  lemma PhasesAppend(log: seq<LogEntry>, e: LogEntry)
    ensures forall a :: AgentPhaseOf(log + [e], a) == AgentNext(AgentPhaseOf(log, a), a, e)
    ensures forall m: nat :: MessagePhaseOf(log + [e], m) == MessageNext(MessagePhaseOf(log, m), m, e)
  {
    assert (log + [e])[..|log|] == log;
  }

  /** A step of task `t` touches no other task: neither its agent nor its message. */
  lemma OthersFit(w: World, v: World, t: nat, u: nat)
    requires WorldInv(w) && t in w.tasks && u in w.tasks && t != u && Alive(w.tasks[t])
    requires t in v.tasks && v.tasks == w.tasks[t := v.tasks[t]] && v.tasks[t].agent == w.tasks[t].agent &&
        v.delivered >= w.delivered
    requires forall a :: a != w.tasks[t].agent ==> AgentPhaseOf(v.log, a) == AgentPhaseOf(w.log, a)
    requires forall m: nat ::
      MessagePhaseOf(v.log, m) == MessagePhaseOf(w.log, m) || Has(w.tasks[t].state, m)
    ensures TaskFits(v, u)
  {
    assert TaskFits(w, u);
    assert !Conflict(w, t, u);
  }

  /** Receiving, noticing the cancellation, and sending nothing but state changes: no log entry. */
  lemma SilentStepKeeps(w: World, s: Step)
    requires WorldInv(w) && (s.Receive? || s.NoticeCancel?)
    ensures WorldInv(Advance(w, s))
  {
    var v := Advance(w, s);
    if v != w {
      var t := s.task;
      assert TaskFits(w, t);
      assert MessageFits(w, w.delivered);
      forall u | u in v.tasks ensures TaskFits(v, u) {
        if u != t { OthersFit(w, v, t, u); }
      }
      forall u, x | Conflict(v, u, x) ensures u == x {
        assert Conflict(w, u, x) || u == t || x == t;
        assert u in w.tasks && TaskFits(w, u) && x in w.tasks && TaskFits(w, x);
      }
      forall m: nat ensures MessageFits(v, m) {
        assert MessageFits(w, m);
        HolderStays(w, v, t, m);
      }
      forall a ensures AgentFits(v, a) { LiveAgentFits(w, v, t, a); }
    }
  }

  lemma LiveAgentFits(w: World, v: World, t: nat, a: string)
    requires WorldInv(w) && t in w.tasks && t in v.tasks && v.tasks == w.tasks[t := v.tasks[t]] && Alive(w.tasks[t])
    requires v.tasks[t].agent == w.tasks[t].agent &&
        (Alive(v.tasks[t]) || (v.log == w.log && !w.tasks[t].state.Invoking?))
    requires a != w.tasks[t].agent ==> AgentPhaseOf(v.log, a) == AgentPhaseOf(w.log, a)
    requires a == w.tasks[t].agent ==> AgentPhaseOf(v.log, a) != Broken
    ensures AgentFits(v, a)
  {
    assert AgentFits(w, a) && TaskFits(w, t);
    if a != w.tasks[t].agent && HasLive(w, a) {
      var u :| u in w.tasks && Alive(w.tasks[u]) && w.tasks[u].agent == a;
      assert u in v.tasks && Alive(v.tasks[u]) && v.tasks[u].agent == a;
    }
  }

  lemma HolderStays(w: World, v: World, t: nat, m: nat)
    requires t in w.tasks && t in v.tasks && v.tasks == w.tasks[t := v.tasks[t]]
    requires HasMessage(w.tasks[t].state) ==>
        HasMessage(v.tasks[t].state) && v.tasks[t].state.message == w.tasks[t].state.message
    ensures HeldBy(w, m) ==> HeldBy(v, m)
  {
    if HeldBy(w, m) {
      var u :| u in w.tasks && HasMessage(w.tasks[u].state) && w.tasks[u].state.message == m;
      assert u in v.tasks && HasMessage(v.tasks[u].state) && v.tasks[u].state.message == m;
    }
  }

  lemma LoggedTaskFits(w: World, s: Step)
    requires WorldInv(w) && !s.Receive? && !s.NoticeCancel? && Advance(w, s) != w
    ensures s.task in w.tasks && Alive(w.tasks[s.task]) && TaskFits(Advance(w, s), s.task)
    ensures forall m: nat :: MessagePhaseOf(Advance(w, s).log, m) == Wrong ==> MessagePhaseOf(w.log, m) == Wrong
  {
    PhasesAppend(w.log, Advance(w, s).log[|w.log|]);
    assert TaskFits(w, s.task);
  }

  /** A step that logs what task `t` does with the message it has. */
  lemma LoggedStepKeeps(w: World, s: Step)
    requires WorldInv(w) && !s.Receive? && !s.NoticeCancel?
    ensures WorldInv(Advance(w, s))
  {
    var v := Advance(w, s);
    if v != w {
      var t := s.task;
      PhasesAppend(w.log, v.log[|w.log|]);
      assert TaskFits(w, t);
      LoggedTaskFits(w, s);
      forall u | u in v.tasks ensures TaskFits(v, u) {
        if u != t { OthersFit(w, v, t, u); }
      }
      forall u, x | Conflict(v, u, x) ensures u == x { assert Conflict(w, u, x); }
      forall m: nat ensures MessageFits(v, m) {
        assert MessageFits(w, m);
        OtherHolderStays(w, v, t, m);
      }
      forall a ensures AgentFits(v, a) { LiveAgentFits(w, v, t, a); }
    }
  }

  lemma OtherHolderStays(w: World, v: World, t: nat, m: nat)
    requires t in w.tasks && t in v.tasks && v.tasks == w.tasks[t := v.tasks[t]] && HasMessage(w.tasks[t].state)
    ensures HeldBy(w, m) && m != w.tasks[t].state.message ==> HeldBy(v, m)
    ensures HasMessage(v.tasks[t].state) ==> HeldBy(v, v.tasks[t].state.message)
  {
    if HeldBy(w, m) && m != w.tasks[t].state.message {
      var u :| u in w.tasks && HasMessage(w.tasks[u].state) && w.tasks[u].state.message == m;
      assert u in v.tasks && HasMessage(v.tasks[u].state) && v.tasks[u].state.message == m;
    }
    if HasMessage(v.tasks[t].state) { assert t in v.tasks; }
  }

  lemma {:induction false} StepsKeep(w: World, steps: seq<Step>)
    requires WorldInv(w)
    ensures WorldInv(AdvanceAll(w, steps))
  {
    if steps != [] {
      var n := |steps| - 1;
      StepsKeep(w, steps[..n]);
      var m, s := AdvanceAll(w, steps[..n]), steps[n];
      if s.Receive? || s.NoticeCancel? { SilentStepKeeps(m, s); } else { LoggedStepKeeps(m, s); }
    }
  }

  predicate ByTask(e: LogEntry) { e.Acked? || e.InvokeStarted? || e.InvokeEnded? || e.ErrorCompleted? }

  /** From position `k` the log speaks of tasks only. */
  predicate OnlyTasks(log: seq<LogEntry>, k: nat) { forall i {:trigger log[i]} :: k <= i < |log| ==> ByTask(log[i]) }

  /** From position `k` it speaks of functions only. */
  predicate OnlyFunctions(log: seq<LogEntry>, k: nat) {
    forall i {:trigger log[i]} :: k <= i < |log| ==> !ByTask(log[i])
  }

  predicate AllEnded(w: World) { forall t :: t in w.tasks ==> w.tasks[t].state.Ended? }

  /** What the tasks cannot do: appear, change agent, be cancelled, wake up, or unsay the log. */
  predicate Evolves(w: World, v: World) {
    && v.tasks.Keys == w.tasks.Keys && w.log <= v.log && OnlyTasks(v.log, |w.log|)
    && (AllEnded(w) ==> v == w)
    && forall t :: t in w.tasks ==>
         && v.tasks[t].agent == w.tasks[t].agent && v.tasks[t].cancelled == w.tasks[t].cancelled
         && (w.tasks[t].state.Ended? ==> v.tasks[t] == w.tasks[t])
         && (v.tasks[t].state.Ended? && !w.tasks[t].state.Ended? ==> w.tasks[t].cancelled)
  }

  lemma {:induction false} StepsEvolve(w: World, steps: seq<Step>)
    ensures Evolves(w, AdvanceAll(w, steps))
  {
    if steps != [] { StepsEvolve(w, steps[..|steps| - 1]); }
  }

  // ---------------------------------------------------------------- what the runtime does to the world

  function Cancelled(w: World, t: nat): World
    requires t in w.tasks
  {
    w.(tasks := w.tasks[t := w.tasks[t].(cancelled := true)])
  }

  function Spawned(w: World, t: nat, a: string): World { w.(tasks := w.tasks[t := Task(a, false, Receiving)]) }

  lemma HoldersAreKept(w: World, v: World)
    requires forall t :: t in w.tasks && HasMessage(w.tasks[t].state) ==>
        t in v.tasks && v.tasks[t].state == w.tasks[t].state
    ensures forall m: nat :: HeldBy(w, m) ==> HeldBy(v, m)
  {
    forall m: nat | HeldBy(w, m) ensures HeldBy(v, m) {
      var t :| t in w.tasks && HasMessage(w.tasks[t].state) && w.tasks[t].state.message == m;
      assert t in v.tasks && HasMessage(v.tasks[t].state) && v.tasks[t].state.message == m;
    }
  }

  lemma CancelKeeps(w: World, t: nat)
    requires WorldInv(w) && t in w.tasks
    ensures WorldInv(Cancelled(w, t))
  {
    var v := Cancelled(w, t);
    HoldersAreKept(w, v);
    forall u | u in v.tasks ensures TaskFits(v, u) { assert TaskFits(w, u); }
    forall u, x | Conflict(v, u, x) ensures u == x { assert Conflict(w, u, x); }
    forall m: nat ensures MessageFits(v, m) { assert MessageFits(w, m); }
    forall a ensures AgentFits(v, a) {
      assert AgentFits(w, a);
      LiveIsKept(w, v, a);
    }
  }

  lemma LiveIsKept(w: World, v: World, a: string)
    requires forall t :: t in w.tasks ==>
        t in v.tasks && v.tasks[t].agent == w.tasks[t].agent && v.tasks[t].state == w.tasks[t].state
    ensures HasLive(w, a) ==> HasLive(v, a)
  {
    if HasLive(w, a) {
      var t :| t in w.tasks && Alive(w.tasks[t]) && w.tasks[t].agent == a;
      assert t in v.tasks && Alive(v.tasks[t]) && v.tasks[t].agent == a;
    }
  }

  lemma SpawnKeeps(w: World, t: nat, a: string)
    requires WorldInv(w) && t !in w.tasks && !HasLive(w, a) && AgentPhaseOf(w.log, a) == Free(0)
    ensures WorldInv(Spawned(w, t, a))
  {
    var v := Spawned(w, t, a);
    HoldersAreKept(w, v);
    forall u | u in v.tasks ensures TaskFits(v, u) {
      if u != t { assert TaskFits(w, u); }
    }
    forall u, x | Conflict(v, u, x) ensures u == x {
      if u != t && x != t { assert Conflict(w, u, x); }
    }
    forall m: nat ensures MessageFits(v, m) { assert MessageFits(w, m); }
    forall b ensures AgentFits(v, b) {
      assert AgentFits(w, b);
      LiveIsKept(w, v, b);
    }
  }

  predicate AboutFunction(e: LogEntry, a: string) { e == DeleteStarted(a) || e == DeleteEnded(a) || e == Activated(a) }

  /** The runtime's own entries are safe while the agent has no live task. */
  lemma FunctionEntryKeeps(w: World, e: LogEntry, a: string)
    requires WorldInv(w) && AboutFunction(e, a) && !HasLive(w, a)
    ensures WorldInv(Logged(w, e))
    ensures AgentPhaseOf(Logged(w, e).log, a) ==
      (if e.DeleteStarted? then Dead else if e.Activated? then Free(0) else AgentPhaseOf(w.log, a))
  {
    var v := Logged(w, e);
    assert AgentFits(w, a);
    PhasesAppend(w.log, e);
    HoldersAreKept(w, v);
    forall u | u in v.tasks ensures TaskFits(v, u) {
      assert TaskFits(w, u);
      assert Alive(w.tasks[u]) ==> w.tasks[u].agent != a;
    }
    forall u, x | Conflict(v, u, x) ensures u == x { assert Conflict(w, u, x); }
    forall m: nat ensures MessageFits(v, m) { assert MessageFits(w, m); }
    forall b ensures AgentFits(v, b) {
      assert AgentFits(w, b);
      LiveIsKept(w, v, b);
    }
  }

  /**
    Safety of every interleaving: in any log the runtime and its tasks can produce, no
    invocation of a function is in progress when its deletion begins, and none starts before
    the function is active again.
   */
  lemma EveryLogIsSafe(w: World, a: string, i: nat)
    requires WorldInv(w) && i < |w.log| && w.log[i] == DeleteStarted(a)
    ensures InProgress(w.log[..i], a) == 0
    ensures forall j :: i < j < |w.log| && Starts(w.log[j], a) ==> exists k :: i < k < j && w.log[k] == Activated(a)
  {
    assert AgentFits(w, a);
    NoInvokeMeetsADelete(w.log, a, i);
  }

  lemma OneDispatcherPerAgent(w: World, t: nat, u: nat)
    requires WorldInv(w) && t in w.tasks && u in w.tasks && Alive(w.tasks[t]) && Alive(w.tasks[u])
    requires w.tasks[t].agent == w.tasks[u].agent
    ensures t == u
  {
    assert Conflict(w, t, u);
  }

  /**
    Delivery accounting: every delivery that no task has in hand any more was acknowledged
    once, with whatever outcome; if it was an invoke, that led to exactly one call of the
    function, else to none; and an error complete was tried exactly when that call failed.
   */
  lemma EveryDeliveryIsOneCall(w: World, m: nat)
    requires WorldInv(w) && !HeldBy(w, m)
    ensures CountTried(w.log, m) == (if m < w.delivered then 1 else 0)
    ensures CountStarts(w.log, m) == CountAcks(w.log, m) <= CountTried(w.log, m)
    ensures CountErrors(w.log, m) == CountFailures(w.log, m) <= CountStarts(w.log, m)
  {
    assert MessageFits(w, m);
    PhaseCounts(w.log, m);
  }

  // ---------------------------------------------------------------- one message, from delivery to report

  lemma {:induction false} AdvanceJoin(w: World, a: seq<Step>, b: seq<Step>, m: World, v: World)
    requires AdvanceAll(w, a) == m && AdvanceAll(m, b) == v
    ensures AdvanceAll(w, a + b) == v
  {
    if b == [] {
      assert a + b == a;
    } else {
      var k := |b| - 1;
      assert (a + b)[..|a + b| - 1] == a + b[..k];
      AdvanceJoin(w, a, b[..k], m, AdvanceAll(m, b[..k]));
    }
  }

  lemma OneStep(w: World, s: Step, v: World)
    requires Advance(w, s) == v
    ensures AdvanceAll(w, [s]) == v
  {
    assert [s][..0] == [];
  }

  lemma TwoSteps(w: World, s1: Step, m: World, s2: Step, v: World)
    requires Advance(w, s1) == m && Advance(m, s2) == v
    ensures AdvanceAll(w, [s1, s2]) == v
  {
    OneStep(w, s1, m);
    assert [s1, s2][..1] == [s1];
  }

  predicate Waits(w: World, t: nat) { t in w.tasks && w.tasks[t].state.Receiving? }

  /** What a task does with one invoke: the steps, and what the outside sees. */
  function InvokeSteps(t: nat, ack: bool, call: bool, sent: bool): seq<Step> {
    [Receive(t, true), Acknowledge(t, ack)] + [StartInvoke(t), EndInvoke(t, call)] +
    (if call then [] else [SendError(t, sent)])
  }

  function InvokeEntries(agent: string, m: nat, ack: bool, call: bool, sent: bool): seq<LogEntry> {
    [Acked(m, true, ack), InvokeStarted(agent, m), InvokeEnded(agent, m, call)] +
    (if call then [] else [ErrorCompleted(m, sent)])
  }

  lemma MessageIsTaken(w: World, t: nat, isInvoke: bool, ack: bool, v: World)
    requires Waits(w, t)
    requires v == World(w.tasks[t := w.tasks[t].(state := if isInvoke then Dispatching(w.delivered) else Receiving)],
                        w.log + [Acked(w.delivered, isInvoke, ack)], w.delivered + 1)
    ensures AdvanceAll(w, [Receive(t, isInvoke), Acknowledge(t, ack)]) == v
  {
    var k, m := w.tasks[t], w.delivered;
    var w1 := World(w.tasks[t := k.(state := Holding(m, isInvoke))], w.log, m + 1);
    TwoSteps(w, Receive(t, isInvoke), w1, Acknowledge(t, ack), v);
  }

  lemma FunctionIsCalled(w: World, t: nat, m: nat, call: bool, v: World)
    requires t in w.tasks && w.tasks[t].state == Dispatching(m)
    requires v == World(w.tasks[t := w.tasks[t].(state := if call then Receiving else Reporting(m))],
      w.log + [InvokeStarted(w.tasks[t].agent, m), InvokeEnded(w.tasks[t].agent, m, call)], w.delivered)
    ensures AdvanceAll(w, [StartInvoke(t), EndInvoke(t, call)]) == v
  {
    var w1 := World(w.tasks[t := w.tasks[t].(state := Invoking(m))], w.log + [InvokeStarted(w.tasks[t].agent, m)],
                    w.delivered);
    TwoSteps(w, StartInvoke(t), w1, EndInvoke(t, call), v);
  }

  lemma InvokeIsCalled(w: World, t: nat, ack: bool, call: bool, steps: seq<Step>, v: World)
    requires Waits(w, t) && steps == [Receive(t, true), Acknowledge(t, ack)] + [StartInvoke(t), EndInvoke(t, call)]
    requires v == World(w.tasks[t := w.tasks[t].(state := if call then Receiving else Reporting(w.delivered))],
                        w.log + [Acked(w.delivered, true, ack), InvokeStarted(w.tasks[t].agent, w.delivered),
                                 InvokeEnded(w.tasks[t].agent, w.delivered, call)], w.delivered + 1)
    ensures AdvanceAll(w, steps) == v
  {
    var m := w.delivered;
    var w1 := World(w.tasks[t := w.tasks[t].(state := Dispatching(m))], w.log + [Acked(m, true, ack)], m + 1);
    MessageIsTaken(w, t, true, ack, w1);
    FunctionIsCalled(w1, t, m, call, v);
    AdvanceJoin(w, [Receive(t, true), Acknowledge(t, ack)], [StartInvoke(t), EndInvoke(t, call)], w1, v);
  }

  lemma FailureIsReported(w: World, a: seq<Step>, v: World, t: nat, m: nat, sent: bool, u: World)
    requires AdvanceAll(w, a) == v && t in v.tasks && v.tasks[t].state == Reporting(m)
    requires u == World(v.tasks[t := v.tasks[t].(state := Receiving)], v.log + [ErrorCompleted(m, sent)], v.delivered)
    ensures AdvanceAll(w, a + [SendError(t, sent)]) == u
  {
    OneStep(v, SendError(t, sent), u);
    AdvanceJoin(w, a, [SendError(t, sent)], v, u);
  }

  /**
    A waiting task carries an invoke through, whether or not its acknowledgement is heard: the
    function is called, an error complete is sent if the call failed, and the task waits again.
   */
  lemma InvokesAreCarriedThrough(w: World, t: nat, ack: bool, call: bool, sent: bool, steps: seq<Step>, v: World)
    requires Waits(w, t) && steps == InvokeSteps(t, ack, call, sent)
    requires v == World(w.tasks, w.log + InvokeEntries(w.tasks[t].agent, w.delivered, ack, call, sent), w.delivered + 1)
    ensures AdvanceAll(w, steps) == v
  {
    var k, m := w.tasks[t], w.delivered;
    var first := [Receive(t, true), Acknowledge(t, ack)] + [StartInvoke(t), EndInvoke(t, call)];
    var u := World(w.tasks[t := k.(state := if call then Receiving else Reporting(m))],
                   w.log + [Acked(m, true, ack), InvokeStarted(k.agent, m), InvokeEnded(k.agent, m, call)], m + 1);
    InvokeIsCalled(w, t, ack, call, first, u);
    assert w.tasks[t := k.(state := Receiving)] == w.tasks;
    if call {
      assert steps == first;
    } else {
      FailureIsReported(w, first, u, t, m, sent, v);
    }
  }

  /** A message that is no invoke is acknowledged and dropped. */
  lemma OthersAreDropped(w: World, t: nat, ack: bool, v: World)
    requires Waits(w, t) && v == World(w.tasks, w.log + [Acked(w.delivered, false, ack)], w.delivered + 1)
    ensures AdvanceAll(w, [Receive(t, false), Acknowledge(t, ack)]) == v
  {
    assert w.tasks[t := w.tasks[t].(state := Receiving)] == w.tasks;
    MessageIsTaken(w, t, false, ack, v);
  }

  /** A waiting task can end exactly when it was cancelled. */
  lemma CancelledTasksCanEnd(w: World, t: nat)
    requires Waits(w, t)
    ensures Advance(w, NoticeCancel(t)) ==
      if w.tasks[t].cancelled then w.(tasks := w.tasks[t := w.tasks[t].(state := Ended)]) else w
  {}
}
