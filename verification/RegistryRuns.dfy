/**
  The registry under concurrent callers. Each call is a chain of lock sections and awaits, and
  an event is one of them, so a run is any interleaving of any number of calls, with failing
  disk operations, crashes in the middle of calls, and restarts.
 */
module RegistryRuns {
  import opened Text
  import opened Registry

  // ---------------------------------------------------------------- calls

  datatype Task =
    | AddAgent(name: string, agent: Agent)
    | AddModel(name: string, model: Model)
    | RemoveModel(name: string)
    | RemoveAgent(name: string)

  /** What a call does next. */
  datatype Stage = Provisioning | Saving | Locating | Checking | Dropping | Evicting

  datatype Call = Call(task: Task, stage: Stage)

  /** The first lock section of a call: what it makes of the cache, and how the call goes on. */
  function Begun(c: Cache, t: Task, capable: bool): (Cache, Option<Stage>) {
    match t
    case AddAgent(n, a) =>
      if n in c.agents then (c, if c.agents[n] == a then Some(Saving) else None)
      else (c, if capable && Admits(c, a) then Some(Provisioning) else None)
    case AddModel(n, m) =>
      if m.engine in c.engines then (c.(models := c.models[n := m]), Some(Saving)) else (c, None)
    case RemoveModel(n) => (c, if n in c.models then Some(Checking) else None)
    case RemoveAgent(n) => (c, if n in c.agents then Some(Locating) else None)
  }

  /**
    A later section. `ok` is the outcome of the identity service or of the disk. A new agent
    is inserted without being checked again; an agent that is gone when a deletion looks up
    its id ends that call, by a panic that leaves cache and disk alone.
   */
  function Continued(c: Cache, d: Disk, k: Call, ok: bool): (Cache, Disk, Option<Stage>) {
    match k.task
    case AddAgent(n, a) =>
      if k.stage.Provisioning? then if ok then (c.(agents := c.agents[n := a]), d, Some(Saving)) else (c, d, None)
      else (c, if ok then d.(agents := d.agents[n := a]) else d, None)
    case AddModel(n, m) => (c, if ok then d.(models := d.models[n := m]) else d, None)
    case RemoveModel(n) => (
      match k.stage
      case Checking => (c, d, if Required(c, n) then None else Some(Dropping))
      case Dropping => if ok && n in d.models then (c, d.(models := d.models - {n}), Some(Evicting)) else (c, d, None)
      case _ => (c.(models := c.models - {n}), d, None))
    case RemoveAgent(n) =>
      match k.stage
      case Locating => (c, d, if n in c.agents then Some(Checking) else None)
      case Checking => (c, d, if InFleet(c, n) then None else Some(Dropping))
      case Dropping => if ok && n in d.agents then (c, d.(agents := d.agents - {n}), Some(Evicting)) else (c, d, None)
      case _ => (c.(agents := c.agents - {n}), d, None)
  }

  // ---------------------------------------------------------------- runs

  /** `Down` between a crash, or a restart that failed, and the next restart. */
  datatype System = Up(cache: Cache, disk: Disk, calls: map<nat, Call>) | Down(disk: Disk)

  datatype Event =
    | Begin(call: nat, task: Task, capable: bool)
    | Continue(call: nat, ok: bool)
    | AddFleet(name: string, agents: set<string>)
    | Crash
    | Restart(engines: set<string>)

  function After(calls: map<nat, Call>, call: nat, task: Task, next: Option<Stage>): map<nat, Call> {
    if next.Some? then calls[call := Call(task, next.value)] else calls - {call}
  }

  /** An event that cannot happen, such as going on with a call that has ended, changes nothing. */
  function Apply(s: System, e: Event): System {
    match e
    case Restart(engines) =>
      var c := Load(s.disk, engines);
      if c.Some? then Up(c.value, s.disk, map[]) else Down(s.disk)
    case Crash => Down(s.disk)
    case Begin(k, t, capable) =>
      if s.Down? || k in s.calls then s
      else var (c, next) := Begun(s.cache, t, capable); Up(c, s.disk, After(s.calls, k, t, next))
    case Continue(k, ok) =>
      if s.Down? || k !in s.calls then s
      else
        var (c, d, next) := Continued(s.cache, s.disk, s.calls[k], ok);
        Up(c, d, After(s.calls, k, s.calls[k].task, next))
    case AddFleet(n, agents) =>
      if s.Up? && agents <= s.cache.agents.Keys && n !in s.cache.fleets
      then s.(cache := s.cache.(fleets := s.cache.fleets[n := agents])) else s
  }

  function Run(s: System, es: seq<Event>): System {
    if es == [] then s else Apply(Run(s, es[..|es| - 1]), es[|es| - 1])
  }

  const Fresh := Down(Disk(map[], map[]))

  lemma RunOn(s: System, es: seq<Event>, e: Event)
    ensures Run(s, es + [e]) == Apply(Run(s, es), e)
  {
    assert (es + [e])[..|es|] == es;
  }

  // ---------------------------------------------------------------- calls that nothing interrupts

  function AfterCall(s: System, r: (Cache, Disk, Answer)): System
    requires s.Up?
  {
    Up(r.0, r.1, s.calls)
  }

  /** Sections of one call with no other event between them do what the uninterrupted call does. */
  lemma UninterruptedAdd(s: System, k: nat, n: string, a: Agent, ok: Outcome, es: seq<Event>)
    requires s.Up? && k !in s.calls
    requires es == [Begin(k, AddAgent(n, a), ok.capable)] +
      (if n in s.cache.agents then [Continue(k, ok.disk)] else [Continue(k, ok.identity), Continue(k, ok.disk)])
    ensures Run(s, es) == AfterCall(s, RegisterAgent(s.cache, s.disk, n, a, ok))
  {
    var b := Begin(k, AddAgent(n, a), ok.capable);
    RunOn(s, [], b);
    var s1 := Apply(s, b);
    assert [] + [b] == [b];
    if n in s.cache.agents {
      RunOn(s, [b], Continue(k, ok.disk));
      assert s.cache.agents[n] == a ==> s.cache.agents[n := a] == s.cache.agents;
    } else {
      RunOn(s, [b], Continue(k, ok.identity));
      RunOn(s, [b] + [Continue(k, ok.identity)], Continue(k, ok.disk));
      assert es == [b] + [Continue(k, ok.identity)] + [Continue(k, ok.disk)];
    }
    assert Run(s, es).calls == s.calls;
  }

  function Repeat(s: System, e: Event, n: nat): System { if n == 0 then s else Apply(Repeat(s, e, n - 1), e) }

  lemma {:induction false} RunRepeats(s: System, b: Event, e: Event, n: nat)
    ensures Run(s, [b] + seq(n, _ => e)) == Repeat(Apply(s, b), e, n)
  {
    if n == 0 {
      RunOn(s, [], b);
      assert [] + [b] == [b] + seq(0, _ => e) == [b];
    } else {
      RunRepeats(s, b, e, n - 1);
      RunOn(s, [b] + seq(n - 1, _ => e), e);
      assert [b] + seq(n - 1, _ => e) + [e] == [b] + seq(n, _ => e);
    }
  }

  function With(calls: map<nat, Call>, k: nat, t: Task, next: Option<Stage>): map<nat, Call> {
    if next.Some? then calls[k := Call(t, next.value)] else calls
  }

  /** The next `n` sections of a call, all with the outcome `ok`. */
  function Sections(c: Cache, d: Disk, t: Task, stage: Option<Stage>, ok: bool, n: nat): (Cache, Disk, Option<Stage>)
    decreases n
  {
    if n == 0 || stage.None? then (c, d, stage)
    else var (c', d', next) := Continued(c, d, Call(t, stage.value), ok); Sections(c', d', t, next, ok, n - 1)
  }

  lemma OneSection(c: Cache, d: Disk, calls: map<nat, Call>, k: nat, t: Task, stage: Stage, ok: bool)
    requires k !in calls
    ensures Apply(Up(c, d, With(calls, k, t, Some(stage))), Continue(k, ok)) ==
      var (c', d', next) := Continued(c, d, Call(t, stage), ok); Up(c', d', With(calls, k, t, next))
  {
    var next := Continued(c, d, Call(t, stage), ok).2;
    assert After(With(calls, k, t, Some(stage)), k, t, next) == With(calls, k, t, next);
  }

  lemma {:induction false} RepeatSections(
      c: Cache, d: Disk, calls: map<nat, Call>, k: nat, t: Task, stage: Option<Stage>, ok: bool, n: nat)
    requires k !in calls
    ensures Repeat(Up(c, d, With(calls, k, t, stage)), Continue(k, ok), n) ==
      var (c', d', next) := Sections(c, d, t, stage, ok, n); Up(c', d', With(calls, k, t, next))
    decreases n
  {
    if n > 0 {
      RepeatFront(Up(c, d, With(calls, k, t, stage)), Continue(k, ok), n - 1);
      if stage.Some? {
        var (c', d', next) := Continued(c, d, Call(t, stage.value), ok);
        OneSection(c, d, calls, k, t, stage.value, ok);
        RepeatSections(c', d', calls, k, t, next, ok, n - 1);
      } else {
        RepeatSections(c, d, calls, k, t, None, ok, n - 1);
      }
    }
  }

  lemma {:induction false} RepeatFront(s: System, e: Event, n: nat)
    ensures Repeat(s, e, n + 1) == Repeat(Apply(s, e), e, n)
  {
    if n > 0 { RepeatFront(s, e, n - 1); }
  }

  lemma BeginAndRepeat(s: System, k: nat, t: Task, ok: bool, n: nat)
    requires s.Up? && k !in s.calls
    ensures var (c, next) := Begun(s.cache, t, true);
      var (c', d', last) := Sections(c, s.disk, t, next, ok, n);
      Run(s, [Begin(k, t, true)] + seq(n, _ => Continue(k, ok))) == Up(c', d', With(s.calls, k, t, last))
  {
    var (c, next) := Begun(s.cache, t, true);
    RunRepeats(s, Begin(k, t, true), Continue(k, ok), n);
    RepeatSections(c, s.disk, s.calls, k, t, next, ok, n);
    assert s.calls - {k} == s.calls;
  }

  /** `Continue` as often as the longest deletion needs. */
  lemma UninterruptedRemoveModel(s: System, k: nat, n: string, ok: bool)
    requires s.Up? && k !in s.calls
    ensures Run(s, [Begin(k, RemoveModel(n), true)] + seq(3, _ => Continue(k, ok))) ==
      AfterCall(s, DeleteModel(s.cache, s.disk, n, ok))
  {
    BeginAndRepeat(s, k, RemoveModel(n), ok, 3);
  }

  lemma UninterruptedRemoveAgent(s: System, k: nat, n: string, ok: bool)
    requires s.Up? && k !in s.calls
    ensures Run(s, [Begin(k, RemoveAgent(n), true)] + seq(4, _ => Continue(k, ok))) ==
      AfterCall(s, DeleteAgent(s.cache, s.disk, n, ok))
  {
    RemoveAgentSections(s.cache, s.disk, n, ok);
    BeginAndRepeat(s, k, RemoveAgent(n), ok, 4);
  }

  lemma RemoveAgentSections(c: Cache, d: Disk, n: string, ok: bool)
    ensures var (c', d', last) := Sections(c, d, RemoveAgent(n), Begun(c, RemoveAgent(n), true).1, ok, 4);
      last == None && (c', d') == (DeleteAgent(c, d, n, ok).0, DeleteAgent(c, d, n, ok).1)
  {
    if n in c.agents && !InFleet(c, n) {
      assert Continued(c, d, Call(RemoveAgent(n), Locating), ok) == (c, d, Some(Checking));
      assert Continued(c, d, Call(RemoveAgent(n), Checking), ok) == (c, d, Some(Dropping));
    }
  }

  lemma UninterruptedAddModel(s: System, k: nat, n: string, m: Model, ok: bool)
    requires s.Up? && k !in s.calls
    ensures Run(s, [Begin(k, AddModel(n, m), true)] + seq(1, _ => Continue(k, ok))) ==
      AfterCall(s, RegisterModel(s.cache, s.disk, n, m, ok))
  {
    BeginAndRepeat(s, k, AddModel(n, m), ok, 1);
  }

  // ---------------------------------------------------------------- fleets

  /**
    A fleet is registered exactly if its agents are cached and its name is new, and then its
    agents cannot be deleted.
   */
  lemma FleetsProtectTheirAgents(s: System, f: string, agents: set<string>, k: nat, n: string, ok: bool, t: System)
    requires s.Up? && k !in s.calls && t == Apply(s, AddFleet(f, agents))
    ensures f in t.cache.fleets && f !in s.cache.fleets <==> f !in s.cache.fleets && agents <= s.cache.agents.Keys
    ensures t == s || t == s.(cache := s.cache.(fleets := s.cache.fleets[f := agents]))
    ensures t != s && n in agents ==> Run(t, [Begin(k, RemoveAgent(n), true)] + seq(4, _ => Continue(k, ok))) == t
  {
    if t != s && n in agents {
      assert f in t.cache.fleets && n in t.cache.fleets[f];
      UninterruptedRemoveAgent(t, k, n, ok);
    }
  }
}
