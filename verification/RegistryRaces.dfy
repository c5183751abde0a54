/**
  Each kind of clash breaks the registry although every save succeeds: the interleavings, and
  the theorem that clashes are exactly the overlaps that can.
 */
module RegistryRaces {
  import opened Text
  import opened Registry
  import opened RegistryRuns
  import opened RegistryOverlaps

  /** Call `i` runs `t`, call `j` runs `u`, no other call is made, and nothing fails. */
  predicate PairStep(e: Event, i: nat, t: Task, j: nat, u: Task) {
    && (e.Begin? ==> (e.call == i && e.task == t) || (e.call == j && e.task == u))
    && (e.Continue? ==> e.ok)
  }

  predicate PairRun(es: seq<Event>, i: nat, t: Task, j: nat, u: Task) {
    forall e :: e in es ==> PairStep(e, i, t, j, u)
  }

  /** Two calls to come, in a registry where others may be in flight. */
  datatype Pair = Pair(s: System, i: nat, t: Task, j: nat, u: Task)

  predicate Two(p: Pair) { p.s.Up? && p.i !in p.s.calls && p.j !in p.s.calls && p.i != p.j }

  function Slots(p: Pair, x: Option<Stage>, y: Option<Stage>): map<nat, Call>
    requires Two(p)
  {
    With(With(p.s.calls, p.i, p.t, x), p.j, p.u, y)
  }

  /** After `es` the first call goes on with `x` and the second with `y`. */
  predicate At(p: Pair, es: seq<Event>, c: Cache, d: Disk, x: Option<Stage>, y: Option<Stage>)
    requires Two(p)
  {
    PairRun(es, p.i, p.t, p.j, p.u) && Run(p.s, es) == Up(c, d, Slots(p, x, y))
  }

  lemma Ready(p: Pair)
    requires Two(p)
    ensures At(p, [], p.s.cache, p.s.disk, None, None)
  {}

  lemma FirstBegins(p: Pair, es: seq<Event>, c: Cache, d: Disk, y: Option<Stage>) returns (fs: seq<Event>)
    requires Two(p) && At(p, es, c, d, None, y)
    ensures At(p, fs, Begun(c, p.t, true).0, d, Begun(c, p.t, true).1, y)
  {
    var e := Begin(p.i, p.t, true);
    RunOn(p.s, es, e);
    fs := es + [e];
    var next := Begun(c, p.t, true).1;
    assert After(Slots(p, None, y), p.i, p.t, next) == Slots(p, next, y);
  }

  lemma SecondBegins(p: Pair, es: seq<Event>, c: Cache, d: Disk, x: Option<Stage>) returns (fs: seq<Event>)
    requires Two(p) && At(p, es, c, d, x, None)
    ensures At(p, fs, Begun(c, p.u, true).0, d, x, Begun(c, p.u, true).1)
  {
    var e := Begin(p.j, p.u, true);
    RunOn(p.s, es, e);
    fs := es + [e];
    var next := Begun(c, p.u, true).1;
    assert After(Slots(p, x, None), p.j, p.u, next) == Slots(p, x, next);
  }

  lemma First(p: Pair, es: seq<Event>, c: Cache, d: Disk, x: Stage, y: Option<Stage>) returns (fs: seq<Event>)
    requires Two(p) && At(p, es, c, d, Some(x), y)
    ensures var (c', d', next) := Continued(c, d, Call(p.t, x), true); At(p, fs, c', d', next, y)
  {
    var e := Continue(p.i, true);
    RunOn(p.s, es, e);
    fs := es + [e];
    var next := Continued(c, d, Call(p.t, x), true).2;
    assert After(Slots(p, Some(x), y), p.i, p.t, next) == Slots(p, next, y);
  }

  lemma Second(p: Pair, es: seq<Event>, c: Cache, d: Disk, x: Option<Stage>, y: Stage) returns (fs: seq<Event>)
    requires Two(p) && At(p, es, c, d, x, Some(y))
    ensures var (c', d', next) := Continued(c, d, Call(p.u, y), true); At(p, fs, c', d', x, next)
  {
    var e := Continue(p.j, true);
    RunOn(p.s, es, e);
    fs := es + [e];
    var next := Continued(c, d, Call(p.u, y), true).2;
    assert After(Slots(p, x, Some(y)), p.j, p.u, next) == Slots(p, x, next);
  }

  // ---------------------------------------------------------------- agents and their registrations

  /** Two different agents register under one new name: the cache keeps one, the disk the other. */
  lemma DifferentRegistrations(p: Pair, n: string, a: Agent, b: Agent) returns (es: seq<Event>)
    requires Two(p) && p.t == AddAgent(n, a) && p.u == AddAgent(n, b)
    requires n !in p.s.cache.agents && Admits(p.s.cache, a) && Admits(p.s.cache, b)
    ensures var (c, d) := (p.s.cache, p.s.disk);
      At(p, es, c.(agents := c.agents[n := b]), d.(agents := d.agents[n := a]), None, None)
  {
    var c, d := p.s.cache, p.s.disk;
    var c1, c2 := c.(agents := c.agents[n := a]), c.(agents := c.agents[n := b]);
    assert c1.(agents := c1.agents[n := b]) == c2;
    var d1 := d.(agents := d.agents[n := b]);
    Ready(p);
    es := FirstBegins(p, [], c, d, None);
    es := SecondBegins(p, es, c, d, Some(Provisioning));
    es := First(p, es, c, d, Provisioning, Some(Provisioning));
    es := Second(p, es, c1, d, Some(Saving), Provisioning);
    es := Second(p, es, c2, d, Some(Saving), Saving);
    es := First(p, es, c2, d1, Saving, None);
    assert d1.(agents := d1.agents[n := a]) == d.(agents := d.agents[n := a]);
  }

  /** An agent registered again between the two halves of its deletion is on disk, not cached. */
  lemma RegisteredWhileDeleted(p: Pair, n: string, a: Agent) returns (es: seq<Event>)
    requires Two(p) && p.t == RemoveAgent(n) && p.u == AddAgent(n, a)
    requires n in p.s.cache.agents && p.s.cache.agents[n] == a && n in p.s.disk.agents && !InFleet(p.s.cache, n)
    ensures var (c, d) := (p.s.cache, p.s.disk);
      At(p, es, c.(agents := c.agents - {n}), d.(agents := d.agents[n := a]), None, None)
  {
    var c, d := p.s.cache, p.s.disk;
    var d1 := d.(agents := d.agents - {n});
    Ready(p);
    es := FirstBegins(p, [], c, d, None);
    es := First(p, es, c, d, Locating, None);
    es := First(p, es, c, d, Checking, None);
    es := First(p, es, c, d, Dropping, None);
    es := SecondBegins(p, es, c, d1, Some(Evicting));
    es := Second(p, es, c, d1, Some(Evicting), Saving);
    assert d1.agents[n := a] == d.agents[n := a];
    es := First(p, es, c, d.(agents := d.agents[n := a]), Evicting, None);
  }

  // ---------------------------------------------------------------- models

  /** So is a model. */
  lemma ModelRegisteredWhileDeleted(p: Pair, n: string, m: Model) returns (es: seq<Event>)
    requires Two(p) && p.t == RemoveModel(n) && p.u == AddModel(n, m) && m.engine in p.s.cache.engines
    requires n in p.s.cache.models && n in p.s.disk.models && !Required(p.s.cache, n)
    ensures var (c, d) := (p.s.cache, p.s.disk);
      At(p, es, c.(models := c.models - {n}), d.(models := d.models[n := m]), None, None)
  {
    var c, d := p.s.cache, p.s.disk;
    var c1, d1 := c.(models := c.models[n := m]), d.(models := d.models - {n});
    Ready(p);
    es := FirstBegins(p, [], c, d, None);
    es := First(p, es, c, d, Checking, None);
    es := First(p, es, c, d, Dropping, None);
    es := SecondBegins(p, es, c, d1, Some(Evicting));
    es := Second(p, es, c1, d1, Some(Evicting), Saving);
    assert d1.models[n := m] == d.models[n := m];
    es := First(p, es, c1, d.(models := d.models[n := m]), Evicting, None);
    assert c1.models - {n} == c.models - {n};
  }

  /** Two registrations of one model: the cache keeps the one, the disk the other. */
  lemma DifferentModels(p: Pair, n: string, m: Model, o: Model) returns (es: seq<Event>)
    requires Two(p) && p.t == AddModel(n, m) && p.u == AddModel(n, o)
    requires m.engine in p.s.cache.engines && o.engine in p.s.cache.engines
    ensures var (c, d) := (p.s.cache, p.s.disk);
      At(p, es, c.(models := c.models[n := o]), d.(models := d.models[n := m]), None, None)
  {
    var c, d := p.s.cache, p.s.disk;
    var c1, c2, d1 := c.(models := c.models[n := m]), c.(models := c.models[n := o]), d.(models := d.models[n := o]);
    assert c1.(models := c1.models[n := o]) == c2;
    Ready(p);
    es := FirstBegins(p, [], c, d, None);
    es := SecondBegins(p, es, c1, d, Some(Saving));
    es := Second(p, es, c2, d, Some(Saving), Saving);
    es := First(p, es, c2, d1, Saving, None);
    assert d1.models[n := m] == d.models[n := m];
  }

  // ---------------------------------------------------------------- an agent and its model

  /**
    A model deleted while an agent that was checked against it awaits its identity: the agent
    is cached and stored without its model.
   */
  lemma ModelDeletedWhileAwaiting(p: Pair, m: string, n: string, a: Agent) returns (es: seq<Event>)
    requires Two(p) && p.t == RemoveModel(m) && p.u == AddAgent(n, a)
    requires m in p.s.cache.models && m in p.s.disk.models && !Required(p.s.cache, m)
    requires n !in p.s.cache.agents && Admits(p.s.cache, a)
    ensures var (c, d) := (p.s.cache, p.s.disk);
      At(p, es, c.(models := c.models - {m}, agents := c.agents[n := a]), Disk(d.models - {m}, d.agents[n := a]),
          None, None)
  {
    var c, d := p.s.cache, p.s.disk;
    var c1, d1 := c.(models := c.models - {m}), d.(models := d.models - {m});
    Ready(p);
    es := SecondBegins(p, [], c, d, None);
    es := FirstBegins(p, es, c, d, Some(Provisioning));
    es := First(p, es, c, d, Checking, Some(Provisioning));
    es := First(p, es, c, d, Dropping, Some(Provisioning));
    es := First(p, es, c, d1, Evicting, Some(Provisioning));
    es := Second(p, es, c1, d1, None, Provisioning);
    es := Second(p, es, c1.(agents := c1.agents[n := a]), d1, None, Saving);
  }

  /**
    An agent saved before the model it was checked against: after a crash in between and a
    restart, the agent is there without the model.
   */
  lemma AgentSavedBeforeModel(p: Pair, n: string, m: Model, b: string, a: Agent) returns (es: seq<Event>, r: System)
    requires Two(p) && p.t == AddModel(n, m) && p.u == AddAgent(b, a)
    requires m.engine in p.s.cache.engines && Loadable(p.s.disk, p.s.cache.engines)
    requires b !in p.s.cache.agents && Admits(p.s.cache.(models := p.s.cache.models[n := m]), a)
    ensures PairRun(es, p.i, p.t, p.j, p.u) && r == Run(p.s, es)
    ensures var d := p.s.disk;
      r == Up(Cache(d.models, d.agents[b := a], p.s.cache.engines, map[]), Disk(d.models, d.agents[b := a]), map[])
  {
    var c, d := p.s.cache, p.s.disk;
    var c1 := c.(models := c.models[n := m]);
    var d1 := d.(agents := d.agents[b := a]);
    Ready(p);
    es := FirstBegins(p, [], c, d, None);
    es := SecondBegins(p, es, c1, d, Some(Saving));
    es := Second(p, es, c1, d, Some(Saving), Provisioning);
    es := Second(p, es, c1.(agents := c1.agents[b := a]), d, Some(Saving), Saving);
    RunOn(p.s, es, Crash);
    RunOn(p.s, es + [Crash], Restart(c.engines));
    es := es + [Crash] + [Restart(c.engines)];
    r := Up(Cache(d1.models, d1.agents, c.engines, map[]), d1, map[]);
  }

  // ---------------------------------------------------------------- exactly the clashes

  predicate RunsOnly(calls: map<nat, Call>, i: nat, t: Task, j: nat, u: Task) {
    forall k :: k in calls ==> (k == i && calls[k].task == t) || (k == j && calls[k].task == u)
  }

  lemma StepRunsOnly(s: System, e: Event, i: nat, t: Task, j: nat, u: Task)
    requires s.Up? ==> RunsOnly(s.calls, i, t, j, u)
    requires PairStep(e, i, t, j, u)
    ensures Apply(s, e).Up? ==> RunsOnly(Apply(s, e).calls, i, t, j, u)
    ensures !LosesSave(s, e)
  {
    var r := Apply(s, e);
    if s.Up? && r.Up? {
      forall k | k in r.calls ensures (k == i && r.calls[k].task == t) || (k == j && r.calls[k].task == u) {
        if k in s.calls { assert s.calls[k].task == t || s.calls[k].task == u; }
      }
    }
  }

  lemma {:induction false} PairRunsApart(s: System, es: seq<Event>, i: nat, t: Task, j: nat, u: Task)
    requires s.Up? && s.calls == map[] && PairRun(es, i, t, j, u) && i != j && !Clash(t, u)
    ensures ApartRun(s, es) && SavingRun(s, es) && (Run(s, es).Up? ==> RunsOnly(Run(s, es).calls, i, t, j, u))
  {
    if es != [] {
      var k := |es| - 1;
      assert forall e :: e in es[..k] ==> e in es;
      PairRunsApart(s, es[..k], i, t, j, u);
      StepRunsOnly(Run(s, es[..k]), es[k], i, t, j, u);
    }
  }

  /** A registry without fleets whose disk and cache agree. */
  function Synced(engines: set<string>, models: map<string, Model>, agents: map<string, Agent>): System {
    Up(Cache(models, agents, engines, map[]), Disk(models, agents), map[])
  }

  function Plain(names: set<string>): map<string, Model> { map n | n in names :: Model("", "") }

  /** A run from a new installation in which no calls clash and no save is lost. */
  predicate Careful(es: seq<Event>) { ApartRun(Fresh, es) && SavingRun(Fresh, es) }

  lemma CarefulOn(es: seq<Event>, e: Event, calls: map<nat, Call>)
    requires Careful(es) && (e.Continue? ==> e.ok) && Apply(Run(Fresh, es), e).Up? &&
        Apply(Run(Fresh, es), e).calls == calls
    requires calls.Keys <= {0}
    ensures Careful(es + [e]) && Run(Fresh, es + [e]) == Apply(Run(Fresh, es), e)
  {
    RunOn(Fresh, es, e);
    assert (es + [e])[..|es|] == es;
  }

  lemma ModelArrives(es: seq<Event>, s: System, n: string, m: Model) returns (fs: seq<Event>)
    requires Careful(es) && Run(Fresh, es) == s && s.Up? && s.calls == map[] && m.engine in s.cache.engines
    ensures Careful(fs) && Run(Fresh, fs) ==
      Up(s.cache.(models := s.cache.models[n := m]), s.disk.(models := s.disk.models[n := m]), map[])
  {
    CarefulOn(es, Begin(0, AddModel(n, m), true), map[0 := Call(AddModel(n, m), Saving)]);
    fs := es + [Begin(0, AddModel(n, m), true)];
    CarefulOn(fs, Continue(0, true), map[]);
    fs := fs + [Continue(0, true)];
  }

  lemma AgentArrives(es: seq<Event>, s: System, n: string, a: Agent) returns (fs: seq<Event>)
    requires Careful(es) && Run(Fresh, es) == s && s.Up? && s.calls == map[] && n !in s.cache.agents &&
        Admits(s.cache, a)
    ensures Careful(fs) && Run(Fresh, fs) ==
      Up(s.cache.(agents := s.cache.agents[n := a]), s.disk.(agents := s.disk.agents[n := a]), map[])
  {
    var t := AddAgent(n, a);
    CarefulOn(es, Begin(0, t, true), map[0 := Call(t, Provisioning)]);
    fs := es + [Begin(0, t, true)];
    CarefulOn(fs, Continue(0, true), map[0 := Call(t, Saving)]);
    fs := fs + [Continue(0, true)];
    CarefulOn(fs, Continue(0, true), map[]);
    fs := fs + [Continue(0, true)];
  }

  /** Every synced registry is reached without a clash or a lost save. */
  lemma {:induction false} SyncedIsReached(engines: set<string>, models: map<string, Model>, agents: map<string, Agent>)
    returns (es: seq<Event>)
    requires Loadable(Disk(models, agents), engines) && Complete(models, agents)
    ensures Careful(es) && Run(Fresh, es) == Synced(engines, models, agents)
    decreases |agents|, |models|
  {
    if n :| n in agents {
      es := SyncedIsReached(engines, models, agents - {n});
      es := AgentArrives(es, Synced(engines, models, agents - {n}), n, agents[n]);
      assert (agents - {n})[n := agents[n]] == agents;
    } else if n :| n in models {
      es := SyncedIsReached(engines, models - {n}, agents);
      es := ModelArrives(es, Synced(engines, models - {n}, agents), n, models[n]);
      assert (models - {n})[n := models[n]] == models;
    } else {
      CarefulOn([], Restart(engines), map[]);
      es := [] + [Restart(engines)];
      assert models == map[] && agents == map[];
    }
  }

  lemma AgentClashBreaks(i: nat, j: nat, t: Task, u: Task) returns (fs: seq<Event>, s: System, es: seq<Event>)
    requires i != j && t.AddAgent? && Hinders(t, u) && (u.AddAgent? || u.RemoveAgent?)
    ensures Careful(fs) && Run(Fresh, fs) == s && s.Up? && s.calls == map[]
    ensures PairRun(es, i, t, j, u) && !Sound(Run(s, es))
  {
    var n, a := t.name, t.agent;
    if u.AddAgent? {
      s := Synced({""}, Plain(a.models + u.agent.models), map[]);
      fs := SyncedIsReached({""}, s.cache.models, map[]);
      es := DifferentRegistrations(Pair(s, i, t, j, u), n, a, u.agent);
    } else {
      s := Synced({""}, Plain(a.models), map[n := a]);
      fs := SyncedIsReached({""}, s.cache.models, map[n := a]);
      es := RegisteredWhileDeleted(Pair(s, j, u, i, t), n, a);
      assert n in Run(s, es).disk.agents;
    }
  }

  lemma RequiredModelClashBreaks(i: nat, j: nat, t: Task, u: Task) returns (fs: seq<Event>, s: System, es: seq<Event>)
    requires i != j && t.AddAgent? && Hinders(t, u) && (u.AddModel? || u.RemoveModel?)
    ensures Careful(fs) && Run(Fresh, fs) == s && s.Up? && s.calls == map[]
    ensures PairRun(es, i, t, j, u) && !Sound(Run(s, es))
  {
    var n, a, m := t.name, t.agent, u.name;
    if u.RemoveModel? {
      s := Synced({""}, Plain(a.models), map[]);
      fs := SyncedIsReached({""}, s.cache.models, map[]);
      es := ModelDeletedWhileAwaiting(Pair(s, j, u, i, t), m, n, a);
      assert Run(s, es).disk.agents[n] == a && m in a.models && m !in Run(s, es).disk.models;
    } else {
      s := Synced({"", u.model.engine}, Plain(a.models - {m}), map[]);
      fs := SyncedIsReached({"", u.model.engine}, s.cache.models, map[]);
      var r: System;
      es, r := AgentSavedBeforeModel(Pair(s, j, u, i, t), m, u.model, n, a);
      assert r.disk.agents[n] == a && m in a.models && m !in r.disk.models;
    }
  }

  lemma ModelClashBreaks(i: nat, j: nat, t: Task, u: Task) returns (fs: seq<Event>, s: System, es: seq<Event>)
    requires i != j && t.AddModel? && Hinders(t, u)
    ensures Careful(fs) && Run(Fresh, fs) == s && s.Up? && s.calls == map[]
    ensures PairRun(es, i, t, j, u) && !Sound(Run(s, es))
  {
    var n, m := t.name, t.model;
    if u.AddModel? {
      s := Synced({m.engine, u.model.engine}, map[], map[]);
      fs := SyncedIsReached({m.engine, u.model.engine}, map[], map[]);
      es := DifferentModels(Pair(s, i, t, j, u), n, m, u.model);
      var r := Run(s, es);
      assert r.calls == map[] && r.cache.models[n] == u.model && r.disk.models[n] == m;
      assert !ModelSettled(r, n);
    } else {
      s := Synced({"", m.engine}, Plain({n}), map[]);
      fs := SyncedIsReached({"", m.engine}, Plain({n}), map[]);
      es := ModelRegisteredWhileDeleted(Pair(s, j, u, i, t), n, m);
      assert n in Run(s, es).disk.models;
    }
  }

  /**
    From some quiet registry, reached without a clash or a lost save, the two calls alone, with
    nothing failing, lead to one that is not sound.
   */
  ghost predicate Breaks(t: Task, u: Task) { exists fs, es :: Broken(fs, es, t, u) }

  ghost predicate Broken(fs: seq<Event>, es: seq<Event>, t: Task, u: Task) {
    var s := Run(Fresh, fs);
    Careful(fs) && s.Up? && s.calls == map[] && PairRun(es, 0, t, 1, u) && !Sound(Run(s, es))
  }

  /** Two overlapping calls can break the registry exactly when they clash. */
  lemma ClashesAreExact(t: Task, u: Task)
    ensures Breaks(t, u) <==> Clash(t, u)
  {
    if !Clash(t, u) {
      forall fs, es ensures !Broken(fs, es, t, u) { NoClashNoBreak(fs, es, t, u); }
    } else {
      var fs, s, es;
      if Hinders(t, u) { fs, s, es := HinderedRun(0, 1, t, u); } else { fs, s, es := HinderedRun(1, 0, u, t); }
      assert PairRun(es, 0, t, 1, u);
      assert Broken(fs, es, t, u);
    }
  }

  lemma NoClashNoBreak(fs: seq<Event>, es: seq<Event>, t: Task, u: Task)
    requires !Clash(t, u)
    ensures !Broken(fs, es, t, u)
  {
    var s := Run(Fresh, fs);
    if Careful(fs) && s.Up? && s.calls == map[] && PairRun(es, 0, t, 1, u) {
      FreshIsSound();
      SavedRunsKeep(Fresh, fs);
      PairRunsApart(s, es, 0, t, 1, u);
      SavedRunsKeep(s, es);
    }
  }

  lemma HinderedRun(i: nat, j: nat, t: Task, u: Task) returns (fs: seq<Event>, s: System, es: seq<Event>)
    requires i != j && Hinders(t, u)
    ensures Careful(fs) && Run(Fresh, fs) == s && s.Up? && s.calls == map[]
    ensures PairRun(es, i, t, j, u) && !Sound(Run(s, es))
  {
    if t.AddModel? {
      fs, s, es := ModelClashBreaks(i, j, t, u);
    } else if u.AddAgent? || u.RemoveAgent? {
      fs, s, es := AgentClashBreaks(i, j, t, u);
    } else {
      fs, s, es := RequiredModelClashBreaks(i, j, t, u);
    }
  }

  // ---------------------------------------------------------------- a lost save

  /**
    No clash is needed when a model's save is lost: an agent registers with the cached model,
    and a restart brings the agent back without it.
   */
  lemma LostModelLeavesAgentUnserved(s: System, k: nat, n: string, m: Model, b: string) returns (es: seq<Event>)
    requires s.Up? && k !in s.calls && m.engine in s.cache.engines && n !in s.disk.models && b !in s.cache.agents
    requires Loadable(s.disk, s.cache.engines)
    ensures var r := Run(s, es); r.Up? && b in r.cache.agents && n in r.cache.agents[b].models && n !in r.cache.models
  {
    var a, c, d := Agent("", {n}), s.cache, s.disk;
    var c1 := c.(models := c.models[n := m]);
    var d1 := d.(agents := d.agents[b := a]);
    es := [Begin(k, AddModel(n, m), true)] + seq(1, _ => Continue(k, false));
    UninterruptedAddModel(s, k, n, m, false);
    var ok := Outcome(true, true, true);
    var fs := [Begin(k, AddAgent(b, a), true)] + [Continue(k, true), Continue(k, true)];
    UninterruptedAdd(Up(c1, d, s.calls), k, b, a, ok, fs);
    RunJoin(s, es, fs);
    RunOn(s, es + fs, Restart(c.engines));
    es := es + fs + [Restart(c.engines)];
    assert Run(s, es) == Up(Cache(d1.models, d1.agents, c.engines, map[]), d1, map[]);
  }

  lemma {:induction false} RunJoin(s: System, es: seq<Event>, fs: seq<Event>)
    ensures Run(s, es + fs) == Run(Run(s, es), fs)
  {
    if fs == [] {
      assert es + fs == es;
    } else {
      RunJoin(s, es, fs[..|fs| - 1]);
      RunOn(s, es + fs[..|fs| - 1], fs[|fs| - 1]);
      assert es + fs == es + fs[..|fs| - 1] + [fs[|fs| - 1]];
    }
  }
}
