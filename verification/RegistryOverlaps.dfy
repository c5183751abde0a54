/**
  What the registry keeps when calls overlap, and exactly which overlaps break it. Two calls
  clash when they register and delete, or register differently, one name, or when one
  registers an agent and the other registers or deletes a model it requires.
 */
module RegistryOverlaps {
  import opened Text
  import opened Registry
  import opened RegistryRuns

  predicate Hinders(t: Task, u: Task) {
    match t
    case AddAgent(n, a) =>
      || (u.AddAgent? && u.name == n && u.agent != a)
      || (u.RemoveAgent? && u.name == n)
      || ((u.AddModel? || u.RemoveModel?) && u.name in a.models)
    case AddModel(n, m) => (u.AddModel? && u.name == n && u.model != m) || (u.RemoveModel? && u.name == n)
    case _ => false
  }

  predicate Clash(t: Task, u: Task) { Hinders(t, u) || Hinders(u, t) }

  /** No two calls in flight clash. */
  predicate Apart(calls: map<nat, Call>) {
    forall i, j :: i in calls && j in calls && i != j ==> !Clash(calls[i].task, calls[j].task)
  }

  predicate ApartRun(s: System, es: seq<Event>) {
    es == [] || (ApartRun(s, es[..|es| - 1]) && (Run(s, es).Up? ==> Apart(Run(s, es).calls)))
  }

  // ---------------------------------------------------------------- the cache covers the disk

  /** Every name on disk is cached; an agent on disk is cached as it is on disk. */
  predicate Covers(c: Cache, d: Disk) {
    && d.models.Keys <= c.models.Keys
    && forall a :: a in d.agents ==> a in c.agents && c.agents[a] == d.agents[a]
  }

  predicate CallCovers(c: Cache, d: Disk, k: Call) {
    match k.task
    case AddAgent(n, a) =>
      k.stage in {Provisioning, Saving} && (n in c.agents || k.stage.Saving? ==> n in c.agents && c.agents[n] == a)
    case AddModel(n, _) => k.stage.Saving? && n in c.models
    case RemoveModel(n) => k.stage in {Checking, Dropping} || (k.stage.Evicting? && n !in d.models)
    case RemoveAgent(n) => k.stage in {Locating, Checking, Dropping} || (k.stage.Evicting? && n !in d.agents)
  }

  predicate CoverInv(s: System) {
    s.Up? ==>
      && Covers(s.cache, s.disk)
      && Apart(s.calls)
      && forall k :: k in s.calls ==> CallCovers(s.cache, s.disk, s.calls[k])
  }

  lemma BeginCovers(s: System, k: nat, t: Task, capable: bool)
    requires s.Up? && CoverInv(s) && k !in s.calls
    requires Apart(Apply(s, Begin(k, t, capable)).calls)
    ensures CoverInv(Apply(s, Begin(k, t, capable)))
  {
    var r := Apply(s, Begin(k, t, capable));
    forall j | j in r.calls ensures CallCovers(r.cache, r.disk, r.calls[j]) {
      if j != k { assert CallCovers(s.cache, s.disk, s.calls[j]); }
    }
  }

  lemma OthersCover(s: System, k: nat, j: nat, ok: bool)
    requires s.Up? && CoverInv(s) && k in s.calls && j in s.calls && j != k
    ensures var (c, d, next) := Continued(s.cache, s.disk, s.calls[k], ok); CallCovers(c, d, s.calls[j])
  {
    assert CallCovers(s.cache, s.disk, s.calls[k]) && CallCovers(s.cache, s.disk, s.calls[j]);
    assert !Clash(s.calls[k].task, s.calls[j].task);
  }

  lemma SectionCovers(c: Cache, d: Disk, k: Call, ok: bool)
    requires Covers(c, d) && CallCovers(c, d, k)
    ensures var (c', d', next) := Continued(c, d, k, ok);
      Covers(c', d') && (next.Some? ==> CallCovers(c', d', Call(k.task, next.value)))
  {}

  lemma ContinueCovers(s: System, k: nat, ok: bool)
    requires s.Up? && CoverInv(s) && k in s.calls
    ensures CoverInv(Apply(s, Continue(k, ok)))
  {
    var r := Apply(s, Continue(k, ok));
    assert CallCovers(s.cache, s.disk, s.calls[k]);
    SectionCovers(s.cache, s.disk, s.calls[k], ok);
    forall j | j in r.calls ensures CallCovers(r.cache, r.disk, r.calls[j]) {
      if j != k { OthersCover(s, k, j, ok); }
    }
    forall i, j | i in r.calls && j in r.calls && i != j ensures !Clash(r.calls[i].task, r.calls[j].task) {
      assert r.calls[i].task == s.calls[i].task && r.calls[j].task == s.calls[j].task;
    }
  }

  lemma StepCovers(s: System, e: Event)
    requires CoverInv(s) && (Apply(s, e).Up? ==> Apart(Apply(s, e).calls))
    ensures CoverInv(Apply(s, e))
  {
    if s.Up? {
      match e
      case Begin(k, t, capable) => if k !in s.calls { BeginCovers(s, k, t, capable); }
      case Continue(k, ok) => if k in s.calls { ContinueCovers(s, k, ok); }
      case AddFleet(_, _) =>
        var r := Apply(s, e);
        forall k | k in r.calls ensures CallCovers(r.cache, r.disk, r.calls[k]) {
          assert CallCovers(s.cache, s.disk, s.calls[k]);
        }
      case _ =>
    }
  }

  lemma {:induction false} ApartRunsCover(s: System, es: seq<Event>)
    requires CoverInv(s) && ApartRun(s, es)
    ensures CoverInv(Run(s, es))
  {
    if es != [] {
      ApartRunsCover(s, es[..|es| - 1]);
      StepCovers(Run(s, es[..|es| - 1]), es[|es| - 1]);
    }
  }

  /**
    Over every interleaving in which no two calls clash, with failing saves and deletes, and
    with crashes and restarts at any moment, the cache covers the disk.
   */
  lemma CacheCoversDisk(es: seq<Event>)
    requires ApartRun(Fresh, es)
    ensures var s := Run(Fresh, es); s.Up? ==> Covers(s.cache, s.disk)
  {
    ApartRunsCover(Fresh, es);
  }

  // ---------------------------------------------------------------- nothing is lost

  /**
    A save that fails, of something not on disk yet, which no other call is about to save. The
    caller gets the error.
   */
  predicate LosesSave(s: System, e: Event) {
    && s.Up? && e.Continue? && !e.ok && e.call in s.calls
    && s.calls[e.call].stage.Saving?
    && !OnDisk(s.disk, s.calls[e.call].task)
    && forall j :: j in s.calls && s.calls[j] == s.calls[e.call] ==> j == e.call
  }

  predicate OnDisk(d: Disk, t: Task) {
    match t
    case AddAgent(n, a) => n in d.agents && d.agents[n] == a
    case AddModel(n, m) => n in d.models && d.models[n] == m
    case _ => true
  }

  predicate SavingRun(s: System, es: seq<Event>) {
    es == [] || (SavingRun(s, es[..|es| - 1]) && !LosesSave(Run(s, es[..|es| - 1]), es[|es| - 1]))
  }

  predicate SameAt<T(==)>(x: map<string, T>, y: map<string, T>, n: string) {
    if n in x then n in y && x[n] == y[n] else n !in y
  }

  /** The calls that still owe a save or an eviction. */
  predicate OwesModel(k: Call, n: string) {
    k.task.name == n && ((k.task.AddModel? && k.stage.Saving?) || (k.task.RemoveModel? && k.stage.Evicting?))
  }

  predicate OwesAgent(k: Call, n: string) {
    k.task.name == n && ((k.task.AddAgent? && k.stage.Saving?) || (k.task.RemoveAgent? && k.stage.Evicting?))
  }

  predicate ModelSettled(s: System, n: string)
    requires s.Up?
  {
    SameAt(s.cache.models, s.disk.models, n) || exists k :: k in s.calls && OwesModel(s.calls[k], n)
  }

  predicate AgentSettled(s: System, n: string)
    requires s.Up?
  {
    SameAt(s.cache.agents, s.disk.agents, n) || exists k :: k in s.calls && OwesAgent(s.calls[k], n)
  }

  /**
    The cache covers the disk, they agree at every name at which no save or eviction is still
    to come, and every agent has its models, cached and on disk.
   */
  ghost predicate Sound(s: System) {
    && Complete(s.disk.models, s.disk.agents)
    && (s.Up? ==>
      && Covers(s.cache, s.disk)
      && Complete(s.cache.models, s.cache.agents)
      && (forall n {:trigger ModelSettled(s, n)} :: ModelSettled(s, n))
      && (forall n {:trigger AgentSettled(s, n)} :: AgentSettled(s, n)))
  }

  predicate CallServes(c: Cache, k: Call) {
    match k.task
    case AddAgent(_, a) => a.models <= c.models.Keys
    case AddModel(n, m) => n in c.models && c.models[n] == m
    case RemoveModel(n) => k.stage in {Dropping, Evicting} ==> !Required(c, n)
    case RemoveAgent(_) => true
  }

  predicate CallsServe(s: System)
    requires s.Up?
  {
    forall k :: k in s.calls ==> CallServes(s.cache, s.calls[k])
  }

  ghost predicate Inv(s: System) { CoverInv(s) && Sound(s) && (s.Up? ==> CallsServe(s)) }

  lemma OthersServe(s: System, k: nat, j: nat, ok: bool)
    requires s.Up? && Inv(s) && k in s.calls && j in s.calls && j != k
    ensures CallServes(Continued(s.cache, s.disk, s.calls[k], ok).0, s.calls[j])
  {
    assert CallServes(s.cache, s.calls[j]) && CallServes(s.cache, s.calls[k]) &&
      CallCovers(s.cache, s.disk, s.calls[k]);
    assert !Clash(s.calls[k].task, s.calls[j].task);
    var c := Continued(s.cache, s.disk, s.calls[k], ok).0;
    var n := s.calls[j].task.name;
    if s.calls[j].task.RemoveModel? && Required(c, n) && !Required(s.cache, n) {
      var a :| a in c.agents && n in c.agents[a].models;
      assert a in s.cache.agents ==> s.cache.agents[a] != c.agents[a];
    }
  }

  lemma SectionServes(c: Cache, d: Disk, k: Call, ok: bool)
    requires Covers(c, d) && Complete(c.models, c.agents) && CallCovers(c, d, k) && CallServes(c, k)
    ensures var (c', d', next) := Continued(c, d, k, ok);
      && Complete(c'.models, c'.agents)
      && (next.Some? ==> CallServes(c', Call(k.task, next.value)))
  {
    if k.task.RemoveModel? && k.stage.Evicting? {
      forall a | a in c.agents ensures k.task.name !in c.agents[a].models {
        assert k.task.name in c.agents[a].models ==> Required(c, k.task.name);
      }
    }
  }

  /** A required model is on disk before its agent is saved: no other call owes it anything. */
  lemma SavedAgentHasModels(s: System, k: nat)
    requires s.Up? && Inv(s) && k in s.calls && s.calls[k].task.AddAgent?
    ensures s.calls[k].task.agent.models <= s.disk.models.Keys
  {
    assert CallServes(s.cache, s.calls[k]);
    forall m | m in s.calls[k].task.agent.models ensures m in s.disk.models {
      assert ModelSettled(s, m);
      if j :| j in s.calls && OwesModel(s.calls[j], m) {
        assert Clash(s.calls[k].task, s.calls[j].task);
      }
    }
  }

  lemma DiskStaysComplete(s: System, k: nat, ok: bool)
    requires s.Up? && Inv(s) && k in s.calls
    ensures var d := Continued(s.cache, s.disk, s.calls[k], ok).1; Complete(d.models, d.agents)
  {
    assert CallServes(s.cache, s.calls[k]) && CallCovers(s.cache, s.disk, s.calls[k]);
    var t := s.calls[k].task;
    if t.AddAgent? { SavedAgentHasModels(s, k); }
    if t.RemoveModel? && s.calls[k].stage.Dropping? {
      var c := s.cache;
      forall a | a in s.disk.agents ensures t.name !in s.disk.agents[a].models {
        assert t.name in s.disk.agents[a].models ==> Required(c, t.name);
      }
    }
  }

  lemma ModelsSettle(s: System, k: nat, ok: bool, n: string)
    requires s.Up? && Inv(s) && k in s.calls && !LosesSave(s, Continue(k, ok))
    ensures ModelSettled(Apply(s, Continue(k, ok)), n)
  {
    var r := Apply(s, Continue(k, ok));
    assert CallServes(s.cache, s.calls[k]) && CallCovers(s.cache, s.disk, s.calls[k]) && ModelSettled(s, n);
    if j :| j in s.calls && OwesModel(s.calls[j], n) && j != k {
      assert r.calls[j] == s.calls[j];
    } else if (s.calls[k].task.AddModel? || s.calls[k].task.RemoveModel?) && s.calls[k].task.name == n {
      assert k in r.calls && r.calls[k].stage.Evicting? ==> OwesModel(r.calls[k], n);
    }
  }

  lemma AgentsSettle(s: System, k: nat, ok: bool, n: string)
    requires s.Up? && Inv(s) && k in s.calls && !LosesSave(s, Continue(k, ok))
    ensures AgentSettled(Apply(s, Continue(k, ok)), n)
  {
    var r := Apply(s, Continue(k, ok));
    assert CallServes(s.cache, s.calls[k]) && CallCovers(s.cache, s.disk, s.calls[k]) && AgentSettled(s, n);
    if j :| j in s.calls && OwesAgent(s.calls[j], n) && j != k {
      assert r.calls[j] == s.calls[j];
    } else if (s.calls[k].task.AddAgent? || s.calls[k].task.RemoveAgent?) && s.calls[k].task.name == n {
      assert k in r.calls && r.calls[k].stage in {Saving, Evicting} ==> OwesAgent(r.calls[k], n);
    }
  }

  lemma ContinueKeeps(s: System, k: nat, ok: bool)
    requires s.Up? && Inv(s) && k in s.calls && !LosesSave(s, Continue(k, ok))
    ensures Inv(Apply(s, Continue(k, ok)))
  {
    var r := Apply(s, Continue(k, ok));
    ContinueCovers(s, k, ok);
    DiskStaysComplete(s, k, ok);
    assert CallServes(s.cache, s.calls[k]) && CallCovers(s.cache, s.disk, s.calls[k]);
    SectionServes(s.cache, s.disk, s.calls[k], ok);
    forall n ensures ModelSettled(r, n) { ModelsSettle(s, k, ok, n); }
    forall n ensures AgentSettled(r, n) { AgentsSettle(s, k, ok, n); }
    forall j | j in r.calls ensures CallServes(r.cache, r.calls[j]) {
      if j != k { OthersServe(s, k, j, ok); }
    }
  }

  lemma BeginKeeps(s: System, k: nat, t: Task, capable: bool)
    requires s.Up? && Inv(s) && k !in s.calls && Apart(Apply(s, Begin(k, t, capable)).calls)
    ensures Inv(Apply(s, Begin(k, t, capable)))
  {
    var r := Apply(s, Begin(k, t, capable));
    BeginCovers(s, k, t, capable);
    forall n ensures ModelSettled(r, n) {
      assert ModelSettled(s, n);
      if j :| j in s.calls && OwesModel(s.calls[j], n) { assert r.calls[j] == s.calls[j]; }
      if t.AddModel? && t.name == n && k in r.calls { assert OwesModel(r.calls[k], n); }
    }
    forall n ensures AgentSettled(r, n) {
      assert AgentSettled(s, n);
      if j :| j in s.calls && OwesAgent(s.calls[j], n) { assert r.calls[j] == s.calls[j]; }
    }
    forall j | j in r.calls ensures CallServes(r.cache, r.calls[j]) {
      if j != k {
        assert CallServes(s.cache, s.calls[j]);
        assert k in r.calls ==> !Clash(r.calls[k].task, r.calls[j].task);
      }
    }
  }

  lemma StepKeeps(s: System, e: Event)
    requires Inv(s) && (Apply(s, e).Up? ==> Apart(Apply(s, e).calls)) && !LosesSave(s, e)
    ensures Inv(Apply(s, e))
  {
    var r := Apply(s, e);
    if s.Up? {
      match e
      case Begin(k, t, capable) => if k !in s.calls { BeginKeeps(s, k, t, capable); }
      case Continue(k, ok) => if k in s.calls { ContinueKeeps(s, k, ok); }
      case AddFleet(_, _) =>
        StepCovers(s, e);
        forall n ensures ModelSettled(r, n) && AgentSettled(r, n) { assert ModelSettled(s, n) && AgentSettled(s, n); }
        forall k | k in r.calls ensures CallServes(r.cache, r.calls[k]) { assert CallServes(s.cache, s.calls[k]); }
      case _ =>
    }
  }

  lemma {:induction false} SavedRunsKeep(s: System, es: seq<Event>)
    requires Inv(s) && ApartRun(s, es) && SavingRun(s, es)
    ensures Inv(Run(s, es))
  {
    if es != [] {
      SavedRunsKeep(s, es[..|es| - 1]);
      StepKeeps(Run(s, es[..|es| - 1]), es[|es| - 1]);
    }
  }

  lemma FreshIsSound()
    ensures Inv(Fresh)
  {}

  /**
    Over every interleaving in which no two calls clash and no save is lost, with failing
    deletes, and with crashes and restarts at any moment, the registry is sound at every moment.
   */
  lemma SavedRunsAreSound(es: seq<Event>)
    requires ApartRun(Fresh, es) && SavingRun(Fresh, es)
    ensures Sound(Run(Fresh, es))
  {
    FreshIsSound();
    SavedRunsKeep(Fresh, es);
  }

  /** With no call in flight, a sound registry has the same contents in the cache and on disk. */
  lemma QuietMeansEqual(s: System)
    requires Sound(s) && s.Up? && s.calls == map[]
    ensures s.cache.models == s.disk.models && s.cache.agents == s.disk.agents
  {
    forall n ensures SameAt(s.cache.models, s.disk.models, n) && SameAt(s.cache.agents, s.disk.agents, n) {
      assert ModelSettled(s, n) && AgentSettled(s, n);
    }
    assert forall n :: n in s.cache.models ==> SameAt(s.cache.models, s.disk.models, n);
    assert forall n :: n in s.disk.models ==> SameAt(s.cache.models, s.disk.models, n);
    assert forall n :: n in s.cache.agents ==> SameAt(s.cache.agents, s.disk.agents, n);
    assert forall n :: n in s.disk.agents ==> SameAt(s.cache.agents, s.disk.agents, n);
  }

  /** A lost save is the only single step that breaks a sound registry without a clash. */
  lemma LostSavesAreExact(s: System, e: Event)
    requires Inv(s) && (Apply(s, e).Up? ==> Apart(Apply(s, e).calls))
    ensures Sound(Apply(s, e)) <==> !LosesSave(s, e)
  {
    if !LosesSave(s, e) {
      StepKeeps(s, e);
    } else {
      var k, r := s.calls[e.call], Apply(s, e);
      var n := k.task.name;
      assert CallServes(s.cache, k) && CallCovers(s.cache, s.disk, k);
      forall j | j in r.calls
        ensures !(k.task.AddModel? && OwesModel(r.calls[j], n)) && !(k.task.AddAgent? && OwesAgent(r.calls[j], n)) {
        assert !Clash(s.calls[j].task, k.task);
      }
      assert k.task.AddModel? ==> !ModelSettled(r, n);
      assert k.task.AddAgent? ==> !AgentSettled(r, n);
    }
  }

  // ---------------------------------------------------------------- engines

  predicate Configured(models: map<string, Model>, engines: set<string>) {
    forall n :: n in models ==> models[n].engine in engines
  }

  /** Every model, cached, stored or about to be stored, runs on a configured engine. */
  predicate EnginesOk(s: System) {
    s.Up? ==>
      && Configured(s.cache.models, s.cache.engines) && Configured(s.disk.models, s.cache.engines)
      && forall k :: k in s.calls && s.calls[k].task.AddModel? ==> s.calls[k].task.model.engine in s.cache.engines
  }

  lemma StepKeepsEngines(s: System, e: Event)
    requires EnginesOk(s)
    ensures EnginesOk(Apply(s, e))
  {
    var r := Apply(s, e);
    if s.Up? && r.Up? && !e.Restart? {
      forall k | k in r.calls && r.calls[k].task.AddModel? ensures r.calls[k].task.model.engine in r.cache.engines {
        if k in s.calls { assert r.calls[k].task == s.calls[k].task; }
      }
    }
  }

  lemma {:induction false} RunKeepsEngines(es: seq<Event>)
    ensures EnginesOk(Run(Fresh, es))
  {
    if es != [] {
      RunKeepsEngines(es[..|es| - 1]);
      StepKeepsEngines(Run(Fresh, es[..|es| - 1]), es[|es| - 1]);
    }
  }

  /**
    Whatever calls overlapped and whatever was lost, a registry that is up can be restarted
    with the engines it has, and so after a crash: no stored model lacks its engine.
   */
  lemma RestartIsAlwaysPossible(es: seq<Event>, s: System)
    requires s == Run(Fresh, es) && s.Up?
    ensures Apply(s, Restart(s.cache.engines)).Up? && Apply(Apply(s, Crash), Restart(s.cache.engines)).Up?
    ensures forall n :: n in s.cache.models ==> s.cache.models[n].engine in s.cache.engines
  {
    RunKeepsEngines(es);
  }

  // ---------------------------------------------------------------- restarts

  predicate Served(s: System) { s.Up? ==> Complete(s.cache.models, s.cache.agents) }

  /**
    Whatever clashed and whatever was lost before, a restart makes cache and disk equal, and
    every agent has its models exactly if the disk, whose agents come back unvalidated, is
    complete.
   */
  lemma RestartsRepairTheCache(s: System, engines: set<string>)
    requires Loadable(s.disk, engines)
    ensures var r := Apply(s, Restart(engines));
      && r.Up? && r.calls == map[] && r.cache.models == s.disk.models && r.cache.agents == s.disk.agents
      && (Served(r) <==> Complete(s.disk.models, s.disk.agents))
      && Apply(s, Crash).Down? && Apply(Apply(s, Crash), Restart(engines)) == r
  {}
}
