/**
  The Lambda reconciler: registry against function map, with one dispatcher task per function.
  At every await the tasks may run any number of steps. An await of a task's handle returns
  only once the task has ended; a method that is left waiting reports `finished == false`.
 */
module LambdaRuntime {
  import opened Text
  import opened Readiness
  import opened LambdaTasks

  datatype DeployedFunction = DeployedFunction(roleArn: string, functionArn: string)

  const LAMBDA := "lambda"

  /** How the three calls of a deployment go. */
  datatype Calls = Calls(role: bool, create: bool, activation: bool)

  predicate Works(c: Calls) { c.role && c.create && c.activation }

  /** What one tick does with one agent of the registry; `works` says how deploying it would go. */
  predicate Outcome(
      status: Option<AgentState>, works: bool, before: bool, after: bool, a: string, reports: seq<Check>) {
    match status
    case Some(DeletingState) => !after && Check(a, LAMBDA, Deleted) in reports
    case Some(Deploying) =>
      if before then after && (forall c :: c in reports ==> c.agent != a)
      else if works then after && Check(a, LAMBDA, Ready) in reports && Check(a, LAMBDA, Failed) !in reports
      else !after && Check(a, LAMBDA, Failed) in reports && Check(a, LAMBDA, Ready) !in reports
    case _ => after == before && forall c :: c in reports ==> c.agent != a
  }

  /** Every agent of the registry got its outcome, a deleted one leaving nothing behind. */
  predicate AllReconciled(
      statuses: map<string, Option<AgentState>>, calls: map<string, Calls>,
      before: set<string>, after: set<string>, reports: seq<Check>)
    requires statuses.Keys <= calls.Keys
  {
    forall a :: a in statuses ==> Outcome(statuses[a], Works(calls[a]), a in before, a in after, a, reports)
  }

  lemma OutcomeAfter(
      status: Option<AgentState>, works: bool, before: bool, after: bool, a: string, others: seq<Check>,
      mine: seq<Check>)
    requires Outcome(status, works, before, after, a, mine) && forall c :: c in others ==> c.agent != a
    ensures Outcome(status, works, before, after, a, others + mine)
  {}

  lemma OutcomeBefore(
      status: Option<AgentState>, works: bool, before: bool, after: bool, a: string, mine: seq<Check>,
      others: seq<Check>)
    requires Outcome(status, works, before, after, a, mine) && forall c :: c in others ==> c.agent != a
    ensures Outcome(status, works, before, after, a, mine + others)
  {}

  /** A tick under way: the agents of `todo` are as they were, the others have their outcome. */
  predicate Progress(
      statuses: map<string, Option<AgentState>>, calls: map<string, Calls>, todo: set<string>,
      before: set<string>, now: set<string>, reports: seq<Check>)
    requires statuses.Keys <= calls.Keys
  {
    && todo <= statuses.Keys && now <= statuses.Keys
    && (forall a :: a in todo ==> (a in now <==> a in before))
    && (forall c :: c in reports ==> c.agent !in todo)
    && (forall a :: a in statuses && a !in todo ==>
         Outcome(statuses[a], Works(calls[a]), a in before, a in now, a, reports))
  }

  lemma ProgressStep(
      statuses: map<string, Option<AgentState>>, calls: map<string, Calls>, todo: set<string>, name: string,
      before: set<string>, now: set<string>, next: set<string>, reports: seq<Check>, mine: seq<Check>)
    requires statuses.Keys <= calls.Keys
    requires Progress(statuses, calls, todo, before, now, reports) && name in todo && next - {name} == now - {name}
    requires Outcome(statuses[name], Works(calls[name]), name in now, name in next, name, mine)
    requires forall c :: c in mine ==> c.agent == name
    ensures Progress(statuses, calls, todo - {name}, before, next, reports + mine)
  {
    assert forall a :: a != name ==> (a in next <==> a in next - {name}) && (a in now <==> a in now - {name});
    forall a | a in statuses && a !in todo - {name}
      ensures Outcome(statuses[a], Works(calls[a]), a in before, a in next, a, reports + mine)
    {
      if a == name {
        OutcomeAfter(statuses[a], Works(calls[a]), a in now, a in next, a, reports, mine);
      } else {
        OutcomeBefore(statuses[a], Works(calls[a]), a in before, a in next, a, reports, mine);
      }
    }
  }

  /** The log from `from` on: tasks up to `k`, functions after. */
  predicate TasksFirst(log: seq<LogEntry>, from: nat, k: nat)
    requires k <= |log|
  {
    OnlyTasks(log[..k], from) && OnlyFunctions(log, k)
  }

  /** Each of these functions was deleted, from position `from` of the log on. */
  predicate AllDeletedSince(names: set<string>, log: seq<LogEntry>, from: nat) {
    forall a {:trigger DeletedSince(log, from, a)} :: a in names ==> DeletedSince(log, from, a)
  }

  predicate DeletedSince(log: seq<LogEntry>, from: nat, a: string) {
    exists i :: from <= i < |log| && log[i] == DeleteStarted(a)
  }

  lemma DeletedStays(log: seq<LogEntry>, more: seq<LogEntry>, from: nat, a: string)
    requires DeletedSince(log, from, a) && log <= more
    ensures DeletedSince(more, from, a)
  {
    var i :| from <= i < |log| && log[i] == DeleteStarted(a);
    assert more[i] == DeleteStarted(a);
  }

  lemma LaterIsSince(names: set<string>, log: seq<LogEntry>, k: nat, from: nat)
    requires AllDeletedSince(names, log, k) && from <= k
    ensures AllDeletedSince(names, log, from)
  {
    forall a | a in names ensures DeletedSince(log, from, a) {
      assert DeletedSince(log, k, a);
    }
  }

  lemma OneMoreDeleted(names: set<string>, log: seq<LogEntry>, from: nat, name: string, more: seq<LogEntry>)
    requires AllDeletedSince(names, log, from) && DeletedSince(more, |log|, name) && log <= more && from <= |log|
    ensures AllDeletedSince(names + {name}, more, from)
  {
    forall a | a in names + {name} ensures DeletedSince(more, from, a) {
      if a == name {
        var i :| |log| <= i < |more| && more[i] == DeleteStarted(a);
      } else {
        DeletedStays(log, more, from, a);
      }
    }
  }

  /** Some cancelled dispatcher has not ended: the one the runtime is left waiting for. */
  predicate StillEnding(w: World) { exists t :: t in w.tasks && w.tasks[t].cancelled && Alive(w.tasks[t]) }

  class LambdaRuntime {
    var functions: map<string, DeployedFunction>
    var invokeTasks: map<string, nat>
    var world: World
    var nextTask: nat
    /** Readiness checks handed to the repository. */
    var checks: seq<Check>

    /** The live tasks are those in the map, and `extra` that were taken out to be awaited. */
    ghost predicate Owns(extra: set<nat>)
      reads this
    {
      && WorldInv(world)
      && (forall t :: t in world.tasks ==> t < nextTask)
      && (forall a :: a in invokeTasks ==> OwnTask(a))
      && (forall t :: t in world.tasks && Alive(world.tasks[t]) ==>
            t in extra || (world.tasks[t].agent in invokeTasks && invokeTasks[world.tasks[t].agent] == t))
    }

    predicate OwnTask(a: string)
      requires a in invokeTasks
      reads this
    {
      var t := invokeTasks[a];
      t in world.tasks && world.tasks[t].agent == a && !world.tasks[t].cancelled && Alive(world.tasks[t])
    }

    /** What holds between calls: as many dispatchers as functions, one each. */
    ghost predicate Valid()
      reads this
    {
      Owns({}) && functions.Keys == invokeTasks.Keys
    }

    constructor ()
      ensures Valid() && functions == map[] && checks == []
    {
      functions, invokeTasks, nextTask, checks := map[], map[], 0, [];
      world := World(map[], [], 0);
      new;
      assert forall a :: AgentPhaseOf([], a) == Free(0);
      assert forall m: nat :: MessagePhaseOf([], m) == Fresh;
    }

    /** An await: the tasks run, the runtime does not. */
    method Await(ghost extra: set<nat>)
      requires Owns(extra)
      modifies this`world
      ensures Owns(extra) && Evolves(old(world), world)
    {
      var steps: seq<Step> := *;
      StepsKeep(world, steps);
      StepsEvolve(world, steps);
      world := AdvanceAll(world, steps);
      forall a | a in invokeTasks ensures OwnTask(a) { assert old(OwnTask(a)); }
    }

    /** `token.cancel()` and `handle.await` for a task taken out of the map. */
    method CancelAndAwait(t: nat, ghost extra: set<nat>) returns (finished: bool)
      requires t in extra && t in world.tasks && Owns(extra)
      requires forall a :: a in invokeTasks ==> invokeTasks[a] != t
      modifies this`world
      ensures Owns(if finished then extra - {t} else extra)
      ensures old(world.log) <= world.log && old(world.tasks.Keys) <= world.tasks.Keys
      ensures finished <==> world.tasks[t].state.Ended?
      ensures !finished ==> StillEnding(world)
      ensures OnlyTasks(world.log, |old(world.log)|)
    {
      CancelKeeps(world, t);
      world := Cancelled(world, t);
      assert forall a :: a in invokeTasks ==> old(OwnTask(a));
      assert forall u :: u in world.tasks && Alive(world.tasks[u]) ==> Alive(old(world.tasks)[u]);
      Await(extra);
      finished := world.tasks[t].state.Ended?;
    }

    /** An entry about a function none of whose tasks is alive. */
    method Log(e: LogEntry, ghost a: string, ghost extra: set<nat>)
      requires Owns(extra) && AboutFunction(e, a) && a !in invokeTasks
      requires forall t :: t in extra && t in world.tasks ==> world.tasks[t].agent != a || !Alive(world.tasks[t])
      modifies this`world
      ensures Owns(extra) && world == Logged(old(world), e)
      ensures AgentPhaseOf(world.log, a) ==
        (if e.DeleteStarted? then Dead else if e.Activated? then Free(0) else AgentPhaseOf(old(world.log), a))
    {
      assert !HasLive(world, a);
      FunctionEntryKeeps(world, e, a);
      world := Logged(world, e);
      assert forall b :: b in invokeTasks ==> old(OwnTask(b));
    }

    /** A remote call about a function, with no task of the agent alive. */
    method CallRemote(e: LogEntry, name: string)
      requires Owns({}) && name !in invokeTasks && AboutFunction(e, name)
      modifies this`world
      ensures Owns({}) && old(world.log) + [e] <= world.log
      ensures old(AllEnded(world)) ==> AllEnded(world) && world.log == old(world.log) + [e]
    {
      Log(e, name, {});
      Await({});
    }

    /** `delete_function` and `delete_role`. */
    method DeleteFunction(name: string)
      requires Owns({}) && name !in invokeTasks
      modifies this`world
      ensures Owns({}) && old(world.log) + [DeleteStarted(name)] <= world.log
      ensures old(AllEnded(world)) ==> AllEnded(world) && OnlyFunctions(world.log, |old(world.log)|)
    {
      CallRemote(DeleteStarted(name), name);
      CallRemote(DeleteEnded(name), name);
    }

    /** Tear one function down: its task first, then the function and the role. */
    method Undeploy(name: string) returns (finished: bool)
      requires Owns({})
      modifies this`world, this`functions, this`invokeTasks
      ensures old(world.log) <= world.log && invokeTasks == old(invokeTasks) - {name}
      ensures !finished ==> StillEnding(world)
      ensures finished ==> Owns({}) && functions == old(functions) - {name}
      ensures finished ==> DeletedSince(world.log, |old(world.log)|, name)
      ensures !finished ==> functions == old(functions) && exists extra :: Owns(extra)
      ensures finished && old(AllEnded(world) && invokeTasks == map[]) ==>
        AllEnded(world) && OnlyFunctions(world.log, |old(world.log)|)
    {
      if name in invokeTasks {
        var t := invokeTasks[name];
        assert OwnTask(name);
        invokeTasks := invokeTasks - {name};
        assert forall a :: a in invokeTasks ==> old(OwnTask(a));
        finished := CancelAndAwait(t, {t});
        if !finished { return false; }
        assert {t} - {t} == {};
      }
      ghost var i := |world.log|;
      DeleteFunction(name);
      assert world.log[i] == DeleteStarted(name);
      functions := functions - {name};
      return true;
    }

    /** Role, function, activation: three calls, each of which may fail and end the deployment. */
    method CreateFunction(name: string, calls: Calls) returns (ok: bool)
      requires Owns({}) && name !in invokeTasks
      modifies this`world
      ensures Owns({}) && old(world.log) <= world.log
      ensures ok <==> calls.role && calls.create && calls.activation
      ensures ok ==> AgentPhaseOf(world.log, name) == Free(0)
    {
      Await({});
      if !calls.role { return false; }
      Await({});
      if !calls.create { return false; }
      Await({});
      if calls.activation { Log(Activated(name), name, {}); }
      ok := calls.activation;
    }

    method Deploy(name: string, calls: Calls) returns (ok: bool)
      requires Owns({}) && name !in invokeTasks && name !in functions
      modifies this`world, this`functions
      ensures Owns({}) && old(world.log) <= world.log
      ensures ok <==> calls.role && calls.create && calls.activation
      ensures ok ==> AgentPhaseOf(world.log, name) == Free(0)
      ensures functions.Keys == old(functions.Keys) + (if ok then {name} else {})
      ensures functions - {name} == old(functions)
    {
      ok := CreateFunction(name, calls);
      if ok {
        var roleArn: string, functionArn: string := *, *;
        functions := functions[name := DeployedFunction(roleArn, functionArn)];
      }
    }

    method SpawnInvokeTask(name: string)
      requires Owns({}) && name !in invokeTasks && AgentPhaseOf(world.log, name) == Free(0)
      modifies this`world, this`invokeTasks, this`nextTask
      ensures Owns({}) && invokeTasks == old(invokeTasks)[name := old(nextTask)] && world.log == old(world.log)
    {
      SpawnKeeps(world, nextTask, name);
      world := Spawned(world, nextTask, name);
      invokeTasks := invokeTasks[name := nextTask];
      nextTask := nextTask + 1;
      forall a | a in invokeTasks ensures OwnTask(a) { assert a != name ==> old(OwnTask(a)); }
    }

    method EnsureDeployed(name: string, calls: Calls)
      requires Valid()
      modifies this
      ensures Valid() && old(world.log) <= world.log
      ensures functions - {name} == old(functions) - {name} && (name in old(functions) ==> functions == old(functions))
      ensures name in functions <==> name in old(functions) || (calls.role && calls.create && calls.activation)
      ensures checks == old(checks) +
        (if name in old(functions) then [] else [Check(name, LAMBDA, if name in functions then Ready else Failed)])
    {
      if name in functions { return; }
      var ok := Deploy(name, calls);
      if ok {
        checks := checks + [Check(name, LAMBDA, Ready)];
        SpawnInvokeTask(name);
      } else {
        checks := checks + [Check(name, LAMBDA, Failed)];
      }
    }

    method EnsureDeleted(name: string) returns (finished: bool)
      requires Valid()
      modifies this
      ensures old(world.log) <= world.log && (exists extra :: Owns(extra)) && old(checks) <= checks
      ensures !finished ==> StillEnding(world)
      ensures finished ==> Valid() && functions == old(functions) - {name}
      ensures finished ==> checks == old(checks) + [Check(name, LAMBDA, Deleted)]
      ensures finished && name in old(functions) ==> DeletedSince(world.log, |old(world.log)|, name)
    {
      if name in functions {
        finished := Undeploy(name);
        if !finished { return; }
      }
      checks := checks + [Check(name, LAMBDA, Deleted)];
      finished := true;
      assert Owns({});
    }

    method StopOrphans(desired: set<string>) returns (finished: bool)
      requires Valid()
      modifies this
      ensures old(world.log) <= world.log && checks == old(checks) && (exists extra :: Owns(extra))
      ensures !finished ==> StillEnding(world)
      ensures finished ==> Valid() && functions == old(functions) - (old(functions.Keys) - desired)
      ensures finished ==> AllDeletedSince(old(functions.Keys) - desired, world.log, |old(world.log)|)
    {
      var orphans := functions.Keys - desired;
      ghost var all := orphans;
      while orphans != {}
        invariant Valid() && old(world.log) <= world.log && checks == old(checks)
        invariant orphans <= all && functions == old(functions) - (all - orphans)
        invariant AllDeletedSince(all - orphans, world.log, |old(world.log)|)
        decreases orphans
      {
        var name :| name in orphans;
        ghost var log := world.log;
        finished := Undeploy(name);
        if !finished { return; }
        OneMoreDeleted(all - orphans, log, |old(world.log)|, name, world.log);
        assert all - orphans + {name} == all - (orphans - {name});
        orphans := orphans - {name};
      }
      finished := true;
      assert Owns({});
    }

    /** One agent of the registry, whose derived status is `status`. */
    method Reconcile(name: string, status: Option<AgentState>, calls: Calls) returns (finished: bool)
      requires Valid()
      modifies this
      ensures old(world.log) <= world.log && (exists extra :: Owns(extra)) && old(checks) <= checks
      ensures !finished ==> StillEnding(world)
      ensures finished ==> Valid() && functions - {name} == old(functions) - {name}
      ensures finished ==>
        Outcome(status, Works(calls), name in old(functions), name in functions, name, checks[|old(checks)|..])
      ensures finished ==> forall c :: c in checks[|old(checks)|..] ==> c.agent == name
    {
      finished := true;
      match status {
        case Some(Deploying) => EnsureDeployed(name, calls);
        case Some(DeletingState) => finished := EnsureDeleted(name);
        case _ =>
      }
      if finished { assert Owns({}); }
    }

    method ReconcileAll(statuses: map<string, Option<AgentState>>, calls: map<string, Calls>) returns (finished: bool)
      requires Valid() && functions.Keys <= statuses.Keys <= calls.Keys
      modifies this
      ensures old(world.log) <= world.log && (exists extra :: Owns(extra)) && old(checks) <= checks
      ensures !finished ==> StillEnding(world)
      ensures finished ==>
          Valid() && Progress(statuses, calls, {}, old(functions.Keys), functions.Keys, checks[|old(checks)|..])
    {
      var todo := statuses.Keys;
      while todo != {}
        invariant Valid() && old(world.log) <= world.log && old(checks) <= checks
        invariant Progress(statuses, calls, todo, old(functions.Keys), functions.Keys, checks[|old(checks)|..])
        decreases todo
      {
        var name :| name in todo;
        ghost var sofar, had := checks, functions;
        finished := Reconcile(name, statuses[name], calls[name]);
        if !finished { return; }
        assert functions.Keys - {name} == (functions - {name}).Keys == had.Keys - {name};
        ProgressStep(statuses, calls, todo, name, old(functions.Keys), had.Keys, functions.Keys,
                     sofar[|old(checks)|..], checks[|sofar|..]);
        assert checks[|old(checks)|..] == sofar[|old(checks)|..] + checks[|sofar|..];
        todo := todo - {name};
      }
      finished := true;
      assert Owns({});
    }

    /** Orphans go first, then every agent of the registry has its turn. */
    method ReconcileWithRegistry(statuses: map<string, Option<AgentState>>, calls: map<string, Calls>)
      returns (finished: bool)
      requires Valid() && statuses.Keys <= calls.Keys
      modifies this
      ensures old(world.log) <= world.log && (exists extra :: Owns(extra)) && old(checks) <= checks
      ensures !finished ==> StillEnding(world)
      ensures finished ==> Valid() && functions.Keys <= statuses.Keys
      ensures finished ==> AllReconciled(statuses, calls, old(functions.Keys), functions.Keys, checks[|old(checks)|..])
    {
      finished := StopOrphans(statuses.Keys);
      if !finished { return; }
      finished := ReconcileAll(statuses, calls);
    }

    /**
      One reconciliation. `statuses` is what the repository derives for each agent of the
      registry when the loop comes to it, `calls` how deploying it would go.
     */
    method Tick(statuses: map<string, Option<AgentState>>, calls: map<string, Calls>)
      returns (finished: bool, changed: bool)
      requires Valid() && statuses.Keys <= calls.Keys
      modifies this
      ensures old(world.log) <= world.log && (exists extra :: Owns(extra)) && old(checks) <= checks
      ensures !finished ==> StillEnding(world)
      ensures finished ==> Valid() && functions.Keys <= statuses.Keys
      ensures finished ==> AllReconciled(statuses, calls, old(functions.Keys), functions.Keys, checks[|old(checks)|..])
      ensures finished ==> (changed <==> |functions| != |old(functions)|)
    {
      var before := |functions|;
      Await({});
      assert Valid();
      finished := ReconcileWithRegistry(statuses, calls);
      changed := finished && |functions| != before;
    }

    /** Every dispatcher is cancelled and awaited. */
    method Drain() returns (finished: bool)
      requires Valid()
      modifies this`world, this`invokeTasks
      ensures old(world.log) <= world.log && OnlyTasks(world.log, |old(world.log)|) && (exists extra :: Owns(extra))
      ensures !finished ==> StillEnding(world)
      ensures finished ==> Owns({}) && invokeTasks == map[] && AllEnded(world)
    {
      var tasks := invokeTasks.Values;
      assert forall a :: a in invokeTasks ==> OwnTask(a) && invokeTasks[a] in tasks;
      invokeTasks := map[];
      while tasks != {}
        invariant Owns(tasks) && tasks <= world.tasks.Keys && invokeTasks == map[]
        invariant old(world.log) <= world.log && OnlyTasks(world.log, |old(world.log)|)
        decreases tasks
      {
        var t :| t in tasks;
        finished := CancelAndAwait(t, tasks);
        if !finished { return; }
        tasks := tasks - {t};
      }
      finished := true;
    }

    /** Every function goes, when no dispatcher is left. */
    method UndeployAll() returns (finished: bool)
      requires Owns({}) && invokeTasks == map[] && AllEnded(world)
      modifies this`world, this`functions, this`invokeTasks
      ensures old(world.log) <= world.log && (exists extra :: Owns(extra))
      ensures !finished ==> StillEnding(world)
      ensures finished ==> Valid() && functions == map[] && invokeTasks == map[]
      ensures finished ==> OnlyFunctions(world.log, |old(world.log)|)
      ensures finished ==> AllDeletedSince(old(functions.Keys), world.log, |old(world.log)|)
    {
      var names := functions.Keys;
      ghost var all := names;
      while names != {}
        invariant names <= all && AllDeletedSince(all - names, world.log, |old(world.log)|)
        invariant Owns({}) && invokeTasks == map[] && functions.Keys == names && AllEnded(world)
        invariant old(world.log) <= world.log && OnlyFunctions(world.log, |old(world.log)|)
        decreases names
      {
        var name :| name in names;
        ghost var log := world.log;
        names := names - {name};
        finished := Undeploy(name);
        if !finished { return; }
        assert all - names == all - (names + {name}) + {name};
        OneMoreDeleted(all - (names + {name}), log, |old(world.log)|, name, world.log);
      }
      assert all - names == all;
      finished := true;
    }

    /**
      Every dispatcher ends before any function goes: up to some moment the log speaks of tasks
      only, so no deletion has begun, and from then on of functions only, so no task does
      anything any more.
     */
    method Shutdown() returns (finished: bool)
      requires Valid()
      modifies this
      ensures old(world.log) <= world.log && (exists extra :: Owns(extra))
      ensures !finished ==> StillEnding(world)
      ensures finished ==> Valid() && functions == map[] && invokeTasks == map[]
      ensures finished ==> AllDeletedSince(old(functions.Keys), world.log, |old(world.log)|)
      ensures finished ==>
          exists k :: |old(world.log)| <= k <= |world.log| && TasksFirst(world.log, |old(world.log)|, k)
    {
      finished := Drain();
      if !finished { return; }
      ghost var drained := world.log;
      finished := UndeployAll();
      assert world.log[..|drained|] == drained;
      if finished { LaterIsSince(old(functions.Keys), world.log, |drained|, |old(world.log)|); }
      assert finished ==> TasksFirst(world.log, |old(world.log)|, |drained|);
    }
  }
}
