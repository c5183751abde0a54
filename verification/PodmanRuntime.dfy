/**
  The Podman reconciler: registry against pod map against engine, with a failure branch
  behind every engine call. Removals (`pod rm -f`, `volume rm -f`) and the question whether a
  pod runs are taken to succeed. Others may remove pods and volumes from the engine at any time.
 */
module PodmanRuntime {
  import opened Text
  import opened Readiness

  const CONTAINER := "container"

  // ---------------------------------------------------------------- names

  function VolumeName(agent: string, mount: string): string { "vlinder-mount-" + agent + "-" + mount }

  function PodName(agent: string): string { "vlinder-" + agent }

  lemma {:induction false} UpToHyphen(a: string, b: string, x: string, y: string)
    requires '-' !in a && '-' !in b && a + "-" + x == b + "-" + y
    ensures a == b && x == y
  {
    SplitHead(a, x, '-');
    SplitHead(b, y, '-');
    assert "-" == ['-'];
    var s := a + "-" + x;
    assert Split(s, '-')[0] == a && Split(s, '-')[0] == b;
    assert s[|a| + 1..] == x && s[|b| + 1..] == y;
  }

  /** Agents without a hyphen never share a volume name; with one, two different mounts can. */
  lemma VolumeNamesCollide(a: string, b: string, m: string, n: string)
    ensures '-' !in a && '-' !in b && VolumeName(a, m) == VolumeName(b, n) ==> a == b && m == n
    ensures VolumeName(a + "-" + b, m) == VolumeName(a, b + "-" + m)
  {
    var p := "vlinder-mount-";
    assert VolumeName(a, m) == p + (a + "-" + m) && VolumeName(b, n) == p + (b + "-" + n);
    if '-' !in a && '-' !in b && VolumeName(a, m) == VolumeName(b, n) {
      assert VolumeName(a, m)[|p|..] == a + "-" + m && VolumeName(b, n)[|p|..] == b + "-" + n;
      UpToHyphen(a, b, m, n);
    }
    assert VolumeName(a + "-" + b, m) == p + a + "-" + b + "-" + m;
    assert VolumeName(a, b + "-" + m) == p + a + "-" + b + "-" + m;
  }

  // ---------------------------------------------------------------- engine and map

  /** A declared mount: its name and the path it is seen at. `mounts` is in hash-map order. */
  datatype Mount = Mount(name: string, path: string)

  datatype Agent = Agent(name: string, mounts: seq<Mount>)

  datatype EnginePod = EnginePod(name: string, live: bool, attached: seq<(string, string)>)

  datatype Engine = Engine(pods: map<string, EnginePod>, volumes: set<string>)

  datatype Pod = Pod(podId: string, mountVolumes: seq<string>)

  /**
    How the calls of one start go: one answer per volume, the id of the pod, and whether pod,
    agent container and sidecar are created and the pod starts. Podman's ids are new ones.
   */
  datatype EngineCalls = EngineCalls(
    volumes: seq<bool>, id: string, create: bool, container: bool, sidecar: bool, start: bool)

  predicate Willing(c: EngineCalls) { c.create && c.container && c.sidecar && c.start }

  function VolumeNames(agent: string, mounts: seq<Mount>): (v: seq<string>)
    ensures |v| == |mounts|
  {
    seq(|mounts|, i requires 0 <= i < |mounts| => VolumeName(agent, mounts[i].name))
  }

  /** Each volume with its own mount's path. */
  function VolumePairs(agent: string, mounts: seq<Mount>): seq<(string, string)> {
    seq(|mounts|, i requires 0 <= i < |mounts| => (VolumeName(agent, mounts[i].name), mounts[i].path))
  }

  function ToSet(s: seq<string>): set<string> { set x | x in s }

  predicate NameInUse(e: Engine, name: string) { exists id :: id in e.pods && e.pods[id].name == name }

  /** Each volume is answered for, new, and unlike those before it. */
  predicate CanProvision(volumes: set<string>, name: string, mounts: seq<Mount>, answers: seq<bool>) {
    forall i {:trigger CanCreate(volumes, name, mounts, answers, i)} :: 0 <= i < |mounts| ==>
      CanCreate(volumes, name, mounts, answers, i)
  }

  /** The same, from the mounts and the answers. */
  predicate AnswersGood(mounts: seq<Mount>, answers: seq<bool>) {
    |answers| >= |mounts| && forall i :: 0 <= i < |mounts| ==> answers[i]
  }

  predicate DistinctMounts(mounts: seq<Mount>) {
    forall i, j :: 0 <= j < i < |mounts| ==> mounts[j].name != mounts[i].name
  }

  lemma ProvisionExactly(volumes: set<string>, name: string, mounts: seq<Mount>, answers: seq<bool>)
    ensures CanProvision(volumes, name, mounts, answers) <==>
      AnswersGood(mounts, answers) && DistinctMounts(mounts) && ToSet(VolumeNames(name, mounts)) !! volumes
  {
    var names := VolumeNames(name, mounts);
    if CanProvision(volumes, name, mounts, answers) {
      forall i | 0 <= i < |mounts| ensures i < |answers| && answers[i] && names[i] !in volumes
        && forall j :: 0 <= j < i ==> mounts[j].name != mounts[i].name
      {
        assert CanCreate(volumes, name, mounts, answers, i);
      }
      if mounts != [] { assert CanCreate(volumes, name, mounts, answers, |mounts| - 1); }
    }
    if AnswersGood(mounts, answers) && DistinctMounts(mounts) && ToSet(names) !! volumes {
      forall i | 0 <= i < |mounts| ensures CanCreate(volumes, name, mounts, answers, i) { assert names[i] in names; }
    }
  }

  predicate CanCreate(volumes: set<string>, name: string, mounts: seq<Mount>, answers: seq<bool>, i: int)
    requires 0 <= i < |mounts|
  {
    i < |answers| && answers[i] && VolumeName(name, mounts[i].name) !in volumes &&
    forall j :: 0 <= j < i ==> mounts[j].name != mounts[i].name
  }

  /** A start succeeds: every call does, and no name or id is in the way. */
  predicate CanStart(pods: map<string, Pod>, e: Engine, a: Agent, c: EngineCalls) {
    && CanProvision(e.volumes, a.name, a.mounts, c.volumes)
    && Willing(c) && c.id !in e.pods && !IdKnown(pods, c.id) && !NameInUse(e, PodName(a.name))
  }

  function WithoutPod(e: Engine, id: string): Engine { e.(pods := e.pods - {id}) }

  function WithoutVolumes(e: Engine, volumes: seq<string>): Engine { e.(volumes := e.volumes - ToSet(volumes)) }

  predicate Clash(pods: map<string, Pod>, a: string, b: string) {
    a in pods && b in pods &&
        (pods[a].podId == pods[b].podId || ToSet(pods[a].mountVolumes) * ToSet(pods[b].mountVolumes) != {})
  }

  predicate EntryOk(pods: map<string, Pod>, e: Engine, a: string)
    requires a in pods
  {
    pods[a].podId in e.pods && ToSet(pods[a].mountVolumes) <= e.volumes
  }

  predicate SameId(pods: map<string, Pod>, a: string, b: string) {
    a in pods && b in pods && pods[a].podId == pods[b].podId
  }

  /** No two entries have one pod. */
  ghost predicate OwnIds(pods: map<string, Pod>) {
    forall a, b {:trigger SameId(pods, a, b)} :: SameId(pods, a, b) ==> a == b
  }

  predicate IdKnown(pods: map<string, Pod>, id: string) { exists a :: a in pods && pods[a].podId == id }

  lemma FewerOwnIds(pods: map<string, Pod>, rest: map<string, Pod>)
    requires OwnIds(pods) && forall a :: a in rest ==> a in pods && rest[a] == pods[a]
    ensures OwnIds(rest)
  {
    forall a, b | SameId(rest, a, b) ensures a == b { assert SameId(pods, a, b); }
  }

  lemma MoreOwnIds(pods: map<string, Pod>, a: string, p: Pod)
    requires OwnIds(pods) && !IdKnown(pods, p.podId)
    ensures OwnIds(pods[a := p])
  {
    var more := pods[a := p];
    forall b, c | SameId(more, b, c) ensures b == c {
      if b != a && c != a { assert SameId(pods, b, c); }
    }
  }

  /**
    Nobody has interfered: every entry of the map has its pod and its volumes in the engine,
    and shares neither.
   */
  ghost predicate MapFits(pods: map<string, Pod>, e: Engine) {
    && (forall a {:trigger EntryOk(pods, e, a)} :: a in pods ==> EntryOk(pods, e, a))
    && (forall a, b {:trigger Clash(pods, a, b)} :: Clash(pods, a, b) ==> a == b)
  }

  predicate RunsIn(pods: map<string, Pod>, e: Engine, a: string) {
    a in pods && pods[a].podId in e.pods && e.pods[pods[a].podId].live
  }

  /** What taking entry `a` down leaves of the engine. */
  function Removed(e: Engine, p: Pod): Engine { WithoutVolumes(WithoutPod(e, p.podId), p.mountVolumes) }

  lemma RemovalKeepsOthers(pods: map<string, Pod>, e: Engine, a: string, keepPod: bool)
    requires MapFits(pods, e) && a in pods
    ensures MapFits(pods - {a}, if keepPod then WithoutVolumes(e, pods[a].mountVolumes) else Removed(e, pods[a]))
  {
    var rest, f := pods - {a}, if keepPod then WithoutVolumes(e, pods[a].mountVolumes) else Removed(e, pods[a]);
    forall b | b in rest ensures EntryOk(rest, f, b) {
      assert EntryOk(pods, e, b) && !Clash(pods, a, b);
      forall v | v in ToSet(pods[b].mountVolumes) ensures v in f.volumes {
        assert v !in ToSet(pods[a].mountVolumes) * ToSet(pods[b].mountVolumes);
      }
    }
    forall b, c | Clash(rest, b, c) ensures b == c { assert Clash(pods, b, c); }
  }

  lemma AdditionKeepsOthers(pods: map<string, Pod>, e: Engine, a: string, p: Pod, ep: EnginePod)
    requires MapFits(pods, e) && a !in pods && p.podId !in e.pods && ToSet(p.mountVolumes) !! e.volumes
    ensures MapFits(pods[a := p], Engine(e.pods[p.podId := ep], e.volumes + ToSet(p.mountVolumes)))
  {
    var more, f := pods[a := p], Engine(e.pods[p.podId := ep], e.volumes + ToSet(p.mountVolumes));
    forall b | b in more ensures EntryOk(more, f, b) {
      if b != a { assert EntryOk(pods, e, b); }
    }
    forall b, c | Clash(more, b, c) ensures b == c {
      if b != a { assert EntryOk(pods, e, b); }
      if c != a { assert EntryOk(pods, e, c); }
      if b != a && c != a { assert Clash(pods, b, c); }
    }
  }

  // ---------------------------------------------------------------- reconciliation outcomes

  /** The newest status among `reports` of this worker for an agent. */
  function Latest(reports: seq<Check>, a: string): Option<CheckStatus> {
    if reports == [] then None
    else
      var c := reports[|reports| - 1];
      if c.agent == a && c.worker == CONTAINER then Some(c.status) else Latest(reports[..|reports| - 1], a)
  }

  lemma {:induction false} LatestAppend(reports: seq<Check>, mine: seq<Check>, a: string)
    ensures Latest(reports + mine, a) == if Latest(mine, a).Some? then Latest(mine, a) else Latest(reports, a)
  {
    if mine == [] {
      assert reports + mine == reports;
    } else {
      assert (reports + mine)[..|reports + mine| - 1] == reports + mine[..|mine| - 1];
      LatestAppend(reports, mine[..|mine| - 1], a);
    }
  }

  /** What one tick may do with one agent; `report` is what it reports, if anything. */
  predicate Outcome(status: Option<AgentState>, before: bool, after: bool, runs: bool, report: Option<CheckStatus>) {
    match status
    case Some(DeletingState) => !after && report == Some(Deleted)
    case Some(Deploying) => if after then runs && report == Some(Ready) else report == Some(Failed)
    case _ => after == before && report == None
  }

  function NamesOf(agents: seq<Agent>): set<string> { set i | 0 <= i < |agents| :: agents[i].name }

  predicate DistinctAgents(agents: seq<Agent>) {
    forall i, j :: 0 <= i < j < |agents| ==> agents[i].name != agents[j].name
  }

  predicate Settles(
      statuses: map<string, Option<AgentState>>, a: string,
      before: set<string>, now: set<string>, running: set<string>, reports: seq<Check>) {
    a in statuses && Outcome(statuses[a], a in before, a in now, a in running, Latest(reports, a))
  }

  predicate AllReconciled(
      agents: seq<Agent>, statuses: map<string, Option<AgentState>>,
      before: set<string>, after: set<string>, running: set<string>, reports: seq<Check>) {
    forall i :: 0 <= i < |agents| ==> Settles(statuses, agents[i].name, before, after, running, reports)
  }

  /** A tick under way: the first `done` agents have their outcome, the rest are as they were. */
  predicate Progress(
      agents: seq<Agent>, done: nat, statuses: map<string, Option<AgentState>>,
      before: set<string>, now: set<string>, running: set<string>, reports: seq<Check>)
    requires done <= |agents|
  {
    && (forall i :: 0 <= i < done ==> Settles(statuses, agents[i].name, before, now, running, reports))
    && (forall i :: done <= i < |agents| ==> (agents[i].name in now <==> agents[i].name in before))
    && (forall i :: done <= i < |agents| ==> Latest(reports, agents[i].name) == None)
  }

  lemma ProgressStep(
      agents: seq<Agent>, k: nat, statuses: map<string, Option<AgentState>>,
      before: set<string>, now: set<string>, next: set<string>, ran: set<string>, runs: set<string>,
      reports: seq<Check>, mine: seq<Check>)
    requires k < |agents| && DistinctAgents(agents) && Progress(agents, k, statuses, before, now, ran, reports)
    requires var a := agents[k].name;
      && a in statuses && next - {a} == now - {a} && runs - {a} == ran - {a}
      && Outcome(statuses[a], a in now, a in next, a in runs, Latest(mine, a))
      && forall b :: b != a ==> Latest(mine, b) == None
    ensures Progress(agents, k + 1, statuses, before, next, runs, reports + mine)
  {
    var a := agents[k].name;
    forall b | b != a ensures (b in next <==> b in now) && (b in runs <==> b in ran) {
      assert (b in next <==> b in next - {a}) && (b in now <==> b in now - {a});
      assert (b in runs <==> b in runs - {a}) && (b in ran <==> b in ran - {a});
    }
    forall i | 0 <= i < |agents|
      ensures Latest(reports + mine, agents[i].name) ==
        if i == k then Latest(mine, a) else Latest(reports, agents[i].name)
    {
      LatestAppend(reports, mine, agents[i].name);
    }
    forall i | 0 <= i <= k ensures Settles(statuses, agents[i].name, before, next, runs, reports + mine) {
      if i < k { assert Settles(statuses, agents[i].name, before, now, ran, reports); }
    }
  }

  /** The daemon's side of the engine. */
  class ContainerRuntime {
    var pods: map<string, Pod>
    var engine: Engine
    /** Readiness checks handed to the repository. */
    var checks: seq<Check>

    /** This says nothing of the engine: a pod or a volume of an entry may be gone. */
    ghost predicate Valid()
      reads this
    {
      OwnIds(pods)
    }

    /** What holds as long as nobody else removes anything. */
    ghost predicate Intact()
      reads this
    {
      Valid() && MapFits(pods, engine)
    }

    constructor (e: Engine)
      ensures Valid() && Intact() && pods == map[] && engine == e && checks == []
    {
      pods, engine, checks := map[], e, [];
    }

    /** One volume per mount; a failure leaves those already created. */
    method ProvisionMountVolumes(name: string, mounts: seq<Mount>, answers: seq<bool>) returns (ok: bool)
      modifies this`engine
      ensures engine.pods == old(engine.pods) && old(engine.volumes) <= engine.volumes
      ensures engine.volumes - old(engine.volumes) <= ToSet(VolumeNames(name, mounts))
      ensures ok <==> CanProvision(old(engine.volumes), name, mounts, answers)
      ensures ok <==> (AnswersGood(mounts, answers) && DistinctMounts(mounts)
        && ToSet(VolumeNames(name, mounts)) !! old(engine.volumes))
      ensures ok ==> ToSet(VolumeNames(name, mounts)) !! old(engine.volumes)
      ensures ok ==> engine.volumes == old(engine.volumes) + ToSet(VolumeNames(name, mounts))
    {
      var names := VolumeNames(name, mounts);
      ProvisionExactly(engine.volumes, name, mounts, answers);
      for i := 0 to |mounts|
        invariant engine.pods == old(engine.pods)
        invariant engine.volumes == old(engine.volumes) + ToSet(names[..i]) && ToSet(names[..i]) !! old(engine.volumes)
        invariant forall j {:trigger CanCreate(old(engine.volumes), name, mounts, answers, j)} :: 0 <= j < i ==>
          CanCreate(old(engine.volumes), name, mounts, answers, j)
      {
        var v := VolumeName(name, mounts[i].name);
        assert names[..i + 1] == names[..i] + [v];
        assert ToSet(names[..i + 1]) == ToSet(names[..i]) + {v};
        NamesSoFar(name, mounts, i);
        assert CanCreate(old(engine.volumes), name, mounts, answers, i) <==>
          i < |answers| && answers[i] && v !in engine.volumes;
        if v in engine.volumes || i >= |answers| || !answers[i] {
          assert forall x :: x in names[..i] ==> x in names;
          return false;
        }
        engine := engine.(volumes := engine.volumes + {v});
      }
      assert names[..|mounts|] == names;
      ok := true;
    }

    method CleanupMountVolumes(volumes: seq<string>)
      modifies this`engine
      ensures engine == WithoutVolumes(old(engine), volumes)
    {
      for i := 0 to |volumes|
        invariant engine == WithoutVolumes(old(engine), volumes[..i])
      {
        assert volumes[..i + 1] == volumes[..i] + [volumes[i]];
        assert ToSet(volumes[..i + 1]) == ToSet(volumes[..i]) + {volumes[i]};
        engine := engine.(volumes := engine.volumes - {volumes[i]});
      }
      assert volumes[..|volumes|] == volumes;
    }

    /** Agent container with the volumes, sidecar container, start: each call may fail. */
    method StartInPod(id: string, pairs: seq<(string, string)>, c: EngineCalls) returns (ok: bool)
      requires id in engine.pods
      modifies this`engine
      ensures engine.volumes == old(engine.volumes) && engine.pods.Keys == old(engine.pods.Keys)
      ensures engine.pods - {id} == old(engine.pods) - {id}
      ensures ok <==> c.container && c.sidecar && c.start
      ensures ok ==> engine.pods[id] == EnginePod(old(engine.pods[id].name), true, pairs)
    {
      var p := engine.pods[id];
      if !c.container { return false; }
      engine := engine.(pods := engine.pods[id := p.(attached := pairs)]);
      if !c.sidecar { return false; }
      if !c.start { return false; }
      engine := engine.(pods := engine.pods[id := EnginePod(p.name, true, pairs)]);
      ok := true;
    }

    /** A new pod for an agent that has no entry. `created` says whether the pod came to exist. */
    method CreateAndStart(a: Agent, c: EngineCalls) returns (ok: bool, created: bool)
      requires Valid() && a.name !in pods
      modifies this`pods, this`engine
      ensures Valid() && (old(Intact()) ==> Intact())
      ensures ok <==> old(CanStart(pods, engine, a, c))
      ensures ok <==> (c.create && c.container && c.sidecar && c.start
        && c.id !in old(engine.pods) && (forall b :: b in old(pods) ==> old(pods)[b].podId != c.id)
        && (forall id :: id in old(engine.pods) ==> old(engine.pods)[id].name != "vlinder-" + a.name)
        && CanProvision(old(engine.volumes), a.name, a.mounts, c.volumes))
      ensures !ok ==> pods == old(pods) && engine.pods == old(engine.pods) && old(engine.volumes) <= engine.volumes
      ensures engine.volumes - old(engine.volumes) <= ToSet(VolumeNames(a.name, a.mounts))
      ensures !ok && created ==> engine == old(engine)
      ensures ok ==> Serves(a) && pods - {a.name} == old(pods) && pods[a.name].podId == c.id
      ensures ok ==> ToSet(VolumeNames(a.name, a.mounts)) !! old(engine.volumes)
      ensures ok ==> pods[a.name].mountVolumes == VolumeNames(a.name, a.mounts)
      ensures ok ==> engine.volumes == old(engine.volumes) + ToSet(VolumeNames(a.name, a.mounts))
      ensures ok ==> engine.pods - {c.id} == old(engine.pods) && c.id !in old(engine.pods)
      ensures ok ==> !IdKnown(old(pods), c.id)
    {
      created := false;
      var names := VolumeNames(a.name, a.mounts);
      ok := ProvisionMountVolumes(a.name, a.mounts, c.volumes);
      if MapFits(pods, old(engine)) { VolumesGrew(pods, old(engine), engine); }
      if !ok { return; }
      var id := c.id;
      if !c.create || id in engine.pods || IdKnown(pods, id) || NameInUse(engine, PodName(a.name)) {
        return false, false;
      }
      created := true;
      engine := engine.(pods := engine.pods[id := EnginePod(PodName(a.name), false, [])]);
      ok := StartInPod(id, VolumePairs(a.name, a.mounts), c);
      assert engine.pods - {id} == old(engine.pods);
      if !ok {
        engine := WithoutPod(engine, id);
        CleanupMountVolumes(names);
        assert engine == old(engine);
        return;
      }
      if MapFits(pods, old(engine)) { AdditionKeepsOthers(pods, old(engine), a.name, Pod(id, names), engine.pods[id]); }
      MoreOwnIds(pods, a.name, Pod(id, names));
      assert engine == Engine(old(engine.pods)[id := engine.pods[id]], old(engine.volumes) + ToSet(names));
      pods := pods[a.name := Pod(id, names)];
      assert pods - {a.name} == old(pods);
    }

    /** The entry owns exactly the agent's volumes, each attached at its own mount's path, and the pod runs. */
    predicate Serves(a: Agent)
      reads this
    {
      && RunsIn(pods, engine, a.name)
      && var p := engine.pods[pods[a.name].podId];
      && p.name == "vlinder-" + a.name && p.live
      && |pods[a.name].mountVolumes| == |p.attached| == |a.mounts|
      && forall i :: 0 <= i < |a.mounts| ==>
           && pods[a.name].mountVolumes[i] == "vlinder-mount-" + a.name + "-" + a.mounts[i].name
           && p.attached[i] == (pods[a.name].mountVolumes[i], a.mounts[i].path)
    }

    function Running(): set<string>
      reads this
    {
      set a | a in pods && RunsIn(pods, engine, a)
    }

    /** An entry whose pod does not run goes, and its volumes with it; its pod, if it is there, stays. */
    method DropStale(name: string)
      requires Valid() && name in pods
      modifies this`pods, this`engine
      ensures Valid() && pods == old(pods) - {name} &&
          engine == WithoutVolumes(old(engine), old(pods[name].mountVolumes))
      ensures old(Intact()) ==> Intact()
    {
      var p := pods[name];
      if MapFits(pods, engine) { RemovalKeepsOthers(pods, engine, name, true); }
      pods := pods - {name};
      FewerOwnIds(old(pods), pods);
      CleanupMountVolumes(p.mountVolumes);
    }

    /**
      An entry whose pod runs is left alone; a stale one, whose pod has stopped or is gone, is
      dropped with its volumes first, and what then starts has its own pod and volumes.
     */
    method Start(a: Agent, c: EngineCalls) returns (ok: bool, created: bool)
      requires Valid()
      modifies this`pods, this`engine
      ensures Valid() && (old(Intact()) ==> Intact())
      ensures old(RunsIn(pods, engine, a.name)) ==> ok && pods == old(pods) && engine == old(engine)
      ensures ok <==>
          old(RunsIn(pods, engine, a.name) || CanStart(pods - {a.name}, Relieved(pods, engine, a.name), a, c))
      ensures ok ==> RunsIn(pods, engine, a.name) && pods - {a.name} == old(pods) - {a.name}
      ensures Running() - {a.name} == old(Running()) - {a.name}
      ensures !ok ==> pods == old(pods) - {a.name} && engine.pods == old(engine.pods)
      ensures !ok && created ==> engine.volumes == old(engine.volumes) - Owned(old(pods), a.name)
      ensures ok && !old(RunsIn(pods, engine, a.name)) ==> Serves(a) && EntryOk(pods, engine, a.name)
      ensures StepOf(old(pods), old(engine), pods, engine, a, c)
      ensures ok && !old(RunsIn(pods, engine, a.name)) ==>
        engine.volumes == old(engine.volumes) - Owned(old(pods), a.name) + ToSet(VolumeNames(a.name, a.mounts))
    {
      if a.name in pods {
        var p := pods[a.name];
        if p.podId in engine.pods && engine.pods[p.podId].live { return true, false; }
        DropStale(a.name);
      }
      assert pods == old(pods) - {a.name} && engine.volumes == old(engine.volumes) - Owned(old(pods), a.name);
      ok, created := CreateAndStart(a, c);
      forall b | b != a.name ensures RunsIn(pods, engine, b) == old(RunsIn(pods, engine, b)) {
        assert b in pods <==> b in pods - {a.name};
        assert b in pods ==> pods[b] == (pods - {a.name})[b] == old(pods)[b];
        assert ok && b in pods ==> pods[b].podId != pods[a.name].podId;
      }
    }

    /** Take one entry down: the pod, then its volumes. */
    method StopPod(name: string)
      requires Valid() && name in pods
      modifies this`pods, this`engine
      ensures Valid() && pods == old(pods) - {name} && engine == Removed(old(engine), old(pods[name]))
      ensures old(Intact()) ==> Intact()
      ensures Running() == old(Running()) - {name}
    {
      if MapFits(pods, engine) { RemovalKeepsOthers(pods, engine, name, false); }
      var p := pods[name];
      pods := pods - {name};
      FewerOwnIds(old(pods), pods);
      engine := WithoutPod(engine, p.podId);
      CleanupMountVolumes(p.mountVolumes);
      forall b | b in old(pods) && b != name ensures RunsIn(pods, engine, b) == old(RunsIn(pods, engine, b)) {
        assert !SameId(old(pods), b, name);
      }
    }

    /** Pods of agents the registry no longer lists. */
    method StopOrphans(names: set<string>)
      requires Valid()
      modifies this`pods, this`engine
      ensures Valid()
      ensures old(Intact()) ==> Intact()
      ensures Running() == old(Running()) * names
      ensures WithoutOrphans(old(pods), old(engine), names, pods, engine)
    {
      var orphans := pods.Keys - names;
      ghost var all := orphans;
      while orphans != {}
        invariant Valid() && orphans <= all && pods == old(pods) - (all - orphans)
        invariant Running() == old(Running()) - (all - orphans) && (old(Intact()) ==> Intact())
        invariant engine.pods == old(engine.pods) - IdsOf(old(pods), all - orphans)
        invariant engine.volumes == old(engine.volumes) - VolumesOf(old(pods), all - orphans)
        decreases orphans
      {
        var name :| name in orphans;
        assert all - (orphans - {name}) == (all - orphans) + {name};
        IdsAndVolumesGrow(old(pods), all - orphans, name);
        StopPod(name);
        orphans := orphans - {name};
      }
      assert all - orphans == all;
    }

    /** One agent of the registry, whose derived status is `status`. */
    method Reconcile(a: Agent, status: Option<AgentState>, c: EngineCalls)
      requires Valid()
      modifies this
      ensures Valid() && pods - {a.name} == old(pods) - {a.name} && Running() - {a.name} == old(Running()) - {a.name}
      ensures old(checks) <= checks && (old(Intact()) ==> Intact())
      ensures var mine := checks[|old(checks)|..];
        && Outcome(status, a.name in old(pods), a.name in pods, a.name in Running(), Latest(mine, a.name))
        && forall b :: b != a.name ==> Latest(mine, b) == None
      ensures old(Settled(a.name, status)) ==> pods == old(pods) && engine == old(engine)
      ensures status == Some(Deploying) ==> (a.name in Running() <==>
        old(RunsIn(pods, engine, a.name) || CanStart(pods - {a.name}, Relieved(pods, engine, a.name), a, c)))
      ensures status == Some(DeletingState) && a.name in old(pods) ==> engine == Removed(old(engine), old(pods[a.name]))
      ensures status != Some(Deploying) && status != Some(DeletingState) ==> pods == old(pods) && engine == old(engine)
      ensures StepOf(old(pods), old(engine), pods, engine, a, c)
      ensures forall b :: b != a.name ==> RunsIn(pods, engine, b) == old(RunsIn(pods, engine, b))
      ensures status == Some(Deploying) && old(WillRun(pods, engine, a, c)) ==> RunsIn(pods, engine, a.name)
    {
      ClearMeansCanStart(pods, engine, a, c);
      match status {
        case Some(Deploying) =>
          var ok, created := Start(a, c);
          checks := checks + [Check(a.name, CONTAINER, if ok then Ready else Failed)];
        case Some(DeletingState) =>
          if a.name in pods { StopPod(a.name); }
          checks := checks + [Check(a.name, CONTAINER, Deleted)];
        case _ =>
      }
      forall b | b != a.name ensures RunsIn(pods, engine, b) == old(RunsIn(pods, engine, b)) {
        assert b in Running() <==> b in Running() - {a.name};
        assert b in old(Running()) <==> b in old(Running()) - {a.name};
      }
    }

    /** Nothing left to do for this agent: a deploying one runs, a deleting one is gone. */
    predicate Settled(name: string, status: Option<AgentState>)
      reads this
    {
      match status
      case Some(Deploying) => RunsIn(pods, engine, name)
      case Some(DeletingState) => name !in pods
      case _ => true
    }

    predicate AllSettled(agents: seq<Agent>, statuses: map<string, Option<AgentState>>)
      reads this
    {
      forall i :: 0 <= i < |agents| ==> agents[i].name in statuses && Settled(agents[i].name, statuses[agents[i].name])
    }

    method ReconcileAll(agents: seq<Agent>, statuses: map<string, Option<AgentState>>, calls: map<string, EngineCalls>)
      requires Valid() && pods.Keys <= NamesOf(agents)
      requires DistinctAgents(agents) && AllListed(agents, statuses, calls)
      modifies this
      ensures Valid() && pods.Keys <= NamesOf(agents) && old(checks) <= checks && (old(Intact()) ==> Intact())
      ensures Progress(agents, |agents|, statuses, old(pods.Keys), pods.Keys, Running(), checks[|old(checks)|..])
      ensures old(AllSettled(agents, statuses)) ==> pods == old(pods) && engine == old(engine)
      ensures Separate(agents, calls) ==>
        StartsWell(agents, statuses, calls, old(pods), old(engine), |agents|, pods, engine)
    {
      ghost var settled := AllSettled(agents, statuses);
      ghost var separate, pods0, engine0 := Separate(agents, calls), pods, engine;
      for i := 0 to |agents|
        invariant Valid() && old(checks) <= checks && pods.Keys <= NamesOf(agents) && (old(Intact()) ==> Intact())
        invariant Progress(agents, i, statuses, old(pods.Keys), pods.Keys, Running(), checks[|old(checks)|..])
        invariant settled ==> pods == old(pods) && engine == old(engine)
        invariant separate ==> StartsWell(agents, statuses, calls, pods0, engine0, i, pods, engine)
      {
        var a := agents[i];
        ghost var sofar, had, ran, was := checks, pods, Running(), engine;
        Reconcile(a, statuses[a.name], calls[a.name]);
        ReconcileStep(agents, i, statuses, old(pods.Keys), had, ran, sofar, |old(checks)|);
        if separate { StartsWellStep(agents, statuses, calls, pods0, engine0, i, had, was, pods, engine); }
      }
    }

    /** What one round of the loop adds to the progress. */
    ghost method ReconcileStep(
        agents: seq<Agent>, i: nat, statuses: map<string, Option<AgentState>>, before: set<string>,
        had: map<string, Pod>, ran: set<string>, sofar: seq<Check>, n: nat)
      requires i < |agents| && DistinctAgents(agents) && n <= |sofar| && sofar <= checks && had.Keys <= NamesOf(agents)
      requires Progress(agents, i, statuses, before, had.Keys, ran, sofar[n..])
      requires var a := agents[i].name;
        && a in statuses && pods - {a} == had - {a} && Running() - {a} == ran - {a}
        && Outcome(statuses[a], a in had, a in pods, a in Running(), Latest(checks[|sofar|..], a))
        && forall b :: b != a ==> Latest(checks[|sofar|..], b) == None
      ensures pods.Keys <= NamesOf(agents)
      ensures Progress(agents, i + 1, statuses, before, pods.Keys, Running(), checks[n..])
    {
      var a := agents[i].name;
      assert checks[n..] == sofar[n..] + checks[|sofar|..];
      KeysBut(pods, had, a);
      assert a in NamesOf(agents);
      ProgressStep(agents, i, statuses, before, had.Keys, pods.Keys, ran, Running(), sofar[n..], checks[|sofar|..]);
    }

    /**
      One reconciliation over the registry's agents. After it no orphan is in the map, every
      agent has its outcome, a deploying agent that nothing stands in the way of runs, and a
      tick with nothing left to do changes neither map nor engine.
     */
    method EnsureContainers(
        agents: seq<Agent>, statuses: map<string, Option<AgentState>>, calls: map<string, EngineCalls>)
      requires Valid() && DistinctAgents(agents) && AllListed(agents, statuses, calls)
      modifies this
      ensures Valid() && pods.Keys <= NamesOf(agents) && old(checks) <= checks && (old(Intact()) ==> Intact())
      ensures AllReconciled(agents, statuses, old(pods.Keys), pods.Keys, Running(), checks[|old(checks)|..])
      ensures old(pods.Keys <= NamesOf(agents) && AllSettled(agents, statuses)) ==>
          pods == old(pods) && engine == old(engine)
      ensures Separate(agents, calls) ==>
        StartsWell(agents, statuses, calls, old(pods), old(engine), |agents|, pods, engine)
    {
      StopOrphans(NamesOf(agents));
      OrphansGone(old(pods), old(engine), NamesOf(agents), pods, engine);
      ghost var kept, engine1 := pods, engine;
      ReconcileAll(agents, statuses, calls);
      KeptReconciled(agents, statuses, old(pods.Keys), kept.Keys, pods.Keys, Running(), checks[|old(checks)|..]);
      if Separate(agents, calls) {
        StartsWellFrom(agents, statuses, calls, old(pods), old(engine), kept, engine1, pods, engine);
      }
    }

    method Tick(agents: seq<Agent>, statuses: map<string, Option<AgentState>>, calls: map<string, EngineCalls>)
      returns (changed: bool)
      requires Valid() && DistinctAgents(agents) && AllListed(agents, statuses, calls)
      modifies this
      ensures Valid() && pods.Keys <= NamesOf(agents) && old(checks) <= checks && (old(Intact()) ==> Intact())
      ensures AllReconciled(agents, statuses, old(pods.Keys), pods.Keys, Running(), checks[|old(checks)|..])
      ensures changed <==> |pods| != |old(pods)|
      ensures old(pods.Keys <= NamesOf(agents) && AllSettled(agents, statuses)) ==>
          pods == old(pods) && engine == old(engine)
      ensures Separate(agents, calls) ==>
        StartsWell(agents, statuses, calls, old(pods), old(engine), |agents|, pods, engine)
    {
      var before := |pods|;
      EnsureContainers(agents, statuses, calls);
      changed := |pods| != before;
    }

    /**
      Two ticks in a row over the same agents, whose other workers report nothing new in
      between: the second derives the states from what the first reported, and changes neither
      the map nor the engine. `once` is what the first tick left.
     */
    method TwoTicks(
        agents: seq<Agent>, rows: map<string, Workers>, calls: map<string, EngineCalls>,
        again: map<string, EngineCalls>)
        returns (changed: bool, ghost once: (map<string, Pod>, Engine))
      requires Valid() && DistinctAgents(agents)
      requires forall i :: 0 <= i < |agents| ==>
          agents[i].name in rows && agents[i].name in calls && agents[i].name in again
      modifies this
      ensures Valid() && old(checks) <= checks && (pods, engine) == once && !changed
    {
      var n := |checks|;
      var _ := Tick(agents, Derived(rows, []), calls);
      once := (pods, engine);
      var reports := checks[n..];
      TickSettles(agents, rows, old(pods.Keys), pods.Keys, Running(), reports);
      assert AllSettled(agents, Derived(rows, reports));
      changed := Tick(agents, Derived(rows, reports), again);
    }

    method Shutdown()
      requires Valid()
      modifies this`pods, this`engine
      ensures pods == map[] && Valid()
      ensures forall a :: a in old(pods) ==>
        old(pods)[a].podId !in engine.pods && ToSet(old(pods)[a].mountVolumes) !! engine.volumes
      ensures engine.pods.Keys <= old(engine.pods.Keys) && engine.volumes <= old(engine.volumes)
    {
      while pods.Keys != {}
        invariant Valid() && forall a :: a in pods ==> a in old(pods) && pods[a] == old(pods)[a]
        invariant engine.pods.Keys <= old(engine.pods.Keys) && engine.volumes <= old(engine.volumes)
        invariant forall a :: a in old(pods) && a !in pods ==>
          old(pods)[a].podId !in engine.pods && ToSet(old(pods)[a].mountVolumes) !! engine.volumes
        decreases pods.Keys
      {
        var name :| name in pods.Keys;
        StopPod(name);
      }
    }
  }

  lemma KeysBut(pods: map<string, Pod>, had: map<string, Pod>, a: string)
    requires pods - {a} == had - {a}
    ensures pods.Keys - {a} == had.Keys - {a} && pods.Keys <= had.Keys + {a}
  {
    assert pods.Keys - {a} == (pods - {a}).Keys && had.Keys - {a} == (had - {a}).Keys;
    assert pods.Keys <= (pods.Keys - {a}) + {a};
  }

  function IdsOf(pods: map<string, Pod>, names: set<string>): set<string> {
    set a | a in names && a in pods :: pods[a].podId
  }

  function VolumesOf(pods: map<string, Pod>, names: set<string>): set<string> {
    set a, v | a in names && a in pods && v in pods[a].mountVolumes :: v
  }

  lemma IdsAndVolumesGrow(pods: map<string, Pod>, names: set<string>, a: string)
    requires a in pods
    ensures IdsOf(pods, names + {a}) == IdsOf(pods, names) + {pods[a].podId}
    ensures VolumesOf(pods, names + {a}) == VolumesOf(pods, names) + ToSet(pods[a].mountVolumes)
  {}

  predicate AllListed(
      agents: seq<Agent>, statuses: map<string, Option<AgentState>>, calls: map<string, EngineCalls>) {
    forall i :: 0 <= i < |agents| ==> agents[i].name in statuses && agents[i].name in calls
  }

  // ---------------------------------------------------------------- what a tick starts

  /** All that handling `b` may have changed: its entry, its volumes, and one new pod of its name. */
  predicate StepOf(pods: map<string, Pod>, e: Engine, now: map<string, Pod>, f: Engine, b: Agent, c: EngineCalls) {
    && now - {b.name} == pods - {b.name}
    && f.volumes <= e.volumes + ToSet(VolumeNames(b.name, b.mounts))
    && (forall id :: id in f.pods ==> OldOrNew(e, f, id, c.id, PodName(b.name)))
    && (b.name in now ==> now[b.name].podId == c.id || (b.name in pods && now[b.name] == pods[b.name]))
  }

  predicate OldOrNew(e: Engine, f: Engine, id: string, newId: string, name: string)
    requires id in f.pods
  {
    (id in e.pods && f.pods[id].name == e.pods[id].name) || (id == newId && f.pods[id].name == name)
  }

  /** Nothing stands in the way of `a`: its calls succeed, and its names and its id are free. */
  predicate Clear(pods: map<string, Pod>, e: Engine, a: Agent, c: EngineCalls) {
    && CanProvision(e.volumes - Owned(pods, a.name), a.name, a.mounts, c.volumes)
    && Willing(c) && c.id !in e.pods && !IdKnown(pods, c.id) && !NameInUse(e, PodName(a.name))
  }

  predicate WillRun(pods: map<string, Pod>, e: Engine, a: Agent, c: EngineCalls) {
    RunsIn(pods, e, a.name) || Clear(pods, e, a, c)
  }

  /** The agents get different ids and have different volume names. */
  predicate Separate(agents: seq<Agent>, calls: map<string, EngineCalls>) {
    forall i, j {:trigger Apart(agents, calls, i, j)} :: 0 <= i < |agents| && 0 <= j < |agents| && i != j ==>
      Apart(agents, calls, i, j)
  }

  predicate Apart(agents: seq<Agent>, calls: map<string, EngineCalls>, i: int, j: int)
    requires 0 <= i < |agents| && 0 <= j < |agents|
  {
    agents[i].name in calls && agents[j].name in calls &&
    Distinct(agents[i], calls[agents[i].name], agents[j], calls[agents[j].name])
  }

  predicate Distinct(a: Agent, c: EngineCalls, b: Agent, d: EngineCalls) {
    a.name != b.name && c.id != d.id && ToSet(VolumeNames(a.name, a.mounts)) !! ToSet(VolumeNames(b.name, b.mounts))
  }

  /**
    After the first `done` agents: each of them that is deploying and had nothing in its way
    runs, and the others have no more in their way than before.
   */
  predicate StartsWell(
      agents: seq<Agent>, statuses: map<string, Option<AgentState>>, calls: map<string, EngineCalls>,
      pods: map<string, Pod>, e: Engine, done: nat, now: map<string, Pod>, f: Engine)
    requires AllListed(agents, statuses, calls)
  {
    forall i {:trigger StartsAt(agents, statuses, calls, pods, e, done, now, f, i)} :: 0 <= i < |agents| ==>
      StartsAt(agents, statuses, calls, pods, e, done, now, f, i)
  }

  predicate StartsAt(
      agents: seq<Agent>, statuses: map<string, Option<AgentState>>, calls: map<string, EngineCalls>,
      pods: map<string, Pod>, e: Engine, done: nat, now: map<string, Pod>, f: Engine, i: int)
    requires AllListed(agents, statuses, calls) && 0 <= i < |agents|
  {
    var a := agents[i];
    WillRun(pods, e, a, calls[a.name]) ==> StandsWell(a, statuses[a.name], calls[a.name], i < done, now, f)
  }

  predicate StandsWell(
      a: Agent, status: Option<AgentState>, c: EngineCalls, done: bool, now: map<string, Pod>, f: Engine) {
    if done then status == Some(Deploying) ==> RunsIn(now, f, a.name) else WillRun(now, f, a, c)
  }

  lemma ClearMeansCanStart(pods: map<string, Pod>, e: Engine, a: Agent, c: EngineCalls)
    ensures Clear(pods, e, a, c) ==> CanStart(pods - {a.name}, Relieved(pods, e, a.name), a, c)
  {
    var before, after := e.volumes - Owned(pods, a.name), Relieved(pods, e, a.name).volumes;
    assert before == after;
    if IdKnown(pods - {a.name}, c.id) {
      var b :| b in pods - {a.name} && (pods - {a.name})[b].podId == c.id;
      assert b in pods && pods[b].podId == c.id;
    }
  }

  lemma ClearStays(
      pods: map<string, Pod>, e: Engine, now: map<string, Pod>, f: Engine, b: Agent, d: EngineCalls, a: Agent,
      c: EngineCalls)
    requires StepOf(pods, e, now, f, b, d) && Distinct(a, c, b, d) && Clear(pods, e, a, c)
    ensures Clear(now, f, a, c)
  {
    assert a.name in now <==> a.name in now - {b.name};
    assert a.name in pods <==> a.name in pods - {b.name};
    assert a.name in now ==> now[a.name] == (now - {b.name})[a.name];
    assert a.name in pods ==> pods[a.name] == (pods - {b.name})[a.name];
    assert Owned(now, a.name) == Owned(pods, a.name);
    var before, after := e.volumes - Owned(pods, a.name), f.volumes - Owned(now, a.name);
    forall i | 0 <= i < |a.mounts| ensures CanCreate(after, a.name, a.mounts, c.volumes, i) {
      assert CanCreate(before, a.name, a.mounts, c.volumes, i);
      assert VolumeNames(a.name, a.mounts)[i] in ToSet(VolumeNames(a.name, a.mounts));
    }
    assert PodName(a.name)[8..] == a.name && PodName(b.name)[8..] == b.name;
    forall x | x in now ensures now[x].podId != c.id {
      if x != b.name { assert x in now - {b.name} && (now - {b.name})[x] == now[x] && x in pods && pods[x] == now[x]; }
    }
  }

  lemma StartsWellStep(
      agents: seq<Agent>, statuses: map<string, Option<AgentState>>, calls: map<string, EngineCalls>,
      pods: map<string, Pod>, e: Engine, i: nat, had: map<string, Pod>, was: Engine, now: map<string, Pod>, f: Engine)
    requires AllListed(agents, statuses, calls) && Separate(agents, calls) && i < |agents|
    requires StartsWell(agents, statuses, calls, pods, e, i, had, was)
    requires var a := agents[i];
      && StepOf(had, was, now, f, a, calls[a.name])
      && (forall b :: b != a.name ==> RunsIn(now, f, b) == RunsIn(had, was, b))
      && (statuses[a.name] == Some(Deploying) && WillRun(had, was, a, calls[a.name]) ==> RunsIn(now, f, a.name))
    ensures StartsWell(agents, statuses, calls, pods, e, i + 1, now, f)
  {
    var done := i + 1;
    forall j | 0 <= j < |agents| ensures StartsAt(agents, statuses, calls, pods, e, done, now, f, j) {
      var a, c := agents[j], calls[agents[j].name];
      assert StartsAt(agents, statuses, calls, pods, e, i, had, was, j);
      if j != i {
        assert Apart(agents, calls, j, i);
        if Clear(had, was, a, c) { ClearStays(had, was, now, f, agents[i], calls[agents[i].name], a, c); }
      }
    }
  }

  lemma KeptReconciled(
      agents: seq<Agent>, statuses: map<string, Option<AgentState>>,
      before: set<string>, kept: set<string>, after: set<string>, running: set<string>, reports: seq<Check>)
    requires Progress(agents, |agents|, statuses, kept, after, running, reports) && kept == before * NamesOf(agents)
    ensures AllReconciled(agents, statuses, before, after, running, reports)
  {
    forall i | 0 <= i < |agents| ensures Settles(statuses, agents[i].name, before, after, running, reports) {
      assert agents[i].name in NamesOf(agents);
      assert Settles(statuses, agents[i].name, kept, after, running, reports);
    }
  }

  lemma ClearWithLess(pods: map<string, Pod>, e: Engine, kept: map<string, Pod>, e1: Engine, a: Agent, c: EngineCalls)
    requires Clear(pods, e, a, c) && Owned(kept, a.name) == Owned(pods, a.name)
    requires e1.volumes <= e.volumes && forall id :: id in e1.pods ==> id in e.pods && e1.pods[id] == e.pods[id]
    requires forall b :: b in kept ==> b in pods && kept[b] == pods[b]
    ensures Clear(kept, e1, a, c)
  {
    var before, after := e.volumes - Owned(pods, a.name), e1.volumes - Owned(kept, a.name);
    forall i | 0 <= i < |a.mounts| ensures CanCreate(after, a.name, a.mounts, c.volumes, i) {
      assert CanCreate(before, a.name, a.mounts, c.volumes, i);
    }
    if id :| id in e1.pods && e1.pods[id].name == PodName(a.name) { assert NameInUse(e, PodName(a.name)); }
  }

  /** The map and the engine with the orphans taken down. */
  predicate WithoutOrphans(pods: map<string, Pod>, e: Engine, names: set<string>, kept: map<string, Pod>, e1: Engine) {
    && kept == pods - (pods.Keys - names)
    && e1 == Engine(e.pods - IdsOf(pods, pods.Keys - names), e.volumes - VolumesOf(pods, pods.Keys - names))
  }

  lemma OrphansGone(pods: map<string, Pod>, e: Engine, names: set<string>, kept: map<string, Pod>, e1: Engine)
    requires WithoutOrphans(pods, e, names, kept, e1) && OwnIds(pods)
    ensures kept.Keys == pods.Keys * names && (pods.Keys <= names ==> kept == pods && e1 == e)
    ensures forall a :: a in names && RunsIn(pods, e, a) ==> RunsIn(kept, e1, a)
  {
    if pods.Keys <= names { assert pods.Keys - names == {}; }
    forall a | a in names && RunsIn(pods, e, a) ensures RunsIn(kept, e1, a) {
      forall b | b in pods && b !in names ensures pods[b].podId != pods[a].podId { assert !SameId(pods, b, a); }
    }
  }

  /** Taking orphans down puts nothing in anyone's way. */
  lemma StartsWellFrom(
      agents: seq<Agent>, statuses: map<string, Option<AgentState>>, calls: map<string, EngineCalls>,
      pods: map<string, Pod>, e: Engine, kept: map<string, Pod>, e1: Engine, now: map<string, Pod>, f: Engine)
    requires AllListed(agents, statuses, calls) && OwnIds(pods) && WithoutOrphans(pods, e, NamesOf(agents), kept, e1)
    requires StartsWell(agents, statuses, calls, kept, e1, |agents|, now, f)
    ensures StartsWell(agents, statuses, calls, pods, e, |agents|, now, f)
  {
    OrphansGone(pods, e, NamesOf(agents), kept, e1);
    forall i | 0 <= i < |agents| ensures StartsAt(agents, statuses, calls, pods, e, |agents|, now, f, i) {
      var a, c := agents[i], calls[agents[i].name];
      assert a.name in NamesOf(agents) && StartsAt(agents, statuses, calls, kept, e1, |agents|, now, f, i);
      assert Owned(kept, a.name) == Owned(pods, a.name);
      if Clear(pods, e, a, c) { ClearWithLess(pods, e, kept, e1, a, c); }
    }
  }

  lemma NamesSoFar(name: string, mounts: seq<Mount>, i: nat)
    requires i < |mounts|
    ensures VolumeName(name, mounts[i].name) in ToSet(VolumeNames(name, mounts)[..i]) <==>
      exists j :: 0 <= j < i && mounts[j].name == mounts[i].name
  {
    var names, v := VolumeNames(name, mounts), VolumeName(name, mounts[i].name);
    forall j | 0 <= j < i ensures names[j] == v <==> mounts[j].name == mounts[i].name {
      var p := "vlinder-mount-" + name + "-";
      assert names[j] == p + mounts[j].name && v == p + mounts[i].name;
      assert names[j][|p|..] == mounts[j].name && v[|p|..] == mounts[i].name;
    }
    if v in names[..i] { var j :| 0 <= j < i && names[..i][j] == v; assert mounts[j].name == mounts[i].name; }
    if j :| 0 <= j < i && mounts[j].name == mounts[i].name { assert names[..i][j] == v; }
  }

  /** The engine once a stale entry's volumes are gone. */
  function Relieved(pods: map<string, Pod>, e: Engine, a: string): Engine {
    if a in pods then WithoutVolumes(e, pods[a].mountVolumes) else e
  }

  function Owned(pods: map<string, Pod>, a: string): set<string> {
    if a in pods then ToSet(pods[a].mountVolumes) else {}
  }

  lemma VolumesGrew(pods: map<string, Pod>, e: Engine, f: Engine)
    requires MapFits(pods, e) && f.pods == e.pods && e.volumes <= f.volumes
    ensures MapFits(pods, f)
  {
    forall a | a in pods ensures EntryOk(pods, f, a) { assert EntryOk(pods, e, a); }
  }

  // ---------------------------------------------------------------- the second tick

  lemma {:induction false} FirstDecisiveOf(a: seq<CheckStatus>, b: seq<CheckStatus>)
    ensures FirstDecisive(a + b) == if FirstDecisive(a).Some? then FirstDecisive(a) else FirstDecisive(b)
  {
    if a == [] {
      assert a + b == b;
    } else {
      assert (a + b)[1..] == a[1..] + b;
      FirstDecisiveOf(a[1..], b);
    }
  }

  /** The rows of the query, with this worker's own among those of the others. */
  function Rows(before: seq<CheckStatus>, own: seq<CheckStatus>, after: seq<CheckStatus>): seq<CheckStatus> {
    before + own + after
  }

  lemma RowMembers(before: seq<CheckStatus>, own: seq<CheckStatus>, after: seq<CheckStatus>)
    ensures forall s :: s in Rows(before, own, after) <==> s in own || s in before + after
    ensures forall s :: AllAre(Rows(before, own, after), s) <==> AllAre(own, s) && AllAre(before + after, s)
  {
    assert forall t :: t in Rows(before, own, after) <==> t in own || t in before + after;
  }

  lemma RowDecides(before: seq<CheckStatus>, own: CheckStatus, after: seq<CheckStatus>)
    requires own != Failed && own != Deleting
    ensures FirstDecisive(Rows(before, [own], after)) == FirstDecisive(before + after)
  {
    FirstDecisiveOf(before + [own], after);
    FirstDecisiveOf(before, [own]);
    FirstDecisiveOf(before, after);
    assert FirstDecisive([own]) == FirstDecisive([own][1..]);
  }

  /**
    A failed report settles a deploying agent; a ready one leaves it deploying exactly while
    another worker is pending, and makes it live otherwise.
   */
  lemma DeployingReportMoves(before: seq<CheckStatus>, own: seq<CheckStatus>, after: seq<CheckStatus>)
    requires DeriveStatus(Rows(before, own, after)) == Some(Deploying)
    ensures DeriveStatus(Rows(before, [Failed], after)) == Some(FailedState)
    ensures DeriveStatus(Rows(before, [Ready], after)) == Some(if Pending in before + after then Deploying else Live)
  {
    var others := before + after;
    DerivedStatusMeaning(Rows(before, own, after));
    DerivedStatusMeaning(Rows(before, [Failed], after));
    DerivedStatusMeaning(Rows(before, [Ready], after));
    RowMembers(before, own, after);
    RowMembers(before, [Ready], after);
    NoneDecides(before);
    assert FirstDecisive(before) == None by { assert forall t :: t in before ==> t in others; }
    FirstDecisiveOf(before + [Failed], after);
    FirstDecisiveOf(before, [Failed]);
    if Pending !in others {
      forall t | t in others ensures t == Ready { assert t in Rows(before, own, after); }
    }
  }

  /**
    A deleted report ends the deletion exactly when every other worker is deleted. Otherwise
    the agent stays deleting unless another worker failed first: a worker that stays ready
    keeps it deleting however often this one reports.
   */
  lemma DeletedReportMoves(before: seq<CheckStatus>, after: seq<CheckStatus>)
    ensures var others := before + after;
      var now := DeriveStatus(Rows(before, [Deleted], after));
      && (now == Some(DeletedState) <==> AllAre(others, Deleted))
      && (now == Some(FailedState) <==> FirstDecisive(others) == Some(Failed))
      && (now == Some(DeletingState) <==> FirstDecisive(others) != Some(Failed) && !AllAre(others, Deleted))
  {
    var others, rows := before + after, Rows(before, [Deleted], after);
    DerivedStatusMeaning(rows);
    RowMembers(before, [Deleted], after);
    RowDecides(before, Deleted, after);
    NoneDecides(others);
    NoneDecides(rows);
    assert AllAre(rows, Deleted) <==> AllAre(others, Deleted);
  }

  /** The newest statuses of an agent's workers: this one's, if any, among those of the others. */
  datatype Workers = Workers(before: seq<CheckStatus>, own: seq<CheckStatus>, after: seq<CheckStatus>)

  function StateOf(w: Workers, report: Option<CheckStatus>): Option<AgentState> {
    DeriveStatus(Rows(w.before, if report.Some? then [report.value] else w.own, w.after))
  }

  /** What the repository derives for every agent once `reports` are in. */
  function Derived(rows: map<string, Workers>, reports: seq<Check>): map<string, Option<AgentState>> {
    map a | a in rows :: StateOf(rows[a], Latest(reports, a))
  }

  /**
    Whatever the other workers' statuses, after an agent's outcome its newly derived state asks
    for nothing the tick has not done: if it is deploying its pod runs, if it is deleting it is
    out of the map.
   */
  lemma OutcomeIsSettled(w: Workers, was: bool, now: bool, runs: bool, report: Option<CheckStatus>)
    requires Outcome(StateOf(w, None), was, now, runs, report)
    ensures StateOf(w, report) == Some(Deploying) ==> runs
    ensures StateOf(w, report) == Some(DeletingState) ==> !now
  {
    if StateOf(w, None) == Some(Deploying) {
      DeployingReportMoves(w.before, w.own, w.after);
    } else if StateOf(w, None) == Some(DeletingState) {
      DeletedReportMoves(w.before, w.after);
    }
  }

  lemma TickSettles(
      agents: seq<Agent>, rows: map<string, Workers>,
      before: set<string>, now: set<string>, running: set<string>, reports: seq<Check>)
    requires forall i :: 0 <= i < |agents| ==> agents[i].name in rows
    requires AllReconciled(agents, Derived(rows, []), before, now, running, reports)
    ensures forall i :: 0 <= i < |agents| ==>
      var a := agents[i].name;
      var state := Derived(rows, reports)[a];
      (state == Some(Deploying) ==> a in running) && (state == Some(DeletingState) ==> a !in now)
  {
    forall i | 0 <= i < |agents|
      ensures var a := agents[i].name;
        var state := Derived(rows, reports)[a];
        (state == Some(Deploying) ==> a in running) && (state == Some(DeletingState) ==> a !in now)
    {
      var a := agents[i].name;
      assert Settles(Derived(rows, []), a, before, now, running, reports);
      OutcomeIsSettled(rows[a], a in before, a in now, a in running, Latest(reports, a));
    }
  }
}
