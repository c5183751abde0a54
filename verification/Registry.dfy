/**
  The write-through registry: an in-memory cache in front of a repository, where any disk
  operation may fail after the cache was changed, and a restart rebuilds the cache. The
  methods here are calls that nothing interrupts; `RegistryRuns` lets calls interleave.
 */
module Registry {
  import opened Text

  /** `engine` is what the model needs: its type and provider. */
  datatype Model = Model(engine: string, path: string)

  /** `config` stands for everything compared for idempotency, the required models among it. */
  datatype Agent = Agent(config: string, models: set<string>)

  datatype Disk = Disk(models: map<string, Model>, agents: map<string, Agent>)

  datatype Cache = Cache(
    models: map<string, Model>,
    agents: map<string, Agent>,
    engines: set<string>,
    fleets: map<string, set<string>>)

  datatype Answer = Fine | Gone | Missing | Rejected | NoIdentity | InUse | DiskError

  // ---------------------------------------------------------------- operations

  predicate Admits(c: Cache, a: Agent) {
    forall m :: m in a.models ==> m in c.models && c.models[m].engine in c.engines
  }

  predicate Required(c: Cache, model: string) { exists a :: a in c.agents && model in c.agents[a].models }

  predicate InFleet(c: Cache, agent: string) { exists f :: f in c.fleets && agent in c.fleets[f] }

  /** Cache first, then disk: a failed save leaves the cache ahead. */
  function RegisterModel(c: Cache, d: Disk, name: string, m: Model, diskOk: bool): (Cache, Disk, Answer) {
    if m.engine !in c.engines then (c, d, Rejected)
    else
      var after := c.(models := c.models[name := m]);
      if diskOk then (after, d.(models := d.models[name := m]), Fine) else (after, d, DiskError)
  }

  /** The checks that come from outside the call. */
  datatype Outcome = Outcome(capable: bool, identity: bool, disk: bool)

  /**
    `capable` is the outcome of the runtime, storage and service checks. Only an agent that
    is not cached yet is checked and given an identity.
   */
  function RegisterAgent(c: Cache, d: Disk, name: string, a: Agent, ok: Outcome): (Cache, Disk, Answer) {
    if name in c.agents && c.agents[name] != a then (c, d, Rejected)
    else if name !in c.agents && !(ok.capable && Admits(c, a)) then (c, d, Rejected)
    else if name !in c.agents && !ok.identity then (c, d, NoIdentity)
    else
      var after := c.(agents := c.agents[name := a]);
      if ok.disk then (after, d.(agents := d.agents[name := a]), Fine) else (after, d, DiskError)
  }

  /** Disk first, then cache; a model that is only cached stays cached. */
  function DeleteModel(c: Cache, d: Disk, name: string, diskOk: bool): (Cache, Disk, Answer) {
    if name !in c.models then (c, d, Missing)
    else if Required(c, name) then (c, d, InUse)
    else if !diskOk then (c, d, DiskError)
    else if name !in d.models then (c, d, Missing)
    else (c.(models := c.models - {name}), d.(models := d.models - {name}), Gone)
  }

  function DeleteAgent(c: Cache, d: Disk, name: string, diskOk: bool): (Cache, Disk, Answer) {
    if name !in c.agents then (c, d, Missing)
    else if InFleet(c, name) then (c, d, InUse)
    else if !diskOk then (c, d, DiskError)
    else if name !in d.agents then (c, d, Missing)
    else (c.(agents := c.agents - {name}), d.(agents := d.agents - {name}), Gone)
  }

  predicate Loadable(d: Disk, engines: set<string>) { forall m :: m in d.models ==> d.models[m].engine in engines }

  /** Models are validated against the configured engines, agents are not validated at all. */
  function Load(d: Disk, engines: set<string>): Option<Cache> {
    if Loadable(d, engines) then Some(Cache(d.models, d.agents, engines, map[])) else None
  }

  class PersistentRegistry {
    var cache: Cache
    var disk: Disk

    constructor (d: Disk, engines: set<string>)
      requires Loadable(d, engines)
      ensures Some(cache) == Load(d, engines) && disk == d
    {
      var models: map<string, Model>, agents: map<string, Agent> := map[], map[];
      var todo := d.models.Keys;
      while todo != {}
        invariant todo <= d.models.Keys && models == map m | m in d.models && m !in todo :: d.models[m]
        decreases todo
      {
        var m :| m in todo;
        models := models[m := d.models[m]];
        todo := todo - {m};
      }
      todo := d.agents.Keys;
      while todo != {}
        invariant todo <= d.agents.Keys && agents == map a | a in d.agents && a !in todo :: d.agents[a]
        decreases todo
      {
        var a :| a in todo;
        agents := agents[a := d.agents[a]];
        todo := todo - {a};
      }
      assert models == d.models && agents == d.agents;
      cache := Cache(models, agents, engines, map[]);
      disk := d;
    }

    /** Fails when a stored model's engine is not configured. */
    static method Open(d: Disk, engines: set<string>) returns (r: PersistentRegistry?)
      ensures r == null <==> Load(d, engines).None?
      ensures r != null ==> fresh(r) && Some(r.cache) == Load(d, engines) && r.disk == d
    {
      if !Loadable(d, engines) { return null; }
      r := new PersistentRegistry(d, engines);
    }

    method AddModel(name: string, m: Model, diskOk: bool) returns (r: Answer)
      modifies this
      ensures (cache, disk, r) == RegisterModel(old(cache), old(disk), name, m, diskOk)
      ensures r == if m.engine !in old(cache.engines) then Rejected else if diskOk then Fine else DiskError
      ensures r == Rejected ==> cache == old(cache) && disk == old(disk)
      ensures r != Rejected ==> cache == old(cache).(models := old(cache.models)[name := m])
      ensures r != Rejected ==> disk == if diskOk then old(disk).(models := old(disk.models)[name := m]) else old(disk)
    {
      if m.engine !in cache.engines { return Rejected; }
      cache := cache.(models := cache.models[name := m]);
      if !diskOk { return DiskError; }
      disk := disk.(models := disk.models[name := m]);
      return Fine;
    }

    method AddAgent(name: string, a: Agent, ok: Outcome) returns (r: Answer)
      modifies this
      ensures (cache, disk, r) == RegisterAgent(old(cache), old(disk), name, a, ok)
      ensures r == Rejected <==>
        if name in old(cache.agents) then old(cache.agents)[name] != a
        else !ok.capable || !(forall m :: m in a.models ==>
          m in old(cache.models) && old(cache.models)[m].engine in old(cache.engines))
      ensures r == NoIdentity ==> name !in old(cache.agents) && !ok.identity
      ensures r == Fine || r == DiskError ==> (name in old(cache.agents) || ok.identity) && (r == Fine <==> ok.disk)
      ensures r == Fine || r == DiskError ==> cache == old(cache).(agents := old(cache.agents)[name := a])
      ensures r == Fine || r == DiskError || (cache == old(cache) && disk == old(disk))
      ensures disk == if r == Fine then old(disk).(agents := old(disk.agents)[name := a]) else old(disk)
      ensures r in {Fine, DiskError, Rejected, NoIdentity}
    {
      if name in cache.agents {
        if cache.agents[name] != a { return Rejected; }
      } else {
        if !ok.capable || !Admits(cache, a) { return Rejected; }
        if !ok.identity { return NoIdentity; }
        cache := cache.(agents := cache.agents[name := a]);
      }
      assert cache == old(cache).(agents := old(cache).agents[name := a]);
      if !ok.disk { return DiskError; }
      disk := disk.(agents := disk.agents[name := a]);
      return Fine;
    }

    method RemoveModel(name: string, diskOk: bool) returns (r: Answer)
      modifies this
      ensures (cache, disk, r) == DeleteModel(old(cache), old(disk), name, diskOk)
      ensures r == InUse <==> (name in old(cache.models) &&
        exists b :: b in old(cache.agents) && name in old(cache.agents)[b].models)
      ensures r == Gone <==> name in old(cache.models) && name in old(disk.models) && diskOk && r != InUse
      ensures r == Gone ==> cache == old(cache).(models := old(cache.models) - {name})
      ensures r == Gone ==> disk == old(disk).(models := old(disk.models) - {name})
      ensures r != Gone ==> cache == old(cache) && disk == old(disk)
    {
      if name !in cache.models { return Missing; }
      if Required(cache, name) { return InUse; }
      if !diskOk { return DiskError; }
      if name !in disk.models { return Missing; }
      disk := disk.(models := disk.models - {name});
      cache := cache.(models := cache.models - {name});
      return Gone;
    }

    method RemoveAgent(name: string, diskOk: bool) returns (r: Answer)
      modifies this
      ensures (cache, disk, r) == DeleteAgent(old(cache), old(disk), name, diskOk)
      ensures r == InUse <==> (name in old(cache.agents) &&
        exists f :: f in old(cache.fleets) && name in old(cache.fleets)[f])
      ensures r == Gone <==> name in old(cache.agents) && name in old(disk.agents) && diskOk && r != InUse
      ensures r == Gone ==> cache == old(cache).(agents := old(cache.agents) - {name})
      ensures r == Gone ==> disk == old(disk).(agents := old(disk.agents) - {name})
      ensures r != Gone ==> cache == old(cache) && disk == old(disk)
    {
      if name !in cache.agents { return Missing; }
      if InFleet(cache, name) { return InUse; }
      if !diskOk { return DiskError; }
      if name !in disk.agents { return Missing; }
      disk := disk.(agents := disk.agents - {name});
      cache := cache.(agents := cache.agents - {name});
      return Gone;
    }
  }

  // ---------------------------------------------------------------- agents and their models

  /** Every agent's models are there. */
  predicate Complete(models: map<string, Model>, agents: map<string, Agent>) {
    forall a :: a in agents ==> agents[a].models <= models.Keys
  }

  /** A model goes only if no cached agent requires it, and is refused exactly when one does. */
  lemma OnlyUnusedModelsGo(c: Cache, d: Disk, name: string, diskOk: bool)
    ensures var r := DeleteModel(c, d, name, diskOk);
      && (r.2 == InUse <==> name in c.models && Required(c, name))
      && (r.0.models != c.models ==> r.2 == Gone && r.0.models == c.models - {name} && !Required(c, name))
      && (r.0.models.Keys == c.models.Keys <==> r.2 != Gone)
  {
    if name in c.models { assert name !in (c.models - {name}).Keys; }
  }
}
