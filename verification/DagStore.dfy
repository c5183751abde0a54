/**
  The SQL store behind the history: sessions, branches, an append-only node table with
  foreign keys, and one typed table per message kind.
 */
module DagStore {
  import opened Text
  import opened Timestamps
  import opened Dag
  import opened Merkle

  // ---------------------------------------------------------------- tables

  datatype Session = Session(externalId: string, name: string, agent: string, defaultBranch: int)

  datatype Branch = Branch(name: string, session: string, forkPoint: Option<NodeId>, brokenAt: Option<Utc>)

  /** A turn of conversation as agents see it. */
  datatype ChatMessage =
    | System(content: string)
    | User(content: string)
    | Agent(answer: Option<string>, toolCalls: Option<string>)
    | Tool(toolCallId: string, result: string)

  /** What a typed row holds beyond its message id. */
  datatype Body =
    | InvokeBody(currentInput: seq<ChatMessage>)
    | CompleteBody(content: Option<string>, toolCalls: Option<string>)
    | SvcRequestBody(toolCallId: string)
    | SvcResponseBody(payload: string)
    | PromoteBody(branch: int)
    | OtherBody

  datatype Detail = Detail(messageId: string, body: Body)

  /** A row of `dag_nodes`. The `created_at` column holds `Rfc3339(at)`; `rank` is its insertion order. */
  datatype Row = Row(
    parent: Option<NodeId>,
    kind: MessageType,
    session: Option<string>,
    submission: string,
    branch: Option<int>,
    at: Utc,
    rank: nat)

  datatype Store = Store(
    sessions: map<string, Session>,
    branches: map<int, Branch>,
    nextBranch: int,
    nodes: map<NodeId, Row>,
    details: map<(MessageType, NodeId), Detail>)

  const EMPTY_STORE := Store(map[], map[], 1, map[], map[])

  datatype Outcome = Done | Refused

  /** Root is stored as NULL, so that the foreign key holds. */
  function ParentForSql(id: NodeId): Option<NodeId> { if id == ROOT then None else Some(id) }

  predicate ForeignKeysHold(s: Store, hash: NodeId, row: Row) {
    && (row.parent.Some? ==> row.parent.value in s.nodes || row.parent.value == hash)
    && (row.session.Some? ==> row.session.value in s.sessions)
    && (row.branch.Some? ==> row.branch.value in s.branches)
  }

  /** INSERT OR IGNORE: a known hash is skipped before any foreign key is looked at. */
  function InsertRow(s: Store, hash: NodeId, row: Row): (Store, Outcome) {
    if hash in s.nodes then (s, Done)
    else if ForeignKeysHold(s, hash, row) then (s.(nodes := s.nodes[hash := row.(rank := |s.nodes|)]), Done)
    else (s, Refused)
  }

  predicate MessageIdTaken(s: Store, kind: MessageType, id: string) {
    exists k :: k in s.details && k.0 == kind && s.details[k].messageId == id
  }

  function InsertDetail(s: Store, kind: MessageType, hash: NodeId, d: Detail): (Store, Outcome) {
    if (kind, hash) in s.details || MessageIdTaken(s, kind, d.messageId) then (s, Done)
    else if d.body.PromoteBody? && d.body.branch !in s.branches then (s, Refused)
    else (s.(details := s.details[(kind, hash) := d]), Done)
  }

  /** Both inserts of one `insert_*_node`, under one lock; the first refusal ends it. */
  function InsertNode(s: Store, hash: NodeId, row: Row, d: Detail): (Store, Outcome) {
    var (t, o) := InsertRow(s, hash, row);
    if o == Refused then (t, o) else InsertDetail(t, row.kind, hash, d)
  }

  predicate SessionClashes(s: Store, id: string, x: Session) {
    id in s.sessions
    || exists k :: k in s.sessions && (s.sessions[k].name == x.name || s.sessions[k].externalId == x.externalId)
  }

  /** INSERT OR IGNORE: success is reported even when another session's name was in the way. */
  function CreateSession(s: Store, id: string, x: Session): Store {
    if SessionClashes(s, id, x) then s else s.(sessions := s.sessions[id := x])
  }

  predicate BranchNameTaken(s: Store, name: string, session: string, but: Option<int>) {
    exists b :: b in s.branches && Some(b) != but && s.branches[b].name == name && s.branches[b].session == session
  }

  function CreateBranch(s: Store, name: string, session: string, forkPoint: Option<NodeId>): (Store, Option<int>) {
    if session !in s.sessions || BranchNameTaken(s, name, session, None) then (s, None)
    else
      (s.(branches := s.branches[s.nextBranch := Branch(name, session, forkPoint, None)],
        nextBranch := s.nextBranch + 1),
       Some(s.nextBranch))
  }

  function RenameBranch(s: Store, b: int, name: string): (Store, Outcome) {
    if b !in s.branches || BranchNameTaken(s, name, s.branches[b].session, Some(b)) then (s, Refused)
    else (s.(branches := s.branches[b := s.branches[b].(name := name)]), Done)
  }

  function SealBranch(s: Store, b: int, at: Utc): (Store, Outcome) {
    if b !in s.branches then (s, Refused)
    else (s.(branches := s.branches[b := s.branches[b].(brokenAt := Some(at))]), Done)
  }

  function SetDefaultBranch(s: Store, session: string, b: int): (Store, Outcome) {
    if session !in s.sessions then (s, Refused)
    else (s.(sessions := s.sessions[session := s.sessions[session].(defaultBranch := b)]), Done)
  }

  /** No branch of the session but `b` bears the name. */
  predicate FreeName(branches: map<int, Branch>, session: string, name: string, b: Option<int>) {
    forall k :: k in branches && Some(k) != b && branches[k].session == session ==> branches[k].name != name
  }

  /** The store as the program holds it: one connection, tables changed in place. */
  class SqliteDagStore {
    var sessions: map<string, Session>
    var branches: map<int, Branch>
    var nextBranch: int
    var nodes: map<NodeId, Row>
    var details: map<(MessageType, NodeId), Detail>

    function View(): Store reads this { Store(sessions, branches, nextBranch, nodes, details) }

    constructor ()
      ensures View() == EMPTY_STORE
    {
      sessions, branches, nextBranch, nodes, details := map[], map[], 1, map[], map[];
    }

    method Insert(hash: NodeId, row: Row, d: Detail) returns (o: Outcome)
      modifies this`nodes, this`details
      ensures (View(), o) == InsertNode(old(View()), hash, row, d)
      ensures hash in old(nodes) ==> nodes == old(nodes)
      ensures hash !in old(nodes) ==>
        if (row.parent.Some? ==> row.parent.value in old(nodes) || row.parent.value == hash)
           && (row.session.Some? ==> row.session.value in sessions)
           && (row.branch.Some? ==> row.branch.value in branches)
        then nodes == old(nodes)[hash := row.(rank := |old(nodes)|)]
        else o == Refused && nodes == old(nodes) && details == old(details)
      ensures details == old(details) || details == old(details)[(row.kind, hash) := d]
      ensures o == Done && (row.kind, hash) !in old(details) ==>
        ((row.kind, hash) in details <==>
          forall k :: k in old(details) && k.0 == row.kind ==> old(details)[k].messageId != d.messageId)
      ensures o == Refused && hash in nodes ==> d.body.PromoteBody? && d.body.branch !in branches
    {
      if hash !in nodes {
        if !ForeignKeysHold(View(), hash, row) { return Refused; }
        nodes := nodes[hash := row.(rank := |nodes|)];
      }
      if (row.kind, hash) !in details && !MessageIdTaken(View(), row.kind, d.messageId) {
        if d.body.PromoteBody? && d.body.branch !in branches { return Refused; }
        details := details[(row.kind, hash) := d];
      }
      return Done;
    }

    method AddSession(id: string, x: Session)
      modifies this`sessions
      ensures View() == CreateSession(old(View()), id, x)
      ensures sessions == old(sessions) || (id !in old(sessions) && sessions == old(sessions)[id := x])
      ensures id !in old(sessions) ==>
        (id in sessions <==> forall k :: k in old(sessions) ==>
          old(sessions)[k].name != x.name && old(sessions)[k].externalId != x.externalId)
    {
      if !SessionClashes(View(), id, x) { sessions := sessions[id := x]; }
    }

    method AddBranch(name: string, session: string, forkPoint: Option<NodeId>) returns (b: Option<int>)
      modifies this`branches, this`nextBranch
      ensures (View(), b) == CreateBranch(old(View()), name, session, forkPoint)
      ensures b.Some? <==> session in sessions && FreeName(old(branches), session, name, None)
      ensures b.Some? ==> b.value == old(nextBranch) && nextBranch == b.value + 1
      ensures b.Some? ==> branches == old(branches)[b.value := Branch(name, session, forkPoint, None)]
      ensures b.None? ==> branches == old(branches)
    {
      if session !in sessions || BranchNameTaken(View(), name, session, None) { return None; }
      b := Some(nextBranch);
      branches := branches[nextBranch := Branch(name, session, forkPoint, None)];
      nextBranch := nextBranch + 1;
    }

    method Rename(b: int, name: string) returns (o: Outcome)
      modifies this`branches
      ensures (View(), o) == RenameBranch(old(View()), b, name)
      ensures o == Done <==> b in old(branches) && FreeName(old(branches), old(branches)[b].session, name, Some(b))
      ensures branches == if o == Done then old(branches)[b := old(branches)[b].(name := name)] else old(branches)
    {
      if b !in branches || BranchNameTaken(View(), name, branches[b].session, Some(b)) { return Refused; }
      branches := branches[b := branches[b].(name := name)];
      return Done;
    }

    method Seal(b: int, at: Utc) returns (o: Outcome)
      modifies this`branches
      ensures (View(), o) == SealBranch(old(View()), b, at)
      ensures o == Done <==> b in old(branches)
      ensures branches == if o == Done then old(branches)[b := old(branches)[b].(brokenAt := Some(at))]
          else old(branches)
    {
      if b !in branches { return Refused; }
      branches := branches[b := branches[b].(brokenAt := Some(at))];
      return Done;
    }

    method SetDefault(session: string, b: int) returns (o: Outcome)
      modifies this`sessions
      ensures (View(), o) == SetDefaultBranch(old(View()), session, b)
      ensures o == Done <==> session in old(sessions)
      ensures sessions ==
        if o == Done then old(sessions)[session := old(sessions)[session].(defaultBranch := b)] else old(sessions)
    {
      if session !in sessions { return Refused; }
      sessions := sessions[session := sessions[session].(defaultBranch := b)];
      return Done;
    }

    /** Promotion: the session's old main is sealed and renamed, the promoted branch becomes main. */
    method Promote(session: string, promoted: int, found: Option<int>, sealedName: string, at: Utc)
      requires FirstNamedMain(View(), found)
      modifies this`branches, this`sessions
      ensures View() == SendPromote(old(View()), session, promoted, found, sealedName, at)
    {
      var known := promoted in branches;
      if found.Some? && branches[found.value].session == session {
        var o1 := Seal(found.value, at);
        var o2 := Rename(found.value, sealedName);
      }
      if known {
        var o3 := Rename(promoted, "main");
        var o4 := SetDefault(session, promoted);
      }
    }
  }

  // ---------------------------------------------------------------- runs

  datatype Op =
    | OpInsert(hash: NodeId, row: Row, detail: Detail)
    | OpSession(id: string, session: Session)
    | OpBranch(name: string, ofSession: string, forkPoint: Option<NodeId>)
    | OpRename(branch: int, newName: string)
    | OpSeal(sealed: int, at: Utc)
    | OpDefault(forSession: string, newDefault: int)

  function Apply(s: Store, op: Op): Store {
    match op
    case OpInsert(h, row, d) => InsertNode(s, h, row, d).0
    case OpSession(id, x) => CreateSession(s, id, x)
    case OpBranch(name, session, fork) => CreateBranch(s, name, session, fork).0
    case OpRename(b, name) => RenameBranch(s, b, name).0
    case OpSeal(b, at) => SealBranch(s, b, at).0
    case OpDefault(session, b) => SetDefaultBranch(s, session, b).0
  }

  function Replay(s: Store, ops: seq<Op>): Store {
    if ops == [] then s else Apply(Replay(s, ops[..|ops| - 1]), ops[|ops| - 1])
  }

  /** A row's parent is NULL, an earlier row, or, which SQLite allows, the row itself. */
  predicate RowFits(nodes: map<NodeId, Row>, sessions: set<string>, branches: set<int>, h: NodeId)
    requires h in nodes
  {
    var r := nodes[h];
    && r.rank < |nodes|
    && (r.parent.Some? ==> r.parent.value in nodes && (r.parent.value == h || nodes[r.parent.value].rank < r.rank))
    && (r.session.Some? ==> r.session.value in sessions)
    && (r.branch.Some? ==> r.branch.value in branches)
  }

  ghost predicate RowsFit(nodes: map<NodeId, Row>, sessions: set<string>, branches: set<int>) {
    forall h {:trigger RowFits(nodes, sessions, branches, h)} :: h in nodes ==> RowFits(nodes, sessions, branches, h)
  }

  predicate SameBranchName(branches: map<int, Branch>, a: int, b: int) {
    a in branches && b in branches && branches[a].name == branches[b].name && branches[a].session == branches[b].session
  }

  ghost predicate BranchesFit(branches: map<int, Branch>, sessions: set<string>, next: int) {
    && next >= 1
    && (forall b :: b in branches ==> branches[b].session in sessions && 1 <= b < next)
    && (forall a, b {:trigger SameBranchName(branches, a, b)} :: SameBranchName(branches, a, b) ==> a == b)
  }

  ghost predicate StoreInv(s: Store) {
    && RowsFit(s.nodes, s.sessions.Keys, s.branches.Keys)
    && BranchesFit(s.branches, s.sessions.Keys, s.nextBranch)
    && (forall k :: k in s.details ==> k.1 in s.nodes)
  }

  /** Nothing is ever taken away or rewritten: rows stay, and so do the rows of the typed tables. */
  ghost predicate Extends(s: Store, t: Store) {
    && (forall h :: h in s.nodes ==> h in t.nodes && t.nodes[h] == s.nodes[h])
    && (forall k :: k in s.details ==> k in t.details && t.details[k] == s.details[k])
    && s.sessions.Keys <= t.sessions.Keys && s.branches.Keys <= t.branches.Keys
  }

  lemma InsertRowKeepsInv(s: Store, h: NodeId, row: Row)
    requires StoreInv(s)
    ensures var t := InsertRow(s, h, row).0; StoreInv(t) && Extends(s, t)
  {
    var t := InsertRow(s, h, row).0;
    forall k | k in t.nodes ensures RowFits(t.nodes, t.sessions.Keys, t.branches.Keys, k) {
      if k in s.nodes { assert RowFits(s.nodes, s.sessions.Keys, s.branches.Keys, k); }
      if k == h && row.parent.Some? && row.parent.value in s.nodes {
        assert RowFits(s.nodes, s.sessions.Keys, s.branches.Keys, row.parent.value);
      }
    }
  }

  lemma InsertKeepsInv(s: Store, h: NodeId, row: Row, d: Detail)
    requires StoreInv(s)
    ensures var t := InsertNode(s, h, row, d).0; StoreInv(t) && Extends(s, t)
  {
    InsertRowKeepsInv(s, h, row);
  }

  lemma RowsFitMore(
      nodes: map<NodeId, Row>, sessions: set<string>, branches: set<int>, more: set<string>, wider: set<int>)
    requires RowsFit(nodes, sessions, branches) && sessions <= more && branches <= wider
    ensures RowsFit(nodes, more, wider)
  {
    forall k | k in nodes ensures RowFits(nodes, more, wider, k) { assert RowFits(nodes, sessions, branches, k); }
  }

  lemma BranchOpKeepsBranches(s: Store, op: Op)
    requires BranchesFit(s.branches, s.sessions.Keys, s.nextBranch) && !op.OpInsert?
    ensures var t := Apply(s, op);
      && BranchesFit(t.branches, t.sessions.Keys, t.nextBranch)
      && s.sessions.Keys <= t.sessions.Keys && s.branches.Keys <= t.branches.Keys
  {
    var t := Apply(s, op);
    forall a, b | SameBranchName(t.branches, a, b) ensures a == b {
      assert SameBranchName(s.branches, a, b) ==> a == b;
    }
  }

  lemma BranchOpKeepsInv(s: Store, op: Op)
    requires StoreInv(s) && !op.OpInsert?
    ensures StoreInv(Apply(s, op)) && Extends(s, Apply(s, op))
  {
    var t := Apply(s, op);
    BranchOpKeepsBranches(s, op);
    RowsFitMore(s.nodes, s.sessions.Keys, s.branches.Keys, t.sessions.Keys, t.branches.Keys);
  }

  lemma {:induction false} ReplayKeepsInv(s: Store, ops: seq<Op>)
    requires StoreInv(s)
    ensures StoreInv(Replay(s, ops)) && Extends(s, Replay(s, ops))
  {
    if ops != [] {
      var k := |ops| - 1;
      ReplayKeepsInv(s, ops[..k]);
      var m, op := Replay(s, ops[..k]), ops[k];
      if op.OpInsert? { InsertKeepsInv(m, op.hash, op.row, op.detail); } else { BranchOpKeepsInv(m, op); }
    }
  }

  // ---------------------------------------------------------------- promote

  /** `get_branch_by_name("main")`: some branch of that name, in whatever session it may be. */
  predicate FirstNamedMain(s: Store, found: Option<int>) {
    match found
    case Some(b) => b in s.branches && s.branches[b].name == "main"
    case None => forall b :: b in s.branches ==> s.branches[b].name != "main"
  }

  function SendPromote(s: Store, session: string, promoted: int, found: Option<int>, sealedName: string, at: Utc): Store
    requires FirstNamedMain(s, found)
  {
    var t :=
      if found.Some? && s.branches[found.value].session == session
      then RenameBranch(SealBranch(s, found.value, at).0, found.value, sealedName).0
      else s;
    if promoted !in s.branches then t
    else SetDefaultBranch(RenameBranch(t, promoted, "main").0, session, promoted).0
  }

  predicate NameTaken(s: Store, name: string, session: string) {
    exists b :: b in s.branches && s.branches[b].name == name && s.branches[b].session == session
  }

  /** Whether the promoted branch will carry the name main. */
  predicate Promotes(s: Store, session: string, promoted: int, found: Option<int>, sealedName: string)
    requires promoted in s.branches && FirstNamedMain(s, found)
  {
    var home := s.branches[promoted].session;
    s.branches[promoted].name == "main" ||
    if found.Some? && s.branches[found.value].session == session == home then !NameTaken(s, sealedName, session)
    else !NameTaken(s, "main", home)
  }

  /**
    What becomes of the main that was found: if it is the session's own it is marked as broken
    and, unless it is itself promoted, bears the sealed name if that was free; else it stays.
   */
  predicate OldMainIsSealed(
      s: Store, t: Store, session: string, promoted: int, oldMain: int, sealedName: string, at: Utc)
    requires oldMain in s.branches && oldMain in t.branches
  {
    var b, c := s.branches[oldMain], t.branches[oldMain];
    if b.session != session then oldMain != promoted ==> c == b
    else
      && c.brokenAt == Some(at) && c.session == session && c.forkPoint == b.forkPoint
      && (oldMain != promoted ==> c.name == if NameTaken(s, sealedName, session) then "main" else sealedName)
  }

  lemma OwnMainMoves(s: Store, b: int, session: string, sealedName: string, at: Utc)
    requires StoreInv(s) && b in s.branches && s.branches[b].session == session && s.branches[b].name == "main" &&
        sealedName != "main"
    ensures var t := RenameBranch(SealBranch(s, b, at).0, b, sealedName).0;
      && t.branches.Keys == s.branches.Keys && t.sessions == s.sessions
      && (forall c :: c in s.branches && c != b ==> t.branches[c] == s.branches[c])
      && t.branches[b] == s.branches[b].(brokenAt := Some(at),
           name := if NameTaken(s, sealedName, session) then "main" else sealedName)
  {
    var s1 := SealBranch(s, b, at).0;
    if NameTaken(s, sealedName, session) {
      var c :| c in s.branches && s.branches[c].name == sealedName && s.branches[c].session == session;
      assert c in s1.branches && Some(c) != Some(b) && s1.branches[c].name == sealedName &&
        s1.branches[c].session == session;
      assert BranchNameTaken(s1, sealedName, session, Some(b));
    }
  }

  /**
    When promotion works. The lookup of the old main is by name over all sessions, so it may
    find another session's. The promoted branch becomes main exactly when the branch found is
    this session's own and its sealed name is free, or no main stands in the way.
   */
  lemma PromoteIsExact(s: Store, session: string, promoted: int, found: Option<int>, sealedName: string, at: Utc)
    requires StoreInv(s) && FirstNamedMain(s, found) && promoted in s.branches && sealedName != "main"
    ensures var t := SendPromote(s, session, promoted, found, sealedName, at);
      && StoreInv(t) && Extends(s, t)
      && (session in s.sessions ==> t.sessions[session].defaultBranch == promoted)
      && (t.branches[promoted].name == "main" <==> Promotes(s, session, promoted, found, sealedName))
      && (forall b :: b in s.branches && b != promoted && Some(b) != found ==> t.branches[b] == s.branches[b])
      && (found.Some? ==> OldMainIsSealed(s, t, session, promoted, found.value, sealedName, at))
  {
    PromoteOps(s, session, promoted, found, sealedName, at);
    var home := s.branches[promoted].session;
    if found.Some? && s.branches[found.value].session == session {
      var b := found.value;
      OwnMainMoves(s, b, session, sealedName, at);
      var s2 := RenameBranch(SealBranch(s, b, at).0, b, sealedName).0;
      MainTakenAfter(s, s2, b, promoted);
    } else if NameTaken(s, "main", home) && s.branches[promoted].name != "main" {
      var c :| c in s.branches && s.branches[c].name == "main" && s.branches[c].session == home;
      assert BranchNameTaken(s, "main", home, Some(promoted));
    } else if s.branches[promoted].name == "main" {
      forall c | c in s.branches && s.branches[c].name == "main" && s.branches[c].session == home
        ensures c == promoted {
        assert SameBranchName(s.branches, c, promoted);
      }
    }
  }

  /** Whether main is still in the way once branch `b`, the main of its session, may have been renamed. */
  lemma MainTakenAfter(s: Store, t: Store, b: int, promoted: int)
    requires StoreInv(s) && b in s.branches && promoted in s.branches && s.branches[b].name == "main"
    requires t.branches.Keys == s.branches.Keys && t.branches[b].session == s.branches[b].session
    requires forall c :: c in s.branches && c != b ==> t.branches[c] == s.branches[c]
    ensures var home := s.branches[promoted].session;
      BranchNameTaken(t, "main", home, Some(promoted)) <==>
        promoted != b && s.branches[promoted].name != "main" &&
        if home == s.branches[b].session then t.branches[b].name == "main" else NameTaken(s, "main", home)
  {
    var home := s.branches[promoted].session;
    if BranchNameTaken(t, "main", home, Some(promoted)) {
      var c :| c in t.branches && Some(c) != Some(promoted) && t.branches[c].name == "main" &&
        t.branches[c].session == home;
      assert !SameBranchName(s.branches, c, promoted);
      assert SameBranchName(s.branches, c, b) ==> c == b;
    }
    if promoted != b && s.branches[promoted].name != "main" {
      if home == s.branches[b].session && t.branches[b].name == "main" {
        assert BranchNameTaken(t, "main", home, Some(promoted));
      }
      if home != s.branches[b].session && NameTaken(s, "main", home) {
        var c :| c in s.branches && s.branches[c].name == "main" && s.branches[c].session == home;
        assert c in t.branches && Some(c) != Some(promoted) && t.branches[c] == s.branches[c];
      }
    }
  }

  lemma ExtendsTransitive(s: Store, t: Store, u: Store)
    requires Extends(s, t) && Extends(t, u)
    ensures Extends(s, u)
  {}

  lemma SealAndRenameKeep(s: Store, b: int, name: string, at: Utc)
    requires StoreInv(s)
    ensures var t := RenameBranch(SealBranch(s, b, at).0, b, name).0; StoreInv(t) && Extends(s, t)
  {
    var s1 := Apply(s, OpSeal(b, at));
    BranchOpKeepsInv(s, OpSeal(b, at));
    BranchOpKeepsInv(s1, OpRename(b, name));
    ExtendsTransitive(s, s1, Apply(s1, OpRename(b, name)));
  }

  lemma BecomesMainKeeps(s: Store, session: string, b: int)
    requires StoreInv(s)
    ensures var t := SetDefaultBranch(RenameBranch(s, b, "main").0, session, b).0; StoreInv(t) && Extends(s, t)
  {
    var s1 := Apply(s, OpRename(b, "main"));
    BranchOpKeepsInv(s, OpRename(b, "main"));
    BranchOpKeepsInv(s1, OpDefault(session, b));
    ExtendsTransitive(s, s1, Apply(s1, OpDefault(session, b)));
  }

  lemma PromoteOps(s: Store, session: string, promoted: int, found: Option<int>, sealedName: string, at: Utc)
    requires StoreInv(s) && FirstNamedMain(s, found)
    ensures var t := SendPromote(s, session, promoted, found, sealedName, at); StoreInv(t) && Extends(s, t)
  {
    var t := s;
    if found.Some? && s.branches[found.value].session == session {
      t := RenameBranch(SealBranch(s, found.value, at).0, found.value, sealedName).0;
      SealAndRenameKeep(s, found.value, sealedName, at);
    }
    if promoted in s.branches {
      BecomesMainKeeps(t, session, promoted);
      ExtendsTransitive(s, t, SendPromote(s, session, promoted, found, sealedName, at));
    }
  }
}
