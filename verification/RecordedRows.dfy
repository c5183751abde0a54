/**
  What the recording queue leaves in the store of the messages sent through it: each one's
  row, under the parent it was hashed onto, and the chain of a whole conversation.
 */
module RecordedRows {
  import opened Text
  import opened Timestamps
  import opened Dag
  import opened Merkle
  import opened DagStore
  import opened StoreRuns

  // ---------------------------------------------------------------- one message

  /** The foreign keys of the message itself are met. */
  predicate KeysKnown(s: Store, r: Recordable) {
    (r.session.Some? ==> r.session.value in s.sessions) && (r.branch.Some? ==> r.branch.value in s.branches)
  }

  /** The row `id` is the message's, below `parent`. */
  predicate StoredAs(s: Store, id: NodeId, r: Recordable, parent: Option<NodeId>) {
    id in s.nodes &&
    var row := s.nodes[id];
    && row.parent == parent && row.kind == r.message.kind && row.session == r.session
    && row.submission == r.submission && row.branch == r.branch && row.at == r.at
  }

  /** Its typed row comes with it unless a typed row of that kind bears its message id. */
  predicate TypedAs(s: Store, t: Store, id: NodeId, r: Recordable) {
    var k := (r.message.kind, id);
    if (forall x :: x in s.details && x.0 == r.message.kind ==> s.details[x].messageId != r.detail.messageId)
       && (r.detail.body.PromoteBody? ==> r.detail.body.branch in s.branches)
    then k in t.details && t.details[k] == r.detail
    else k !in t.details
  }

  lemma StepExtends(sha: Hash, s: Store, q: QueueStep)
    requires NeverEmpty(sha) && StoreInv(s)
    ensures Extends(s, QueueApply(sha, s, q)) && StoreInv(QueueApply(sha, s, q))
  {
    match q
    case Recorded(r) => var op := RecordOp(sha, s, r); InsertKeepsInv(s, op.hash, op.row, op.detail);
    case Managed(op) => if !op.OpInsert? { BranchOpKeepsInv(s, op); }
  }

  lemma QueueNext(sha: Hash, qs: seq<QueueStep>, q: QueueStep)
    ensures QueueReplay(sha, qs + [q]) == QueueApply(sha, QueueReplay(sha, qs), q)
  {
    assert (qs + [q])[..|qs|] == qs;
  }

  /** `t` has all that `s` has, and is a store that may be reached. */
  ghost predicate Follows(s: Store, t: Store) { Extends(s, t) && StoreInv(t) }

  lemma FollowsNext(sha: Hash, s: Store, before: seq<QueueStep>, q: QueueStep, m: Store)
    requires NeverEmpty(sha) && m == QueueReplay(sha, before) && Follows(s, m)
    ensures Follows(s, QueueReplay(sha, before + [q]))
  {
    QueueNext(sha, before, q);
    StepExtends(sha, m, q);
    ExtendsTransitive(s, m, QueueApply(sha, m, q));
  }

  lemma {:induction false} QueueFollows(
      sha: Hash, qs: seq<QueueStep>, more: seq<QueueStep>, s: Store, all: seq<QueueStep>)
    requires NeverEmpty(sha) && s == QueueReplay(sha, qs) && StoreInv(s) && all == qs + more
    ensures Follows(s, QueueReplay(sha, all))
  {
    if more == [] {
      assert all == qs;
    } else {
      var k := |more| - 1;
      var before := qs + more[..k];
      QueueFollows(sha, qs, more[..k], s, before);
      assert all == before + [more[k]];
      FollowsNext(sha, s, before, more[k], QueueReplay(sha, before));
    }
  }

  lemma InsertNow(s: Store, id: NodeId, row: Row, d: Detail)
    requires id !in s.nodes
    ensures var t := InsertNode(s, id, row, d).0;
      && t.sessions == s.sessions && t.branches == s.branches
      && (ForeignKeysHold(s, id, row) ==> t.nodes == s.nodes[id := row.(rank := |s.nodes|)])
      && (!ForeignKeysHold(s, id, row) ==> t == s)
  {}

  lemma RowNow(sha: Hash, s: Store, r: Recordable, parent: Option<NodeId>, id: NodeId)
    requires ROOT !in s.nodes && id != ROOT && id !in s.nodes
    requires parent == if r.lookup && r.hint in s.nodes then Some(r.hint) else None
    requires id == Step(sha, if parent.Some? then parent.value else ROOT, r.message)
    ensures var t := QueueApply(sha, s, Recorded(r));
      && t.sessions == s.sessions && t.branches == s.branches
      && (KeysKnown(s, r) ==> StoredAs(t, id, r, parent) && t.nodes.Keys == s.nodes.Keys + {id})
      && (!KeysKnown(s, r) ==> t == s)
  {
    var op := RecordOp(sha, s, r);
    assert op.hash == id && op.row.parent == parent;
    InsertNow(s, id, op.row, op.detail);
  }

  lemma TypedNow(sha: Hash, s: Store, r: Recordable, id: NodeId)
    requires StoreInv(s) && id == RecordedId(sha, s, r) && id !in s.nodes && id in QueueApply(sha, s, Recorded(r)).nodes
    ensures TypedAs(s, QueueApply(sha, s, Recorded(r)), id, r)
  {
    assert (r.message.kind, id) !in s.details;
  }

  /**
    What is recorded. A message under a new id is stored exactly if its session and branch are
    known, with everything it carries; its row's parent is the node it was hinted at if that
    was stored at the moment, and NULL otherwise, the same that its id was hashed onto. Its
    typed row comes with it exactly if its message id is new. All this stays, whatever comes
    after.
   */
  lemma RecordedRowsStay(
      sha: Hash, qs: seq<QueueStep>, r: Recordable, more: seq<QueueStep>, parent: Option<NodeId>, id: NodeId,
      s: Store, t: Store)
    requires NeverEmpty(sha) && s == QueueReplay(sha, qs) && t == QueueReplay(sha, qs + [Recorded(r)] + more)
    requires parent == (if r.lookup && r.hint in s.nodes then Some(r.hint) else None)
    requires id == Step(sha, if parent.Some? then parent.value else ROOT, r.message) && id !in s.nodes
    ensures id in QueueReplay(sha, qs + [Recorded(r)]).nodes <==> KeysKnown(s, r)
    ensures KeysKnown(s, r) ==> StoredAs(t, id, r, parent)
    ensures KeysKnown(s, r) && (r.message.kind, id) in QueueReplay(sha, qs + [Recorded(r)]).details ==>
      (r.message.kind, id) in t.details && t.details[(r.message.kind, id)] == r.detail
    ensures KeysKnown(s, r) ==> TypedAs(s, QueueReplay(sha, qs + [Recorded(r)]), id, r)
  {
    QueueRunsReachRoot(sha, qs);
    HashIsNotRoot(sha, if parent.Some? then parent.value else ROOT, r.message);
    RowNow(sha, s, r, parent, id);
    if KeysKnown(s, r) { TypedNow(sha, s, r, id); }
    QueueNext(sha, qs, Recorded(r));
    var now := qs + [Recorded(r)];
    StepExtends(sha, s, Recorded(r));
    QueueFollows(sha, now, more, QueueReplay(sha, now), now + more);
  }

  predicate IsOf(row: Row, submission: string, branch: int, kind: MessageType) {
    row.submission == submission && row.branch == Some(branch) && row.kind == kind
  }

  lemma OneRowMore(s: Store, t: Store, id: NodeId, row: Row, submission: string, branch: int, kind: MessageType)
    requires id !in s.nodes && t.nodes == s.nodes[id := row]
    ensures ExistsInSubmission(t, submission, branch, kind) <==>
        (ExistsInSubmission(s, submission, branch, kind) || IsOf(row, submission, branch, kind))
  {
    if h :| h in s.nodes && IsOf(s.nodes[h], submission, branch, kind) {
      assert h in t.nodes && IsOf(t.nodes[h], submission, branch, kind);
    }
    if IsOf(row, submission, branch, kind) { assert id in t.nodes && IsOf(t.nodes[id], submission, branch, kind); }
  }

  /** After a recording `exists_in_submission` says what it said, and yes to the message's own question. */
  lemma RecordedMessagesExist(
      sha: Hash, s: Store, r: Recordable, id: NodeId, t: Store, submission: string, branch: int, kind: MessageType)
    requires id == RecordedId(sha, s, r) && id !in s.nodes && KeysKnown(s, r) && t == QueueApply(sha, s, Recorded(r))
    ensures ExistsInSubmission(t, submission, branch, kind) <==>
        (ExistsInSubmission(s, submission, branch, kind) ||
         (r.submission == submission && r.branch == Some(branch) && r.message.kind == kind))
  {
    var op := RecordOp(sha, s, r);
    InsertNow(s, id, op.row, op.detail);
    OneRowMore(s, t, id, op.row.(rank := |s.nodes|), submission, branch, kind);
  }

  // ---------------------------------------------------------------- a chain of messages

  /** The message sent in step `p`, and the id it is recorded under. */
  function IdAt(sha: Hash, qs: seq<QueueStep>, p: nat): NodeId
    requires p < |qs| && qs[p].Recorded?
  {
    RecordedId(sha, QueueReplay(sha, qs[..p]), qs[p].record)
  }

  /** Step `p` stores a message that was not stored before. */
  predicate Lands(sha: Hash, qs: seq<QueueStep>, p: nat) {
    p < |qs| && qs[p].Recorded? && qs[p].record.lookup
    && IdAt(sha, qs, p) !in QueueReplay(sha, qs[..p]).nodes && KeysKnown(QueueReplay(sha, qs[..p]), qs[p].record)
  }

  /**
    The steps `ps` are a conversation: the first message is hinted at nothing stored, each
    later one at the id of the one before it; anything may come between.
   */
  predicate Thread(sha: Hash, qs: seq<QueueStep>, ps: seq<nat>) {
    && ps != []
    && (forall i :: 0 <= i < |ps| ==> Lands(sha, qs, ps[i]))
    && (forall i :: 0 < i < |ps| ==> ps[i - 1] < ps[i] && qs[ps[i]].record.hint == IdAt(sha, qs, ps[i - 1]))
    && qs[ps[0]].record.hint !in QueueReplay(sha, qs[..ps[0]]).nodes
  }

  function Said(qs: seq<QueueStep>, ps: seq<nat>): seq<Message>
    requires forall i :: 0 <= i < |ps| ==> ps[i] < |qs| && qs[ps[i]].Recorded?
  {
    seq(|ps|, i requires 0 <= i < |ps| => qs[ps[i]].record.message)
  }

  lemma QueueInv(sha: Hash, qs: seq<QueueStep>)
    requires NeverEmpty(sha)
    ensures StoreInv(QueueReplay(sha, qs)) && ROOT !in QueueReplay(sha, qs).nodes
  {
    QueueRunsReachRoot(sha, qs);
  }

  /** What landed in step `p` is there from then on, below what it was hinted at. */
  lemma LandedRow(sha: Hash, qs: seq<QueueStep>, p: nat, k: nat)
    requires NeverEmpty(sha) && Lands(sha, qs, p) && p < k <= |qs|
    ensures var id, s, t := IdAt(sha, qs, p), QueueReplay(sha, qs[..p]), QueueReplay(sha, qs[..k]);
      && id in t.nodes && id != ROOT
      && t.nodes[id].parent == if qs[p].record.hint in s.nodes then Some(qs[p].record.hint) else None
  {
    var s, r := QueueReplay(sha, qs[..p]), qs[p].record;
    QueueInv(sha, qs[..p]);
    assert qs[..k] == qs[..p] + [Recorded(r)] + qs[p + 1..k];
    RecordedRowsStay(sha, qs[..p], r, qs[p + 1..k], if r.hint in s.nodes then Some(r.hint) else None,
                     IdAt(sha, qs, p), s, QueueReplay(sha, qs[..k]));
    HashIsNotRoot(sha, RecordedParent(s, r), r.message);
  }

  /** In the finished store, each message of the conversation hangs on the one before it. */
  lemma ThreadLinks(sha: Hash, qs: seq<QueueStep>, ps: seq<nat>, i: nat)
    requires NeverEmpty(sha) && Thread(sha, qs, ps) && i < |ps|
    ensures var links := LinksOf(QueueReplay(sha, qs).nodes);
      IdAt(sha, qs, ps[i]) in links &&
      links[IdAt(sha, qs, ps[i])].parent == if i == 0 then ROOT else IdAt(sha, qs, ps[i - 1])
  {
    assert qs[..|qs|] == qs && Lands(sha, qs, ps[i]);
    LandedRow(sha, qs, ps[i], |qs|);
    if i > 0 {
      assert Lands(sha, qs, ps[i - 1]);
      LandedRow(sha, qs, ps[i - 1], ps[i]);
    }
  }

  lemma {:induction false} ThreadHash(sha: Hash, qs: seq<QueueStep>, ps: seq<nat>, i: nat)
    requires NeverEmpty(sha) && Thread(sha, qs, ps) && i < |ps|
    ensures IdAt(sha, qs, ps[i]) == ChainHash(sha, ROOT, Said(qs, ps)[..i + 1])
  {
    var ms := Said(qs, ps)[..i + 1];
    assert Lands(sha, qs, ps[i]) && ms[i] == qs[ps[i]].record.message;
    QueueInv(sha, qs[..ps[i]]);
    assert ms[..i] == Said(qs, ps)[..i];
    if i > 0 {
      assert Lands(sha, qs, ps[i - 1]);
      LandedRow(sha, qs, ps[i - 1], ps[i]);
      ThreadHash(sha, qs, ps, i - 1);
    } else {
      assert ChainHash(sha, ROOT, ms[..0]) == ROOT;
    }
  }

  /** Ids each linked to the one before it, the first to root. */
  ghost predicate Linked(links: Links, ids: seq<NodeId>) {
    forall i: nat {:trigger LinkAt(links, ids, i)} :: i < |ids| ==> LinkAt(links, ids, i)
  }

  predicate LinkAt(links: Links, ids: seq<NodeId>, i: nat)
    requires i < |ids|
  {
    ids[i] in links && links[ids[i]].parent == if i == 0 then ROOT else ids[i - 1]
  }

  lemma {:induction false} LinkedClimb(links: Links, ids: seq<NodeId>, i: nat, k: nat)
    requires Linked(links, ids) && i < |ids| && k <= i + 1
    ensures Climb(links, ids[i], k) == if k == i + 1 then ROOT else ids[i - k]
    decreases k
  {
    assert LinkAt(links, ids, i);
    if k > 0 && i > 0 { LinkedClimb(links, ids, i - 1, k - 1); }
    if k > 0 && i == 0 { assert Climb(links, ids[i], k) == Climb(links, ROOT, 0); }
  }

  function Ids(sha: Hash, qs: seq<QueueStep>, ps: seq<nat>): (ids: seq<NodeId>)
    requires forall i :: 0 <= i < |ps| ==> ps[i] < |qs| && qs[ps[i]].Recorded?
    ensures |ids| == |ps|
  {
    seq(|ps|, i requires 0 <= i < |ps| => IdAt(sha, qs, ps[i]))
  }

  /**
    History can be rebuilt: from any message of a conversation, following parents `k` times
    gives the k-th message before it, and one more time after the first gives root; and the id
    of every message is the content address of the conversation up to it.
   */
  lemma ConversationsAreChains(
      sha: Hash, qs: seq<QueueStep>, ps: seq<nat>, ids: seq<NodeId>, i: nat, k: nat, links: Links)
    requires NeverEmpty(sha) && Thread(sha, qs, ps) && i < |ps| && k <= i + 1 && ids == Ids(sha, qs, ps)
    requires links == LinksOf(QueueReplay(sha, qs).nodes)
    ensures ids[i] in links && Climb(links, ids[i], k) == if k == i + 1 then ROOT else ids[i - k]
    ensures ids[i] == ChainHash(sha, ROOT, Said(qs, ps)[..i + 1])
  {
    ThreadHash(sha, qs, ps, i);
    forall j: nat | j < |ids| ensures LinkAt(links, ids, j) { ThreadLinks(sha, qs, ps, j); }
    assert LinkAt(links, ids, i);
    LinkedClimb(links, ids, i, k);
  }

  // ---------------------------------------------------------------- every conversation can be recorded

  function Prefix(sha: Hash, ms: seq<Message>, i: nat): NodeId
    requires i <= |ms|
  {
    ChainHash(sha, ROOT, ms[..i])
  }

  function SentIn(sha: Hash, ms: seq<Message>, session: string, at: Utc, i: nat): Recordable
    requires i < |ms|
  {
    Recordable(ms[i], Prefix(sha, ms, i), true, Some(session), "", Some(1), at, Detail(Prefix(sha, ms, i), OtherBody))
  }

  /** A new session with its first branch, and then the messages, each hinted at the one before. */
  function Sending(sha: Hash, ms: seq<Message>, session: string, at: Utc, n: nat): seq<QueueStep>
    requires n <= |ms|
  {
    [Managed(OpSession(session, Session("", "", "", 1))), Managed(OpBranch("main", session, None))] +
    seq(n, i requires 0 <= i < n => Recorded(SentIn(sha, ms, session, at, i)))
  }

  predicate SameEnd(sha: Hash, ms: seq<Message>, i: nat, j: nat) {
    i <= |ms| && j <= |ms| && Prefix(sha, ms, i) == Prefix(sha, ms, j)
  }

  /** No two ends of the conversation share an id. */
  ghost predicate DistinctIds(sha: Hash, ms: seq<Message>) {
    forall i: nat, j: nat {:trigger SameEnd(sha, ms, i, j)} :: SameEnd(sha, ms, i, j) ==> i == j
  }

  function Ends(sha: Hash, ms: seq<Message>, n: nat): set<NodeId>
    requires n <= |ms|
  {
    if n == 0 then {} else Ends(sha, ms, n - 1) + {Prefix(sha, ms, n)}
  }

  lemma {:induction false} EndsAre(sha: Hash, ms: seq<Message>, n: nat, i: nat)
    requires n <= |ms| && i <= |ms| && DistinctIds(sha, ms)
    ensures Prefix(sha, ms, i) in Ends(sha, ms, n) <==> 1 <= i <= n
  {
    if n > 0 {
      EndsAre(sha, ms, n - 1, i);
      assert SameEnd(sha, ms, i, n) ==> i == n;
    }
  }

  predicate HoldsUpTo(sha: Hash, ms: seq<Message>, session: string, n: nat, s: Store)
    requires n <= |ms|
  {
    session in s.sessions && 1 in s.branches && s.nodes.Keys == Ends(sha, ms, n)
  }

  lemma SendingStarts(sha: Hash, ms: seq<Message>, session: string, at: Utc)
    ensures HoldsUpTo(sha, ms, session, 0, QueueReplay(sha, Sending(sha, ms, session, at, 0)))
  {
    var q0, q1 := Managed(OpSession(session, Session("", "", "", 1))), Managed(OpBranch("main", session, None));
    QueueNext(sha, [], q0);
    QueueNext(sha, [q0], q1);
    assert [] + [q0] == [q0] && [q0] + [q1] == Sending(sha, ms, session, at, 0);
  }

  lemma NextEnd(sha: Hash, ms: seq<Message>, n: nat)
    requires n < |ms|
    ensures Prefix(sha, ms, n + 1) == Step(sha, Prefix(sha, ms, n), ms[n]) && (n == 0 ==> Prefix(sha, ms, n) == ROOT)
  {
    assert ms[..n + 1][..n] == ms[..n];
  }

  /** The next end is new, and the one before it is there unless it is root. */
  lemma NewEnd(sha: Hash, ms: seq<Message>, n: nat)
    requires DistinctIds(sha, ms) && n < |ms|
    ensures Prefix(sha, ms, n + 1) !in Ends(sha, ms, n)
    ensures if n == 0 then Prefix(sha, ms, n) == ROOT else Prefix(sha, ms, n) in Ends(sha, ms, n)
  {
    EndsAre(sha, ms, n, n);
    EndsAre(sha, ms, n, n + 1);
    NextEnd(sha, ms, n);
  }

  lemma SendNext(
      sha: Hash, ms: seq<Message>, session: string, n: nat, s: Store, r: Recordable, id: NodeId, t: Store)
    requires NeverEmpty(sha) && DistinctIds(sha, ms) && n < |ms| && ROOT !in s.nodes
    requires HoldsUpTo(sha, ms, session, n, s) && id == Prefix(sha, ms, n + 1)
    requires r.message == ms[n] && r.hint == Prefix(sha, ms, n) && r.lookup && KeysKnown(s, r)
    requires t == QueueApply(sha, s, Recorded(r))
    ensures HoldsUpTo(sha, ms, session, n + 1, t) && RecordedId(sha, s, r) == id && id !in s.nodes
  {
    NewEnd(sha, ms, n);
    NextEnd(sha, ms, n);
    HashIsNotRoot(sha, r.hint, ms[n]);
    RowNow(sha, s, r, if r.hint in s.nodes then Some(r.hint) else None, id);
    HoldsNext(sha, ms, session, n, s, t);
  }

  lemma HoldsNext(sha: Hash, ms: seq<Message>, session: string, n: nat, s: Store, t: Store)
    requires n < |ms| && HoldsUpTo(sha, ms, session, n, s) && t.sessions == s.sessions && t.branches == s.branches
    requires t.nodes.Keys == s.nodes.Keys + {Prefix(sha, ms, n + 1)}
    ensures HoldsUpTo(sha, ms, session, n + 1, t)
  {}

  lemma SendingNext(sha: Hash, ms: seq<Message>, session: string, at: Utc, n: nat)
    requires n < |ms|
    ensures Sending(sha, ms, session, at, n + 1) ==
      Sending(sha, ms, session, at, n) + [Recorded(SentIn(sha, ms, session, at, n))]
  {}

  lemma SendStep(
      sha: Hash, ms: seq<Message>, session: string, at: Utc, n: nat, before: seq<QueueStep>, m: Store, s: Store)
    requires NeverEmpty(sha) && DistinctIds(sha, ms) && n < |ms| && m == QueueReplay(sha, before)
    requires HoldsUpTo(sha, ms, session, n, m) && s == QueueApply(sha, m, Recorded(SentIn(sha, ms, session, at, n)))
    ensures HoldsUpTo(sha, ms, session, n + 1, s)
  {
    QueueInv(sha, before);
    SendNext(sha, ms, session, n, m, SentIn(sha, ms, session, at, n), Prefix(sha, ms, n + 1), s);
  }

  lemma SendingStep(
      sha: Hash, ms: seq<Message>, session: string, at: Utc, n: nat, before: seq<QueueStep>, after: seq<QueueStep>)
    requires NeverEmpty(sha) && DistinctIds(sha, ms) && n < |ms| && before == Sending(sha, ms, session, at, n)
    requires after == before + [Recorded(SentIn(sha, ms, session, at, n))]
    requires HoldsUpTo(sha, ms, session, n, QueueReplay(sha, before))
    ensures HoldsUpTo(sha, ms, session, n + 1, QueueReplay(sha, after))
  {
    QueueNext(sha, before, Recorded(SentIn(sha, ms, session, at, n)));
    SendStep(sha, ms, session, at, n, before, QueueReplay(sha, before), QueueReplay(sha, after));
  }

  lemma {:induction false} SendingHolds(
      sha: Hash, ms: seq<Message>, session: string, at: Utc, n: nat, qs: seq<QueueStep>)
    requires NeverEmpty(sha) && DistinctIds(sha, ms) && n <= |ms| && qs == Sending(sha, ms, session, at, n)
    ensures HoldsUpTo(sha, ms, session, n, QueueReplay(sha, qs))
  {
    if n == 0 {
      SendingStarts(sha, ms, session, at);
    } else {
      var before := Sending(sha, ms, session, at, n - 1);
      SendingHolds(sha, ms, session, at, n - 1, before);
      SendingNext(sha, ms, session, at, n - 1);
      SendingStep(sha, ms, session, at, n - 1, before, qs);
    }
  }

  lemma SentLands(sha: Hash, ms: seq<Message>, session: string, at: Utc, qs: seq<QueueStep>, i: nat)
    requires NeverEmpty(sha) && DistinctIds(sha, ms) && i < |ms| && qs == Sending(sha, ms, session, at, |ms|)
    ensures qs[i + 2] == Recorded(SentIn(sha, ms, session, at, i))
    ensures Lands(sha, qs, i + 2) && IdAt(sha, qs, i + 2) == Prefix(sha, ms, i + 1)
  {
    var before, r := Sending(sha, ms, session, at, i), SentIn(sha, ms, session, at, i);
    assert qs[..i + 2] == before;
    SendingHolds(sha, ms, session, at, i, before);
    QueueInv(sha, before);
    var s := QueueReplay(sha, before);
    SendNext(sha, ms, session, i, s, r, Prefix(sha, ms, i + 1), QueueApply(sha, s, Recorded(r)));
  }

  predicate SentAt(sha: Hash, ms: seq<Message>, qs: seq<QueueStep>, ps: seq<nat>, i: int)
    requires 0 <= i < |ps| == |ms|
  {
    && Lands(sha, qs, ps[i]) && IdAt(sha, qs, ps[i]) == Prefix(sha, ms, i + 1) && ps[i] == i + 2
    && qs[ps[i]].record.hint == Prefix(sha, ms, i) && qs[ps[i]].record.message == ms[i]
    && ROOT !in QueueReplay(sha, qs[..ps[i]]).nodes
  }

  lemma SentIsAThread(sha: Hash, ms: seq<Message>, qs: seq<QueueStep>, ps: seq<nat>)
    requires |ps| == |ms| && ms != [] && Prefix(sha, ms, 0) == ROOT
    requires forall i {:trigger SentAt(sha, ms, qs, ps, i)} :: 0 <= i < |ps| ==> SentAt(sha, ms, qs, ps, i)
    ensures Thread(sha, qs, ps) && Said(qs, ps) == ms
  {
    assert SentAt(sha, ms, qs, ps, 0);
    forall i | 0 <= i < |ps| ensures Lands(sha, qs, ps[i]) && qs[ps[i]].record.message == ms[i] {
      assert SentAt(sha, ms, qs, ps, i);
    }
    forall i | 0 < i < |ps| ensures ps[i - 1] < ps[i] && qs[ps[i]].record.hint == IdAt(sha, qs, ps[i - 1]) {
      assert SentAt(sha, ms, qs, ps, i) && SentAt(sha, ms, qs, ps, i - 1);
    }
  }

  /**
    Every conversation whose ends have different ids is recorded as a whole: sent into a new
    session, each message hinted at the one before it, it is a thread of the store.
   */
  lemma ConversationIsRecorded(
      sha: Hash, ms: seq<Message>, session: string, at: Utc, qs: seq<QueueStep>, ps: seq<nat>)
    requires NeverEmpty(sha) && DistinctIds(sha, ms) && ms != []
    requires qs == Sending(sha, ms, session, at, |ms|) && |ps| == |ms| && forall i :: 0 <= i < |ps| ==> ps[i] == i + 2
    ensures Thread(sha, qs, ps) && Said(qs, ps) == ms
  {
    forall i | 0 <= i < |ps| ensures SentAt(sha, ms, qs, ps, i) {
      SentLands(sha, ms, session, at, qs, i);
      QueueInv(sha, qs[..ps[i]]);
    }
    NextEnd(sha, ms, 0);
    SentIsAThread(sha, ms, qs, ps);
  }
}
