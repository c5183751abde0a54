/**
  Rebuilding a conversation from the store: the newest-n query over text timestamps, and the
  walk that turns a branch's rows into messages.
 */
module Projection {
  import opened Text
  import opened Timestamps
  import opened Dag
  import opened DagStore

  // ---------------------------------------------------------------- the newest-n query

  type Rows = map<NodeId, Row>

  predicate OnBranch(nodes: Rows, branch: int, h: NodeId) { h in nodes && nodes[h].branch == Some(branch) }

  ghost predicate TimesValid(nodes: Rows) { forall h {:trigger nodes[h].at} :: h in nodes ==> Valid(nodes[h].at) }

  ghost predicate DistinctTimes(nodes: Rows, branch: int) {
    forall h, k {:trigger SameTime(nodes, branch, h, k)} :: SameTime(nodes, branch, h, k) ==> h == k
  }

  predicate SameTime(nodes: Rows, branch: int, h: NodeId, k: NodeId) {
    OnBranch(nodes, branch, h) && OnBranch(nodes, branch, k) && nodes[h].at == nodes[k].at
  }

  /** Every row of the branch, and nothing else. */
  ghost predicate Lists(nodes: Rows, branch: int, ids: seq<NodeId>) {
    forall h :: h in ids <==> OnBranch(nodes, branch, h)
  }

  predicate Earlier(nodes: Rows, h: NodeId, k: NodeId) { h in nodes && k in nodes && Before(nodes[h].at, nodes[k].at) }

  ghost predicate Sorted(nodes: Rows, ids: seq<NodeId>) {
    forall i, j {:trigger Earlier(nodes, ids[i], ids[j])} :: 0 <= i < j < |ids| ==> Earlier(nodes, ids[i], ids[j])
  }

  ghost predicate Chronological(nodes: Rows, branch: int, ids: seq<NodeId>) {
    Lists(nodes, branch, ids) && Sorted(nodes, ids)
  }

  /** Two different places of a descending answer: the first row's text does not come before the second's. */
  predicate TextDescends(nodes: Rows, h: NodeId, k: NodeId) {
    h != k && (h in nodes && k in nodes && Valid(nodes[h].at) && Valid(nodes[k].at)
               ==> !Precedes(Rfc3339(nodes[h].at), Rfc3339(nodes[k].at)))
  }

  /** ORDER BY created_at DESC, a comparison of texts; ties in any order. */
  ghost predicate NewestFirst(nodes: Rows, branch: int, ids: seq<NodeId>) {
    && Lists(nodes, branch, ids)
    && forall i, j {:trigger TextDescends(nodes, ids[i], ids[j])} :: 0 <= i < j < |ids| ==>
         TextDescends(nodes, ids[i], ids[j])
  }

  function Least(a: nat, b: nat): (c: nat)
    ensures c <= a && c <= b
  {
    if a <= b then a else b
  }

  /** … LIMIT n. */
  ghost predicate SqlAnswer(nodes: Rows, branch: int, n: nat, answer: seq<NodeId>) {
    exists full :: NewestFirst(nodes, branch, full) && answer == full[..Least(n, |full|)]
  }

  function Reverse(s: seq<NodeId>): (r: seq<NodeId>)
    ensures |r| == |s| && forall i :: 0 <= i < |s| ==> r[i] == s[|s| - 1 - i]
  {
    seq(|s|, i requires 0 <= i < |s| => s[|s| - 1 - i])
  }

  lemma ReverseKeepsMembers(s: seq<NodeId>)
    ensures forall h :: h in Reverse(s) <==> h in s
  {
    var r, n := Reverse(s), |s|;
    forall h ensures h in r <==> h in s {
      if h in s { var i :| 0 <= i < n && s[i] == h; assert r[n - 1 - i] == h; }
    }
  }

  lemma EarlierIsStrict(nodes: Rows, h: NodeId, k: NodeId, l: NodeId)
    ensures !(Earlier(nodes, h, k) && Earlier(nodes, k, h))
    ensures Earlier(nodes, h, k) && Earlier(nodes, k, l) ==> Earlier(nodes, h, l)
  {}

  /** Rows of a branch with distinct times: one of two is earlier, and the texts agree. */
  lemma TextsDecide(nodes: Rows, branch: int, h: NodeId, k: NodeId)
    requires TimesValid(nodes) && DistinctTimes(nodes, branch) && OnBranch(nodes, branch, h) &&
        OnBranch(nodes, branch, k) && h != k
    ensures Earlier(nodes, h, k) || Earlier(nodes, k, h)
    ensures TextDescends(nodes, h, k) <==> Earlier(nodes, k, h)
  {
    var a, b := nodes[h].at, nodes[k].at;
    assert !SameTime(nodes, branch, h, k);
    TextOrderIsChronological(a, b);
    TextOrderIsChronological(b, a);
    PrecedesAsymmetric(Rfc3339(a), Rfc3339(b));
  }

  lemma NewestFirstReversed(nodes: Rows, branch: int, ids: seq<NodeId>)
    requires TimesValid(nodes) && DistinctTimes(nodes, branch) && NewestFirst(nodes, branch, ids)
    ensures Chronological(nodes, branch, Reverse(ids))
  {
    var r, n := Reverse(ids), |ids|;
    ReverseKeepsMembers(ids);
    forall i, j | 0 <= i < j < n ensures Earlier(nodes, r[i], r[j]) {
      assert r[i] in ids && r[j] in ids;
      assert TextDescends(nodes, ids[n - 1 - j], ids[n - 1 - i]);
      TextsDecide(nodes, branch, r[j], r[i]);
    }
  }

  /** In a sorted list only the last place holds the last row. */
  lemma InitMembers(nodes: Rows, a: seq<NodeId>, m: nat, h: NodeId)
    requires |a| == m + 1 && Sorted(nodes, a)
    ensures h in a[..m] <==> h in a && h != a[m]
  {
    assert a == a[..m] + [a[m]];
    if h in a[..m] {
      var i :| 0 <= i < m && a[..m][i] == h;
      assert Earlier(nodes, a[i], a[m]);
      EarlierIsStrict(nodes, a[i], a[m], a[m]);
    }
  }

  lemma SortedPrefix(nodes: Rows, a: seq<NodeId>, k: nat)
    requires k <= |a| && Sorted(nodes, a)
    ensures Sorted(nodes, a[..k])
  {
    forall i, j | 0 <= i < j < k ensures Earlier(nodes, a[..k][i], a[..k][j]) { assert Earlier(nodes, a[i], a[j]); }
  }

  lemma LastIsLatest(nodes: Rows, a: seq<NodeId>, h: NodeId)
    requires a != [] && Sorted(nodes, a) && h in a
    ensures h == a[|a| - 1] || Earlier(nodes, h, a[|a| - 1])
  {
    var i :| 0 <= i < |a| && a[i] == h;
    if i < |a| - 1 { assert Earlier(nodes, a[i], a[|a| - 1]); }
  }

  lemma HasMember(s: seq<NodeId>)
    ensures s != [] ==> exists h :: h in s
  {
    if s != [] { assert s[0] in s; }
  }

  /** There is only one chronological list of a set of rows. */
  lemma {:induction false} SortedIsUnique(nodes: Rows, a: seq<NodeId>, b: seq<NodeId>)
    requires Sorted(nodes, a) && Sorted(nodes, b) && forall h :: h in a <==> h in b
    ensures a == b
  {
    HasMember(a);
    HasMember(b);
    if a != [] && b != [] {
      var m, n := |a| - 1, |b| - 1;
      var x, y := a[m], b[n];
      assert x in a && y in b;
      LastIsLatest(nodes, a, y);
      LastIsLatest(nodes, b, x);
      EarlierIsStrict(nodes, x, y, x);
      assert x == y;
      SortedPrefix(nodes, a, m);
      SortedPrefix(nodes, b, n);
      forall h ensures h in a[..m] <==> h in b[..n] {
        InitMembers(nodes, a, m, h);
        InitMembers(nodes, b, n, h);
      }
      SortedIsUnique(nodes, a[..m], b[..n]);
      assert a == a[..m] + [x] && b == b[..n] + [y];
    }
  }

  lemma ReverseOfTake(full: seq<NodeId>, k: nat)
    requires k <= |full|
    ensures Reverse(full[..k]) == Reverse(full)[|full| - k..]
  {
    var l, r := Reverse(full[..k]), Reverse(full)[|full| - k..];
    forall i | 0 <= i < k ensures l[i] == r[i] {
      assert full[..k][k - 1 - i] == full[k - 1 - i];
    }
  }

  /**
    The fast form is the simple one: whatever order the database breaks its ties in, the
    reversed answer is the last min(n, count) rows of the chronological list, oldest first.
   */
  lemma LatestIsTheChronologicalTail(nodes: Rows, branch: int, n: nat, answer: seq<NodeId>, all: seq<NodeId>)
    requires TimesValid(nodes) && DistinctTimes(nodes, branch)
    requires SqlAnswer(nodes, branch, n, answer) && Chronological(nodes, branch, all)
    ensures Reverse(answer) == all[|all| - Least(n, |all|)..]
  {
    var full :| NewestFirst(nodes, branch, full) && answer == full[..Least(n, |full|)];
    NewestFirstReversed(nodes, branch, full);
    SortedIsUnique(nodes, Reverse(full), all);
    ReverseOfTake(full, Least(n, |full|));
  }

  /** The last rows of a list: a longer tail ends in a shorter one. */
  lemma TailsNest(all: seq<NodeId>, n: nat, fewer: seq<NodeId>, more: seq<NodeId>)
    requires fewer == all[|all| - Least(n, |all|)..] && more == all[|all| - Least(n + 1, |all|)..]
    ensures |fewer| <= |more| <= |fewer| + 1 && fewer == more[|more| - |fewer|..]
  {}

  /** Asking for one more only puts an older row in front, and the newest row is always last. */
  lemma LatestGrowsBackwards(
      nodes: Rows, branch: int, n: nat, fewer: seq<NodeId>, more: seq<NodeId>, one: seq<NodeId>)
    requires TimesValid(nodes) && DistinctTimes(nodes, branch)
    requires SqlAnswer(nodes, branch, n, fewer) && SqlAnswer(nodes, branch, n + 1, more) &&
        SqlAnswer(nodes, branch, 1, one)
    ensures |fewer| <= |more| <= |fewer| + 1 && Reverse(fewer) == Reverse(more)[|more| - |fewer|..]
    ensures fewer != [] ==> one != [] && Reverse(fewer)[|fewer| - 1] == one[0]
  {
    var all := EveryBranchHasAList(nodes, branch);
    LatestIsTheChronologicalTail(nodes, branch, n, fewer, all);
    LatestIsTheChronologicalTail(nodes, branch, n + 1, more, all);
    LatestIsTheChronologicalTail(nodes, branch, 1, one, all);
    TailsNest(all, n, Reverse(fewer), Reverse(more));
    NewestIsLast(all, n, Reverse(fewer), Reverse(one));
  }

  lemma NewestIsLast(all: seq<NodeId>, n: nat, fewer: seq<NodeId>, one: seq<NodeId>)
    requires fewer == all[|all| - Least(n, |all|)..] && one == all[|all| - Least(1, |all|)..]
    ensures fewer != [] ==> |one| == 1 && fewer[|fewer| - 1] == one[0]
  {}

  // ---------------------------------------------------------------- such lists exist

  function InsertSorted(nodes: Rows, ids: seq<NodeId>, x: NodeId): seq<NodeId> {
    if ids == [] || Earlier(nodes, x, ids[0]) then [x] + ids else [ids[0]] + InsertSorted(nodes, ids[1..], x)
  }

  lemma SortedCons(nodes: Rows, x: NodeId, ids: seq<NodeId>)
    requires Sorted(nodes, ids) && forall h :: h in ids ==> Earlier(nodes, x, h)
    ensures Sorted(nodes, [x] + ids)
  {
    var all := [x] + ids;
    forall i, j | 0 <= i < j < |all| ensures Earlier(nodes, all[i], all[j]) {
      if i == 0 { assert all[j] in ids; } else { assert Earlier(nodes, ids[i - 1], ids[j - 1]); }
    }
  }

  lemma SortedTail(nodes: Rows, ids: seq<NodeId>)
    requires ids != [] && Sorted(nodes, ids)
    ensures Sorted(nodes, ids[1..]) && forall h :: h in ids[1..] ==> Earlier(nodes, ids[0], h)
  {
    var rest := ids[1..];
    forall i, j | 0 <= i < j < |rest| ensures Earlier(nodes, rest[i], rest[j]) {
      assert Earlier(nodes, ids[i + 1], ids[j + 1]);
    }
    forall h | h in rest ensures Earlier(nodes, ids[0], h) {
      var i :| 0 <= i < |rest| && rest[i] == h;
      assert Earlier(nodes, ids[0], ids[i + 1]);
    }
  }

  lemma {:induction false} InsertSortedIsSorted(nodes: Rows, branch: int, ids: seq<NodeId>, x: NodeId)
    requires TimesValid(nodes) && DistinctTimes(nodes, branch) && OnBranch(nodes, branch, x) && x !in ids &&
        Sorted(nodes, ids)
    requires forall h :: h in ids ==> OnBranch(nodes, branch, h)
    ensures Sorted(nodes, InsertSorted(nodes, ids, x))
    ensures forall h :: h in InsertSorted(nodes, ids, x) <==> h == x || h in ids
  {
    if ids == [] {
      assert Sorted(nodes, [x] + ids);
    } else {
      var y := ids[0];
      SortedTail(nodes, ids);
      assert ids == [y] + ids[1..];
      if Earlier(nodes, x, y) {
        forall h | h in ids ensures Earlier(nodes, x, h) { EarlierIsStrict(nodes, x, y, h); }
        SortedCons(nodes, x, ids);
      } else {
        InsertSortedIsSorted(nodes, branch, ids[1..], x);
        TextsDecide(nodes, branch, x, y);
        SortedCons(nodes, y, InsertSorted(nodes, ids[1..], x));
      }
    }
  }

  lemma {:induction false} ChronologicalPart(nodes: Rows, branch: int, part: set<NodeId>) returns (ids: seq<NodeId>)
    requires TimesValid(nodes) && DistinctTimes(nodes, branch) && forall h :: h in part ==> OnBranch(nodes, branch, h)
    ensures Sorted(nodes, ids) && forall h :: h in ids <==> h in part
    decreases |part|
  {
    if part == {} {
      ids := [];
    } else {
      var x :| x in part;
      var rest := ChronologicalPart(nodes, branch, part - {x});
      InsertSortedIsSorted(nodes, branch, rest, x);
      ids := InsertSorted(nodes, rest, x);
    }
  }

  lemma EveryBranchHasAList(nodes: Rows, branch: int) returns (ids: seq<NodeId>)
    requires TimesValid(nodes) && DistinctTimes(nodes, branch)
    ensures Chronological(nodes, branch, ids)
  {
    ids := ChronologicalPart(nodes, branch, set h | h in nodes && OnBranch(nodes, branch, h));
  }

  // ---------------------------------------------------------------- the walk

  type Decoder = string -> string

  function ParentId(s: Store, h: NodeId): NodeId {
    if h in s.nodes && s.nodes[h].parent.Some? then s.nodes[h].parent.value else ROOT
  }

  /** What one row contributes. A typed row that does not deserialise reads as an empty message. */
  function Project(s: Store, decode: Decoder, h: NodeId): seq<ChatMessage>
    requires h in s.nodes
  {
    match s.nodes[h].kind
    case Invoke =>
      if (Invoke, h) !in s.details then []
      else if s.details[(Invoke, h)].body.InvokeBody? then s.details[(Invoke, h)].body.currentInput
      else []
    case Complete =>
      if (Complete, h) !in s.details then []
      else if s.details[(Complete, h)].body.CompleteBody?
      then [Agent(s.details[(Complete, h)].body.content, s.details[(Complete, h)].body.toolCalls)]
      else [Agent(None, None)]
    case SvcResponse =>
      var p := ParentId(s, h);
      if (SvcResponse, h) in s.details && s.details[(SvcResponse, h)].body.SvcResponseBody?
         && (SvcRequest, p) in s.details && s.details[(SvcRequest, p)].body.SvcRequestBody?
      then [Tool(s.details[(SvcRequest, p)].body.toolCallId, decode(s.details[(SvcResponse, h)].body.payload))]
      else []
    case _ => []
  }

  predicate Known(s: Store, ids: seq<NodeId>) { forall h :: h in ids ==> h in s.nodes }

  function Conversation(s: Store, decode: Decoder, ids: seq<NodeId>): seq<ChatMessage>
    requires Known(s, ids)
  {
    if ids == [] then [] else Conversation(s, decode, ids[..|ids| - 1]) + Project(s, decode, ids[|ids| - 1])
  }

  /** The walk over the rows a query returned. */
  method WalkChain(s: Store, decode: Decoder, ids: seq<NodeId>) returns (messages: seq<ChatMessage>)
    requires Known(s, ids)
    ensures messages == Conversation(s, decode, ids)
  {
    messages := [];
    for i := 0 to |ids|
      invariant messages == Conversation(s, decode, ids[..i])
    {
      var h := ids[i];
      assert ids[..i + 1][..i] == ids[..i];
      match s.nodes[h].kind
      case Invoke =>
        if (Invoke, h) in s.details && s.details[(Invoke, h)].body.InvokeBody? {
          messages := messages + s.details[(Invoke, h)].body.currentInput;
        }
      case Complete =>
        if (Complete, h) in s.details {
          var b := s.details[(Complete, h)].body;
          messages := messages + [if b.CompleteBody? then Agent(b.content, b.toolCalls) else Agent(None, None)];
        }
      case SvcResponse =>
        var p := ParentId(s, h);
        if (SvcResponse, h) in s.details && s.details[(SvcResponse, h)].body.SvcResponseBody?
           && (SvcRequest, p) in s.details && s.details[(SvcRequest, p)].body.SvcRequestBody?
        {
          var content := decode(s.details[(SvcResponse, h)].body.payload);
          messages := messages + [Tool(s.details[(SvcRequest, p)].body.toolCallId, content)];
        }
      case _ =>
    }
    assert ids[..|ids|] == ids;
  }

  lemma KnownJoin(s: Store, a: seq<NodeId>, b: seq<NodeId>)
    ensures Known(s, a + b) <==> Known(s, a) && Known(s, b)
  {
    forall h ensures h in a + b <==> h in a || h in b {}
  }

  function Flat(parts: seq<seq<ChatMessage>>): seq<ChatMessage> {
    if parts == [] then [] else Flat(parts[..|parts| - 1]) + parts[|parts| - 1]
  }

  lemma {:induction false} FlatJoin(p: seq<seq<ChatMessage>>, q: seq<seq<ChatMessage>>)
    ensures Flat(p + q) == Flat(p) + Flat(q)
  {
    if q == [] {
      assert p + q == p;
    } else {
      assert (p + q)[..|p + q| - 1] == p + q[..|q| - 1];
      FlatJoin(p, q[..|q| - 1]);
    }
  }

  lemma FlatOne(ms: seq<ChatMessage>)
    ensures Flat([ms]) == ms
  {
    assert Flat([ms]) == Flat([ms][..0]) + ms;
  }

  function Parts(s: Store, decode: Decoder, ids: seq<NodeId>): (parts: seq<seq<ChatMessage>>)
    requires Known(s, ids)
    ensures |parts| == |ids|
  {
    seq(|ids|, i requires 0 <= i < |ids| => Project(s, decode, ids[i]))
  }

  lemma {:induction false} ConversationIsFlat(s: Store, decode: Decoder, ids: seq<NodeId>)
    requires Known(s, ids)
    ensures Conversation(s, decode, ids) == Flat(Parts(s, decode, ids))
  {
    if ids != [] {
      var k := |ids| - 1;
      ConversationIsFlat(s, decode, ids[..k]);
      assert Parts(s, decode, ids)[..k] == Parts(s, decode, ids[..k]);
    }
  }

  predicate Typed(s: Store, kind: MessageType, h: NodeId, body: Body) {
    (kind, h) in s.details && s.details[(kind, h)].body == body
  }

  /** In the middle of the walk, row `h` says `ms`. */
  predicate Says(s: Store, decode: Decoder, a: seq<NodeId>, h: NodeId, b: seq<NodeId>, ms: seq<ChatMessage>)
    requires Known(s, a + [h] + b)
  {
    && Known(s, a) && Known(s, b)
    && Conversation(s, decode, a + [h] + b) == Conversation(s, decode, a) + ms + Conversation(s, decode, b)
  }

  lemma RowInTheMiddle(s: Store, decode: Decoder, a: seq<NodeId>, h: NodeId, b: seq<NodeId>)
    requires Known(s, a + [h] + b)
    ensures h in s.nodes && Says(s, decode, a, h, b, Project(s, decode, h))
  {
    KnownJoin(s, a + [h], b);
    KnownJoin(s, a, [h]);
    assert h in [h];
    ConversationIsFlat(s, decode, a);
    ConversationIsFlat(s, decode, b);
    ConversationIsFlat(s, decode, a + [h] + b);
    var p, q, r := Parts(s, decode, a), [Project(s, decode, h)], Parts(s, decode, b);
    assert Parts(s, decode, a + [h] + b) == p + q + r;
    FlatJoin(p + q, r);
    FlatJoin(p, q);
    FlatOne(Project(s, decode, h));
  }

  /** An agent's answer, its text and its tool calls, is heard where its row stands in the walk. */
  lemma AnswersAreHeard(
      s: Store, decode: Decoder, a: seq<NodeId>, h: NodeId, b: seq<NodeId>, content: Option<string>,
      calls: Option<string>)
    requires Known(s, a + [h] + b) && h in s.nodes && s.nodes[h].kind == Complete
    ensures Typed(s, Complete, h, CompleteBody(content, calls)) ==> Says(s, decode, a, h, b, [Agent(content, calls)])
    ensures (Complete, h) !in s.details ==> Says(s, decode, a, h, b, [])
  {
    RowInTheMiddle(s, decode, a, h, b);
  }

  /** A turn's input is heard message by message. */
  lemma InputsAreHeard(s: Store, decode: Decoder, a: seq<NodeId>, h: NodeId, b: seq<NodeId>, input: seq<ChatMessage>)
    requires Known(s, a + [h] + b) && h in s.nodes && s.nodes[h].kind == Invoke
    ensures Typed(s, Invoke, h, InvokeBody(input)) ==> Says(s, decode, a, h, b, input)
    ensures (Invoke, h) !in s.details ==> Says(s, decode, a, h, b, [])
  {
    RowInTheMiddle(s, decode, a, h, b);
  }

  /** A tool's result is heard, under the id of the call it answers, if both typed rows are there. */
  lemma ResultsAreHeard(
      s: Store, decode: Decoder, a: seq<NodeId>, h: NodeId, b: seq<NodeId>, p: NodeId, call: string, payload: string)
    requires Known(s, a + [h] + b) && h in s.nodes && s.nodes[h].kind == SvcResponse && s.nodes[h].parent == Some(p)
    ensures Typed(s, SvcResponse, h, SvcResponseBody(payload)) && Typed(s, SvcRequest, p, SvcRequestBody(call)) ==>
      Says(s, decode, a, h, b, [Tool(call, decode(payload))])
    ensures (SvcResponse, h) !in s.details || (SvcRequest, p) !in s.details ==> Says(s, decode, a, h, b, [])
  {
    RowInTheMiddle(s, decode, a, h, b);
  }

  /** Rows of all other kinds say nothing. */
  lemma OthersAreSilent(s: Store, decode: Decoder, a: seq<NodeId>, h: NodeId, b: seq<NodeId>)
    requires Known(s, a + [h] + b) && h in s.nodes
    requires s.nodes[h].kind != Invoke && s.nodes[h].kind != Complete && s.nodes[h].kind != SvcResponse
    ensures Says(s, decode, a, h, b, [])
  {
    RowInTheMiddle(s, decode, a, h, b);
  }

  // ---------------------------------------------------------------- a new row

  /** `h` goes into `s`, on a branch, later than every row already there. */
  predicate Arrives(s: Store, h: NodeId, row: Row, branch: int) {
    && h != ROOT && h !in s.nodes && row.branch == Some(branch) && ForeignKeysHold(s, h, row)
    && forall k :: k in s.nodes && s.nodes[k].branch == Some(branch) ==> Before(s.nodes[k].at, row.at)
  }

  /** Rows already there contribute what they did: no older response hangs on a new request. */
  lemma OldRowsProjectTheSame(s: Store, decode: Decoder, h: NodeId, row: Row, d: Detail, k: NodeId)
    requires StoreInv(s) && h != ROOT && h !in s.nodes && k in s.nodes
    ensures var t := InsertNode(s, h, row, d).0; k in t.nodes && Project(t, decode, k) == Project(s, decode, k)
  {
    var m, t := InsertRow(s, h, row).0, InsertNode(s, h, row, d).0;
    assert RowFits(s.nodes, s.sessions.Keys, s.branches.Keys, k);
    assert t.nodes == m.nodes && t.nodes[k] == s.nodes[k];
    assert ParentId(t, k) == ParentId(s, k) != h;
    forall x: (MessageType, NodeId) | x.1 != h ensures x in t.details <==> x in s.details {}
    forall x: (MessageType, NodeId) | x in s.details ensures x in t.details && t.details[x] == s.details[x] {}
  }

  lemma {:induction false} OldConversationStays(
      s: Store, decode: Decoder, h: NodeId, row: Row, d: Detail, ids: seq<NodeId>)
    requires StoreInv(s) && h != ROOT && h !in s.nodes && Known(s, ids)
    ensures var t := InsertNode(s, h, row, d).0;
      Known(t, ids) && Conversation(t, decode, ids) == Conversation(s, decode, ids)
  {
    InsertKeepsInv(s, h, row, d);
    if ids != [] {
      var k := |ids| - 1;
      assert forall x :: x in ids[..k] ==> x in ids;
      OldConversationStays(s, decode, h, row, d, ids[..k]);
      OldRowsProjectTheSame(s, decode, h, row, d, ids[k]);
    }
  }

  lemma ListGrowsAtTheEnd(s: Store, h: NodeId, row: Row, d: Detail, branch: int, all: seq<NodeId>)
    requires Arrives(s, h, row, branch) && Chronological(s.nodes, branch, all)
    ensures Chronological(InsertNode(s, h, row, d).0.nodes, branch, all + [h])
  {
    var t := InsertNode(s, h, row, d).0;
    assert t.nodes == s.nodes[h := row.(rank := |s.nodes|)];
    var more := all + [h];
    forall i, j | 0 <= i < j < |more| ensures Earlier(t.nodes, more[i], more[j]) {
      if j < |all| {
        assert Earlier(s.nodes, all[i], all[j]);
      } else {
        assert all[i] in all;
      }
    }
    forall k ensures k in more <==> OnBranch(t.nodes, branch, k) {
      assert k in more <==> k in all || k == h;
    }
  }

  lemma ListIsKnown(s: Store, branch: int, all: seq<NodeId>)
    requires Lists(s.nodes, branch, all)
    ensures Known(s, all)
  {
    forall h | h in all ensures h in s.nodes { assert OnBranch(s.nodes, branch, h); }
  }

  /** The walk asks for all rows a `u32` can count: up to that many it reads the whole branch, in order. */
  lemma WholeBranchIsRead(nodes: Rows, branch: int, answer: seq<NodeId>, all: seq<NodeId>)
    requires TimesValid(nodes) && DistinctTimes(nodes, branch) && Chronological(nodes, branch, all)
    requires SqlAnswer(nodes, branch, U32_MAX, answer)
    ensures |all| <= U32_MAX ==> Reverse(answer) == all
    ensures |all| > U32_MAX ==> Reverse(answer) == all[|all| - U32_MAX..]
  {
    LatestIsTheChronologicalTail(nodes, branch, U32_MAX, answer, all);
  }

  /**
    The projection is incremental: a row that arrives last is read last, and appends exactly
    its own messages to the conversation.
   */
  lemma ProjectionIsIncremental(
      s: Store, decode: Decoder, h: NodeId, row: Row, d: Detail, t: Store, branch: int, all: seq<NodeId>)
    requires StoreInv(s) && Arrives(s, h, row, branch) && t == InsertNode(s, h, row, d).0 &&
        Chronological(s.nodes, branch, all)
    ensures Chronological(t.nodes, branch, all + [h]) && Known(s, all) && Known(t, all + [h])
    ensures Conversation(t, decode, all + [h]) == Conversation(s, decode, all) + Project(t, decode, h)
  {
    ListGrowsAtTheEnd(s, h, row, d, branch, all);
    ListIsKnown(s, branch, all);
    ListIsKnown(t, branch, all + [h]);
    assert (all + [h])[..|all|] == all;
    OldConversationStays(s, decode, h, row, d, all);
  }

  /** `dispatch` runs the decoder over tool results a second time before serialising. */
  function Dispatched(decode: Decoder, messages: seq<ChatMessage>): seq<ChatMessage> {
    seq(|messages|, i requires 0 <= i < |messages| =>
      if messages[i].Tool? then messages[i].(result := decode(messages[i].result)) else messages[i])
  }

  /** A tool's result reaches the agent decoded twice, everything else as it is. */
  lemma ResultsAreDecodedTwice(
      decode: Decoder, before: seq<ChatMessage>, call: string, payload: string, after: seq<ChatMessage>)
    ensures Dispatched(decode, before + [Tool(call, decode(payload))] + after)
         == Dispatched(decode, before) + [Tool(call, decode(decode(payload)))] + Dispatched(decode, after)
    ensures (forall m :: m in before ==> !m.Tool?) ==> Dispatched(decode, before) == before
  {}

  lemma DispatchedConcat(decode: Decoder, a: seq<ChatMessage>, b: seq<ChatMessage>)
    ensures Dispatched(decode, a + b) == Dispatched(decode, a) + Dispatched(decode, b)
  {}

  /**
    What the agent is sent: when its invoke is the newest row, the conversation is the earlier
    history followed by the invoke's input once. The input is missing exactly when the typed
    row was ignored because its message id was already taken (and it was not empty).
   */
  lemma InvokeInputComesOnceAndLast(
      s: Store, decode: Decoder, h: NodeId, row: Row, d: Detail, t: Store, branch: int, all: seq<NodeId>)
    requires StoreInv(s) && Arrives(s, h, row, branch) && t == InsertNode(s, h, row, d).0 &&
        Chronological(s.nodes, branch, all)
    requires row.kind == Invoke && d.body.InvokeBody?
    ensures Known(s, all) && Known(t, all + [h])
    ensures Dispatched(decode, Conversation(t, decode, all + [h]))
         == Dispatched(decode, Conversation(s, decode, all)) + Dispatched(decode, d.body.currentInput)
       <==> !MessageIdTaken(s, Invoke, d.messageId) || d.body.currentInput == []
    ensures MessageIdTaken(s, Invoke, d.messageId) ==>
      Dispatched(decode, Conversation(t, decode, all + [h])) == Dispatched(decode, Conversation(s, decode, all))
  {
    ProjectionIsIncremental(s, decode, h, row, d, t, branch, all);
    DispatchedConcat(decode, Conversation(s, decode, all), Project(t, decode, h));
    DetailLands(s, h, row, d);
    var before := Dispatched(decode, Conversation(s, decode, all));
    if MessageIdTaken(s, Invoke, d.messageId) {
      assert Project(t, decode, h) == [];
      assert before + Dispatched(decode, []) == before;
      assert |before + Dispatched(decode, d.body.currentInput)| == |before| + |d.body.currentInput|;
    }
  }

  /** The typed row lands unless its message id is taken. */
  lemma DetailLands(s: Store, h: NodeId, row: Row, d: Detail)
    requires StoreInv(s) && h !in s.nodes && ForeignKeysHold(s, h, row) && !d.body.PromoteBody?
    ensures var t := InsertNode(s, h, row, d).0;
      && h in t.nodes && t.nodes[h].kind == row.kind
      && ((row.kind, h) in t.details <==> !MessageIdTaken(s, row.kind, d.messageId))
      && ((row.kind, h) in t.details ==> t.details[(row.kind, h)] == d)
  {
    assert (row.kind, h) !in s.details;
    var m := InsertRow(s, h, row).0;
    assert MessageIdTaken(m, row.kind, d.messageId) <==> MessageIdTaken(s, row.kind, d.messageId);
  }

  /** Where a message of a conversation comes from. */
  lemma {:induction false} EveryMessageHasItsRow(s: Store, decode: Decoder, ids: seq<NodeId>, m: ChatMessage)
    requires Known(s, ids)
    ensures m in Conversation(s, decode, ids) <==> exists h :: h in ids && m in Project(s, decode, h)
  {
    if ids != [] {
      var k := |ids| - 1;
      var init, h := ids[..k], ids[k];
      assert ids == init + [h];
      EveryMessageHasItsRow(s, decode, init, m);
      assert m in Conversation(s, decode, ids) <==> m in Conversation(s, decode, init) || m in Project(s, decode, h);
      if x :| x in ids && m in Project(s, decode, x) { assert x in init || x == h; }
      if x :| x in init && m in Project(s, decode, x) { assert x in ids; }
      assert h in ids;
    }
  }

  /**
    Tool results answer their own calls: a tool message in a conversation either was given in
    an invoke's input, or carries the call id of the request its response hangs on and that
    response's decoded payload.
   */
  lemma ToolMessagesAnswerTheirRequest(s: Store, decode: Decoder, ids: seq<NodeId>, m: ChatMessage)
    requires StoreInv(s) && ROOT !in s.nodes && Known(s, ids) && m.Tool? && m in Conversation(s, decode, ids)
    ensures exists h :: h in ids && (FromInput(s, h, m) || Answers(s, decode, h, m))
  {
    EveryMessageHasItsRow(s, decode, ids, m);
    var h :| h in ids && m in Project(s, decode, h);
    assert ParentId(s, h) == ROOT ==> (SvcRequest, ParentId(s, h)) !in s.details;
    assert FromInput(s, h, m) || Answers(s, decode, h, m);
  }

  predicate FromInput(s: Store, h: NodeId, m: ChatMessage) {
    h in s.nodes && s.nodes[h].kind == Invoke && (Invoke, h) in s.details
    && s.details[(Invoke, h)].body.InvokeBody? && m in s.details[(Invoke, h)].body.currentInput
  }

  predicate Answers(s: Store, decode: Decoder, h: NodeId, m: ChatMessage) {
    && h in s.nodes && s.nodes[h].kind == SvcResponse && s.nodes[h].parent.Some? && m.Tool?
    && var p := s.nodes[h].parent.value;
    && (SvcRequest, p) in s.details && s.details[(SvcRequest, p)].body == SvcRequestBody(m.toolCallId)
    && (SvcResponse, h) in s.details && s.details[(SvcResponse, h)].body.SvcResponseBody?
    && m.result == decode(s.details[(SvcResponse, h)].body.payload)
  }
}
