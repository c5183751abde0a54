/**
  Content addresses. A node's id is a hash of the plain concatenation of five fields, its
  parent's id among them. Byte strings are `string`s of their bytes; the hash is any
  injective function, which is what collision resistance is taken to mean.
 */
module Merkle {
  import opened Dag

  type Hash = string -> string

  ghost predicate Injective(sha: Hash) {
    forall x, y :: sha(x) == sha(y) ==> x == y
  }

  datatype Fields = Fields(payload: string, parent: NodeId, kind: MessageType, diagnostics: string, session: string)

  function Preimage(f: Fields): string {
    f.payload + f.parent + MessageTypeWord(f.kind) + f.diagnostics + f.session
  }

  function NodeHash(sha: Hash, f: Fields): NodeId { sha(Preimage(f)) }

  lemma MiddleCancels(a: string, x: string, y: string, b: string)
    ensures a + x + b == a + y + b <==> x == y
  {
    if a + x + b == a + y + b {
      assert |x| == |y|;
      forall i | 0 <= i < |x| ensures x[i] == y[i] {
        assert (a + x + b)[|a| + i] == x[i] && (a + y + b)[|a| + i] == y[i];
      }
    }
  }

  lemma WordsDiffer(t: MessageType, u: MessageType)
    ensures MessageTypeWord(t) == MessageTypeWord(u) <==> t == u
  {
    assert "deploy-agent"[2] != "delete-agent"[2];
    assert "request"[2] != "promote"[2];
    assert "complete"[0] != "response"[0];
  }

  /** How many of the five fields two nodes differ in. */
  function Differences(f: Fields, g: Fields): nat {
    (if f.payload != g.payload then 1 else 0) + (if f.parent != g.parent then 1 else 0)
    + (if f.kind != g.kind then 1 else 0) + (if f.diagnostics != g.diagnostics then 1 else 0)
    + (if f.session != g.session then 1 else 0)
  }

  lemma Regroup(p: string, h: string, w: string, d: string, s: string)
    ensures p + h + w + d + s == "" + p + (h + w + d + s)
    ensures p + h + w + d + s == p + h + (w + d + s)
    ensures p + h + w + d + s == (p + h) + w + (d + s)
    ensures p + h + w + d + s == (p + h + w + d) + s + ""
  {}

  lemma ContentChangeChangesPreimage(f: Fields, g: Fields)
    requires f.kind == g.kind && f.session == g.session && Differences(f, g) <= 1
    ensures Preimage(f) == Preimage(g) <==> f == g
  {
    var w := MessageTypeWord(f.kind);
    Regroup(f.payload, f.parent, w, f.diagnostics, f.session);
    Regroup(g.payload, g.parent, w, g.diagnostics, g.session);
    if f.payload != g.payload {
      MiddleCancels("", f.payload, g.payload, f.parent + w + f.diagnostics + f.session);
    } else if f.parent != g.parent {
      MiddleCancels(f.payload, f.parent, g.parent, w + f.diagnostics + f.session);
    } else {
      MiddleCancels(f.payload + f.parent + w, f.diagnostics, g.diagnostics, f.session);
    }
  }

  lemma LabelChangeChangesPreimage(f: Fields, g: Fields)
    requires f.payload == g.payload && f.parent == g.parent && f.diagnostics == g.diagnostics && Differences(f, g) <= 1
    ensures Preimage(f) == Preimage(g) <==> f == g
  {
    var w, x := MessageTypeWord(f.kind), MessageTypeWord(g.kind);
    WordsDiffer(f.kind, g.kind);
    Regroup(f.payload, f.parent, w, f.diagnostics, f.session);
    Regroup(g.payload, g.parent, x, g.diagnostics, g.session);
    if f.kind != g.kind {
      MiddleCancels(f.payload + f.parent, w, x, f.diagnostics + f.session);
    } else {
      MiddleCancels(f.payload + f.parent + w + f.diagnostics, f.session, g.session, "");
    }
  }

  /** Payload, parent, type word, diagnostics, session, in this order and with nothing between. */
  lemma FieldsInOrder()
    ensures Preimage(Fields("pay", "par", SvcRequest, "dia", "ses")) == "payparsvc_requestdiases"
  {}

  /** A change to any one field changes the id: the payload, the parent, or only the session. */
  lemma OneChangeChangesTheId(sha: Hash, f: Fields, g: Fields)
    requires Injective(sha) && Differences(f, g) <= 1
    ensures NodeHash(sha, f) == NodeHash(sha, g) <==> f == g
  {
    if f.kind == g.kind && f.session == g.session {
      ContentChangeChangesPreimage(f, g);
    } else {
      LabelChangeChangesPreimage(f, g);
    }
  }

  /**
    The fields are not framed, so two changes at once can cancel: any child node shares its
    id with a root node whose payload ends in the parent's id.
   */
  lemma ChildSharesIdWithARoot(sha: Hash, f: Fields)
    ensures NodeHash(sha, f) == NodeHash(sha, f.(payload := f.payload + f.parent, parent := ROOT))
  {
    assert Preimage(f) == Preimage(f.(payload := f.payload + f.parent, parent := ROOT));
  }

  // ---------------------------------------------------------------- chains

  datatype Message = Message(payload: string, kind: MessageType, diagnostics: string, session: string)

  function Step(sha: Hash, parent: NodeId, m: Message): NodeId {
    NodeHash(sha, Fields(m.payload, parent, m.kind, m.diagnostics, m.session))
  }

  /** The id at the end of a chain of messages that starts below `from`. */
  function ChainHash(sha: Hash, from: NodeId, ms: seq<Message>): NodeId {
    if ms == [] then from else Step(sha, ChainHash(sha, from, ms[..|ms| - 1]), ms[|ms| - 1])
  }

  lemma {:induction false} ChainHashAppend(sha: Hash, from: NodeId, ms: seq<Message>, ns: seq<Message>)
    ensures ChainHash(sha, from, ms + ns) == ChainHash(sha, ChainHash(sha, from, ms), ns)
  {
    if ns == [] {
      assert ms + ns == ms;
    } else {
      assert (ms + ns)[..|ms + ns| - 1] == ms + ns[..|ns| - 1];
      ChainHashAppend(sha, from, ms, ns[..|ns| - 1]);
    }
  }

  lemma {:induction false} DescendantsFollow(sha: Hash, a: NodeId, b: NodeId, ms: seq<Message>)
    requires Injective(sha)
    ensures ChainHash(sha, a, ms) == ChainHash(sha, b, ms) <==> a == b
  {
    if ms != [] {
      var k := |ms| - 1;
      var m := ms[k];
      var x, y := ChainHash(sha, a, ms[..k]), ChainHash(sha, b, ms[..k]);
      DescendantsFollow(sha, a, b, ms[..k]);
      OneChangeChangesTheId(sha, Fields(m.payload, x, m.kind, m.diagnostics, m.session),
                            Fields(m.payload, y, m.kind, m.diagnostics, m.session));
    }
  }

  function MessageDifferences(m: Message, n: Message): nat {
    Differences(Fields(m.payload, ROOT, m.kind, m.diagnostics, m.session),
        Fields(n.payload, ROOT, n.kind, n.diagnostics, n.session))
  }

  /**
    Changing one field of one message, however deep in the history, changes the id of that
    node and of every node after it.
   */
  lemma EveryDescendantChanges(sha: Hash, before: seq<Message>, m: Message, n: Message, later: seq<Message>)
    requires Injective(sha) && MessageDifferences(m, n) == 1
    ensures ChainHash(sha, ROOT, before + [m] + later) != ChainHash(sha, ROOT, before + [n] + later)
  {
    var p := ChainHash(sha, ROOT, before);
    OneChangeChangesTheId(sha, Fields(m.payload, p, m.kind, m.diagnostics, m.session),
                          Fields(n.payload, p, n.kind, n.diagnostics, n.session));
    assert (before + [m])[..|before|] == before && (before + [n])[..|before|] == before;
    ChainHashAppend(sha, ROOT, before + [m], later);
    ChainHashAppend(sha, ROOT, before + [n], later);
    DescendantsFollow(sha, ChainHash(sha, ROOT, before + [m]), ChainHash(sha, ROOT, before + [n]), later);
  }
}
