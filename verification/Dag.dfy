/**
  The vocabulary of the history: node ids, message types, parent links, ancestry.
 */
module Dag {

  type NodeId = string

  /** The id every chain ends in. No recorded node carries it. */
  const ROOT: NodeId := ""

  datatype MessageType =
    | Invoke | Request | Response | Complete | Fork | Promote
    | DeployAgent | DeleteAgent | SvcRequest | SvcResponse

  function MessageTypeWord(t: MessageType): string {
    match t
    case Invoke => "invoke"
    case Request => "request"
    case Response => "response"
    case Complete => "complete"
    case Fork => "fork"
    case Promote => "promote"
    case DeployAgent => "deploy-agent"
    case DeleteAgent => "delete-agent"
    case SvcRequest => "svc_request"
    case SvcResponse => "svc_response"
  }

  // ---------------------------------------------------------------- parent links

  /** A node's parent pointer, and how many nodes were inserted before it. */
  datatype Link = Link(parent: NodeId, rank: nat)

  type Links = map<NodeId, Link>

  predicate OlderParent(links: Links, n: NodeId)
    requires n in links
  {
    links[n].parent in links && links[links[n].parent].rank < links[n].rank
  }

  /** Every parent is root or a node inserted earlier. */
  predicate Grounded(links: Links) {
    && ROOT !in links
    && forall n :: n in links ==> links[n].parent == ROOT || OlderParent(links, n)
  }

  /** `a` lies on the chain of parents that starts at `n`, `n` itself not counted. */
  predicate HasAncestor(links: Links, n: NodeId, a: NodeId)
    decreases if n in links then links[n].rank else 0
  {
    n in links && (links[n].parent == a || (OlderParent(links, n) && HasAncestor(links, links[n].parent, a)))
  }

  function ParentOf(links: Links, n: NodeId): NodeId {
    if n in links then links[n].parent else ROOT
  }

  /** Follow the parent pointer `k` times. */
  function Climb(links: Links, n: NodeId, k: nat): NodeId
    decreases k
  {
    if k == 0 then n else Climb(links, ParentOf(links, n), k - 1)
  }

  /** Ancestors are strictly older, so no node is its own ancestor. */
  lemma {:induction false} AncestorsAreOlder(links: Links, n: NodeId, a: NodeId)
    requires Grounded(links) && HasAncestor(links, n, a)
    ensures a == ROOT || (a in links && links[a].rank < links[n].rank)
    decreases links[n].rank
  {
    if links[n].parent != a { AncestorsAreOlder(links, links[n].parent, a); }
  }

  /** Every chain ends in root, with at most as many steps as nodes were inserted before it. */
  lemma {:induction false} ReachesRoot(links: Links, n: NodeId) returns (k: nat)
    requires Grounded(links) && n in links
    ensures HasAncestor(links, n, ROOT) && 1 <= k <= links[n].rank + 1 && Climb(links, n, k) == ROOT
    decreases links[n].rank
  {
    var p := links[n].parent;
    if p == ROOT {
      k := 1;
      assert Climb(links, n, 1) == Climb(links, p, 0);
    } else {
      k := ReachesRoot(links, p);
      k := k + 1;
    }
  }

  lemma {:induction false} AncestorByClimbing(links: Links, n: NodeId, a: NodeId) returns (k: nat)
    requires HasAncestor(links, n, a)
    ensures k >= 1 && Climb(links, n, k) == a
    decreases links[n].rank
  {
    if links[n].parent == a {
      k := 1;
      assert Climb(links, n, 1) == Climb(links, a, 0);
    } else {
      k := AncestorByClimbing(links, links[n].parent, a);
      k := k + 1;
    }
  }

  lemma {:induction false} ClimbedIsAncestor(links: Links, n: NodeId, k: nat)
    requires Grounded(links) && n in links && k >= 1 && Climb(links, n, k) != ROOT
    ensures HasAncestor(links, n, Climb(links, n, k))
    decreases k
  {
    var p := links[n].parent;
    if k > 1 {
      if p == ROOT { RootStays(links, k - 1); }
      ClimbedIsAncestor(links, p, k - 1);
    } else {
      assert Climb(links, n, 1) == Climb(links, p, 0);
    }
  }

  lemma {:induction false} RootStays(links: Links, k: nat)
    requires ROOT !in links
    ensures Climb(links, ROOT, k) == ROOT
    decreases k
  {
    if k > 0 { RootStays(links, k - 1); }
  }

  /** Ancestry is the closure of the parent pointer. */
  lemma AncestryIsClimbing(links: Links, n: NodeId, a: NodeId)
    requires Grounded(links) && n in links && a != ROOT
    ensures HasAncestor(links, n, a) <==> exists k: nat :: k >= 1 && Climb(links, n, k) == a
  {
    if HasAncestor(links, n, a) { var k := AncestorByClimbing(links, n, a); }
    if k: nat :| k >= 1 && Climb(links, n, k) == a { ClimbedIsAncestor(links, n, k); }
  }
}
