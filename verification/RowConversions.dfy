/**
  Node rows and domain nodes: what the columns lose, and what reading back makes up.
 */
module RowConversions {
  import opened Text
  import opened Dag
  import RoutingTypes

  const ZERO_SESSION := "00000000-0000-4000-8000-000000000000"

  datatype Node = Node(id: NodeId, parent: NodeId, kind: MessageType, session: string, submission: string, branch: int)

  /** The text columns of `dag_nodes`, NULLs as `None`. */
  datatype NodeRow = NodeRow(
    hash: string,
    parentHash: Option<string>,
    messageType: string,
    sessionId: Option<string>,
    submissionId: Option<string>,
    branchId: Option<int>)

  /** Deploy and delete rows belong to no session and no branch. */
  predicate OnInfraPlane(kind: MessageType) { kind.DeployAgent? || kind.DeleteAgent? }

  function ToRow(n: Node): NodeRow {
    NodeRow(n.id, if n.parent == ROOT then None else Some(n.parent), MessageTypeWord(n.kind),
            if OnInfraPlane(n.kind) then None else Some(n.session), Some(n.submission),
            if OnInfraPlane(n.kind) then None else Some(n.branch))
  }

  function ParseMessageType(s: string): Option<MessageType> {
    if s == "invoke" then Some(Invoke)
    else if s == "req" || s == "request" then Some(Request)
    else if s == "res" || s == "response" then Some(Response)
    else if s == "complete" then Some(Complete)
    else if s == "fork" then Some(Fork)
    else if s == "promote" then Some(Promote)
    else if s == "deploy-agent" then Some(DeployAgent)
    else if s == "delete-agent" then Some(DeleteAgent)
    else if s == "svc_request" then Some(SvcRequest)
    else if s == "svc_response" then Some(SvcResponse)
    else None
  }

  /** Reading never fails: an unknown type reads as complete, a bad session as the zero session. */
  function FromRow(r: NodeRow): Node {
    var kind := ParseMessageType(r.messageType);
    Node(r.hash,
         if r.parentHash.Some? then r.parentHash.value else ROOT,
         if kind.Some? then kind.value else Complete,
         if r.sessionId.Some? && RoutingTypes.IsSessionId(r.sessionId.value) then r.sessionId.value else ZERO_SESSION,
         if r.submissionId.Some? then r.submissionId.value else "",
         if r.branchId.Some? then r.branchId.value else 0)
  }

  lemma MessageTypeRoundTrip(t: MessageType)
    ensures ParseMessageType(MessageTypeWord(t)) == Some(t)
  {
    assert "deploy-agent"[2] != "delete-agent"[2];
    assert "promote"[0] != "request"[0] && "complete"[0] != "response"[0];
  }

  /**
    A node survives the table exactly when its session is well formed, or, for an
    infrastructure node, when it carried the zero session and branch 0 to begin with.
   */
  lemma RowRoundTrip(n: Node)
    ensures FromRow(ToRow(n)) == n <==>
      if OnInfraPlane(n.kind) then n.session == ZERO_SESSION && n.branch == 0
      else RoutingTypes.IsSessionId(n.session) || n.session == ZERO_SESSION
  {
    MessageTypeRoundTrip(n.kind);
  }

  /** Root and NULL stand for each other, so a stored parent is NULL exactly for a chain's first node. */
  lemma ParentRoundTrip(n: Node)
    ensures FromRow(ToRow(n)).parent == n.parent && FromRow(ToRow(n)).kind == n.kind && FromRow(ToRow(n)).id == n.id
    ensures ToRow(n).parentHash == None <==> n.parent == ROOT
    ensures ToRow(n).hash == n.id && ToRow(n).submissionId == Some(n.submission)
    ensures n.kind.DeployAgent? || n.kind.DeleteAgent? ==> ToRow(n).sessionId == None && ToRow(n).branchId == None
    ensures !n.kind.DeployAgent? && !n.kind.DeleteAgent? ==>
      ToRow(n).sessionId == Some(n.session) && ToRow(n).branchId == Some(n.branch)
  {
    MessageTypeRoundTrip(n.kind);
  }
}
