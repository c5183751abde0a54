/**
  Readiness: each worker of an agent reports its status, and the agent's state is derived
  from the newest status of every worker.
 */
module Readiness {
  import opened Text

  datatype CheckStatus = Pending | Ready | Failed | Deleting | Deleted

  datatype AgentState = Deploying | Live | FailedState | DeletingState | DeletedState

  datatype Check = Check(agent: string, worker: string, status: CheckStatus)

  /** The fold over the workers' newest statuses, with its two early exits. */
  function DeriveFrom(statuses: seq<CheckStatus>, allReady: bool, allDeleted: bool, anyDeleted: bool): AgentState {
    if statuses == [] then
      if allReady then Live else if allDeleted then DeletedState else if anyDeleted then DeletingState else Deploying
    else
      match statuses[0]
      case Failed => FailedState
      case Deleting => DeletingState
      case Deleted => DeriveFrom(statuses[1..], false, allDeleted, true)
      case Ready => DeriveFrom(statuses[1..], allReady, false, anyDeleted)
      case Pending => DeriveFrom(statuses[1..], false, false, anyDeleted)
  }

  function DeriveStatus(statuses: seq<CheckStatus>): Option<AgentState> {
    if statuses == [] then None else Some(DeriveFrom(statuses, true, true, false))
  }

  method Derive(statuses: seq<CheckStatus>) returns (r: Option<AgentState>)
    ensures r == DeriveStatus(statuses)
  {
    if statuses == [] { return None; }
    var allReady, allDeleted, anyDeleted := true, true, false;
    for i := 0 to |statuses|
      invariant DeriveFrom(statuses, true, true, false) == DeriveFrom(statuses[i..], allReady, allDeleted, anyDeleted)
    {
      match statuses[i]
      case Failed => return Some(FailedState);
      case Deleting => return Some(DeletingState);
      case Deleted => allReady, anyDeleted := false, true;
      case Ready => allDeleted := false;
      case Pending => allReady, allDeleted := false, false;
    }
    return Some(
      if allReady then Live else if allDeleted then DeletedState else if anyDeleted then DeletingState else Deploying);
  }

  /** The first worker that failed or is deleting. */
  function FirstDecisive(statuses: seq<CheckStatus>): Option<CheckStatus> {
    if statuses == [] then None
    else if statuses[0] == Failed || statuses[0] == Deleting then Some(statuses[0])
    else FirstDecisive(statuses[1..])
  }

  predicate AllAre(statuses: seq<CheckStatus>, s: CheckStatus) { forall t :: t in statuses ==> t == s }

  lemma AllAreCons(statuses: seq<CheckStatus>, t: CheckStatus)
    requires statuses != []
    ensures AllAre(statuses, t) <==> statuses[0] == t && AllAre(statuses[1..], t)
  {
    assert statuses == [statuses[0]] + statuses[1..];
    assert statuses[0] in statuses;
    assert forall u :: u in statuses[1..] ==> u in statuses;
  }

  lemma {:induction false} DeriveFromMeaning(
      statuses: seq<CheckStatus>, allReady: bool, allDeleted: bool, anyDeleted: bool)
    ensures DeriveFrom(statuses, allReady, allDeleted, anyDeleted) ==
      match FirstDecisive(statuses)
      case Some(s) => if s == Failed then FailedState else DeletingState
      case None =>
        if allReady && AllAre(statuses, Ready) then Live
        else if allDeleted && AllAre(statuses, Deleted) then DeletedState
        else if anyDeleted || Deleted in statuses then DeletingState
        else Deploying
  {
    if statuses != [] {
      var s, rest := statuses[0], statuses[1..];
      assert statuses == [s] + rest;
      AllAreCons(statuses, Ready);
      AllAreCons(statuses, Deleted);
      DeriveFromMeaning(rest, allReady && s == Ready, allDeleted && s == Deleted, anyDeleted || s == Deleted);
    }
  }

  lemma {:induction false} NoneDecides(statuses: seq<CheckStatus>)
    ensures FirstDecisive(statuses) == None <==> Failed !in statuses && Deleting !in statuses
    ensures FirstDecisive(statuses).Some? ==>
        FirstDecisive(statuses).value == Failed || FirstDecisive(statuses).value == Deleting
  {
    if statuses != [] {
      assert statuses == [statuses[0]] + statuses[1..];
      NoneDecides(statuses[1..]);
    }
  }

  /**
    What the fold means. Failed or deleting workers decide, the first of them winning; without
    one, all ready is live, all deleted is deleted, some deleted is deleting, else deploying.
   */
  lemma DerivedStatusMeaning(statuses: seq<CheckStatus>)
    ensures var r := DeriveStatus(statuses);
      var undecided := Failed !in statuses && Deleting !in statuses;
      && (r == None <==> statuses == [])
      && (r == Some(FailedState) <==> FirstDecisive(statuses) == Some(Failed))
      && (r == Some(Live) <==> statuses != [] && AllAre(statuses, Ready))
      && (r == Some(DeletedState) <==> statuses != [] && AllAre(statuses, Deleted))
      && (r == Some(DeletingState) <==>
            FirstDecisive(statuses) == Some(Deleting) ||
                (undecided && Deleted in statuses && !AllAre(statuses, Deleted)))
      && (r == Some(Deploying) <==> undecided && Deleted !in statuses && Pending in statuses)
  {
    DeriveFromMeaning(statuses, true, true, false);
    NoneDecides(statuses);
    if statuses != [] { assert statuses[0] in statuses; }
  }
}
