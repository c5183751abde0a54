/**
  Routing keys on the wire: the builders of both queue back ends, and the parsers.
  A key is a dotted list of segments; the kind word sits at a fixed place.
 */
module RoutingKeys {
  import opened Text
  import opened RoutingTypes

  // ---------------------------------------------------------------- builders

  function DataHead(session: string, branch: int, submission: string): seq<string> {
    ["vlinder", "data", "v1", session, PrintInt(branch), submission]
  }

  function DataKindSegments(kind: DataMessageKind): seq<string> {
    match kind
    case Invoke(harness, runtime, agent) => ["invoke", HarnessWord(harness), RuntimeWord(runtime), agent]
    case Complete(agent, harness) => ["complete", agent, HarnessWord(harness)]
    case Request(agent, service, operation, sequence) =>
      ["request", agent, ServiceWord(TypeOf(service)), BackendWord(service), OperationWord(operation), Digits(sequence)]
    case Response(agent, service, operation, sequence) =>
      ["response", agent, ServiceWord(TypeOf(service)), BackendWord(service), OperationWord(operation),
          Digits(sequence)]
  }

  function DataSegments(key: DataRoutingKey): seq<string> {
    DataHead(key.session, key.branch, key.submission) + DataKindSegments(key.kind)
  }

  function SvcKindSegments(kind: SvcMessageKind): seq<string> {
    [if kind.SvcRequest? then "svc_request" else "svc_response",
     kind.agent, "mcp", kind.service.provider, kind.operation, Digits(kind.sequence)]
  }

  function SvcSegments(key: SvcRoutingKey): seq<string> {
    DataHead(key.session, key.branch, key.submission) + SvcKindSegments(key.kind)
  }

  /** A fork is always sent under branch `1`; a promote names the branch it promotes. */
  function SessionSegments(key: SessionRoutingKey, promoted: int): seq<string> {
    match key.kind
    case Fork(agent) => ["vlinder", key.session, "1", key.submission, "fork", agent]
    case Promote(agent) => ["vlinder", key.session, PrintInt(promoted), key.submission, "promote", agent]
  }

  function InfraSegments(key: InfraRoutingKey): seq<string> {
    ["vlinder", "infra", "v1", key.submission, if key.kind == DeployAgent then "deploy-agent" else "delete-agent"]
  }

  /** Everything either back end can publish, with the promoted branch beside a session key. */
  datatype Routed =
    | Data(data: DataRoutingKey)
    | Svc(svc: SvcRoutingKey)
    | OfSession(key: SessionRoutingKey, promoted: int)
    | Infra(infra: InfraRoutingKey)

  function Segments(r: Routed): (s: seq<string>)
    ensures |s| >= 5
  {
    match r
    case Data(k) => DataSegments(k)
    case Svc(k) => SvcSegments(k)
    case OfSession(k, b) => SessionSegments(k, b)
    case Infra(k) => InfraSegments(k)
  }

  /** The AMQP routing key. The V2 service kinds exist on NATS only. */
  function AmqpKey(r: Routed): string
    requires !r.Svc?
  {
    Join(Segments(r), '.')
  }

  /** `{a}.{rest}` in a format string. */
  function Dot(a: string, rest: string): string { a + "." + rest }

  const DATA_PREFIX := "vlinder.data.v1"

  function ServiceTail(agent: string, service: ServiceBackend, operation: Operation, sequence: nat): string {
    Dot(agent,
        Dot(ServiceWord(TypeOf(service)), Dot(BackendWord(service), Dot(OperationWord(operation), Digits(sequence)))))
  }

  function DataTail(kind: DataMessageKind): string {
    match kind
    case Invoke(harness, runtime, agent) => Dot("invoke", Dot(HarnessWord(harness), Dot(RuntimeWord(runtime), agent)))
    case Complete(agent, harness) => Dot("complete", Dot(agent, HarnessWord(harness)))
    case Request(agent, service, operation, sequence) =>
      Dot("request", ServiceTail(agent, service, operation, sequence))
    case Response(agent, service, operation, sequence) =>
      Dot("response", ServiceTail(agent, service, operation, sequence))
  }

  function SvcTail(kind: SvcMessageKind): string {
    var word := if kind.SvcRequest? then "svc_request" else "svc_response";
    var service := Dot("mcp", Dot(kind.service.provider, Dot(kind.operation, Digits(kind.sequence))));
    Dot(word, Dot(kind.agent, service))
  }

  /** The NATS subject, field by field as its format strings write it. */
  function NatsSubject(r: Routed): string {
    match r
    case Data(k) => Dot(DATA_PREFIX, Dot(k.session, Dot(PrintInt(k.branch), Dot(k.submission, DataTail(k.kind)))))
    case Svc(k) => Dot(DATA_PREFIX, Dot(k.session, Dot(PrintInt(k.branch), Dot(k.submission, SvcTail(k.kind)))))
    case OfSession(k, b) =>
      var branch := if k.kind.Fork? then "1" else PrintInt(b);
      var word := if k.kind.Fork? then "fork" else "promote";
      Dot("vlinder", Dot(k.session, Dot(branch, Dot(k.submission, Dot(word, k.kind.agentName)))))
    case Infra(k) =>
      var word := if k.kind == DeployAgent then "deploy-agent" else "delete-agent";
      Dot("vlinder", Dot("infra", Dot("v1", Dot(k.submission, word))))
  }

  // ---------------------------------------------------------------- parsers

  /** `parse::<i64>().unwrap_or(0)`. */
  function BranchOf(word: string): int {
    match ParseI64(word)
    case Some(n) => n
    case None => 0
  }

  predicate HasDataHead(s: seq<string>, count: nat, kind: string)
    requires count > 6
  {
    |s| == count && s[0] == "vlinder" && s[1] == "data" && s[2] == "v1" && s[6] == kind
  }

  function InvokeParse(text: string): Option<DataRoutingKey> {
    var s := Split(text, '.');
    if !HasDataHead(s, 10, "invoke") || !IsSessionId(s[3]) then None
    else
      match (ParseHarness(s[7]), ParseRuntime(s[8]))
      case (Some(harness), Some(runtime)) =>
        Some(DataRoutingKey(s[3], BranchOf(s[4]), s[5], Invoke(harness, runtime, s[9])))
      case _ => None
  }

  function CompleteParse(text: string): Option<DataRoutingKey> {
    var s := Split(text, '.');
    if !HasDataHead(s, 9, "complete") || !IsSessionId(s[3]) then None
    else
      match ParseHarness(s[8])
      case Some(harness) => Some(DataRoutingKey(s[3], BranchOf(s[4]), s[5], Complete(s[7], harness)))
      case None => None
  }

  /** The three service fields of a request or response key. */
  function ParseService12(s: seq<string>): Option<(ServiceBackend, Operation, nat)>
    requires |s| == 12
  {
    match ParseService(s[8])
    case None => None
    case Some(t) =>
      match (BackendFromParts(t, s[9]), ParseOperation(s[10]), ParseU32(s[11]))
      case (Some(b), Some(o), Some(n)) => Some((b, o, n))
      case _ => None
  }

  function RequestParse(text: string): Option<DataRoutingKey> {
    var s := Split(text, '.');
    if !HasDataHead(s, 12, "request") || !IsSessionId(s[3]) then None
    else
      match ParseService12(s)
      case Some(f) => Some(DataRoutingKey(s[3], BranchOf(s[4]), s[5], Request(s[7], f.0, f.1, f.2)))
      case None => None
  }

  function ResponseParse(text: string): Option<DataRoutingKey> {
    var s := Split(text, '.');
    if !HasDataHead(s, 12, "response") || !IsSessionId(s[3]) then None
    else
      match ParseService12(s)
      case Some(f) => Some(DataRoutingKey(s[3], BranchOf(s[4]), s[5], Response(s[7], f.0, f.1, f.2)))
      case None => None
  }

  function SvcRequestParse(text: string): Option<SvcRoutingKey> {
    var s := Split(text, '.');
    if !HasDataHead(s, 12, "svc_request") || !IsSessionId(s[3]) then None
    else
      match (BackendV2FromParts(s[8], s[9]), ParseU32(s[11]))
      case (Some(b), Some(n)) => Some(SvcRoutingKey(s[3], BranchOf(s[4]), s[5], SvcRequest(s[7], b, s[10], n)))
      case _ => None
  }

  function SvcResponseParse(text: string): Option<SvcRoutingKey> {
    var s := Split(text, '.');
    if !HasDataHead(s, 12, "svc_response") || !IsSessionId(s[3]) then None
    else
      match (BackendV2FromParts(s[8], s[9]), ParseU32(s[11]))
      case (Some(b), Some(n)) => Some(SvcRoutingKey(s[3], BranchOf(s[4]), s[5], SvcResponse(s[7], b, s[10], n)))
      case _ => None
  }

  function ForkParse(text: string): Option<SessionRoutingKey> {
    var s := Split(text, '.');
    if |s| != 6 || s[0] != "vlinder" || s[4] != "fork" || !IsSessionId(s[1]) then None
    else Some(SessionRoutingKey(s[1], s[3], Fork(s[5])))
  }

  function PromoteParse(text: string): Option<SessionRoutingKey> {
    var s := Split(text, '.');
    if |s| != 6 || s[0] != "vlinder" || s[4] != "promote" || !IsSessionId(s[1]) then None
    else Some(SessionRoutingKey(s[1], s[3], Promote(s[5])))
  }

  function DeployAgentParse(text: string): Option<InfraRoutingKey> {
    var s := Split(text, '.');
    if |s| != 5 || s[0] != "vlinder" || s[1] != "infra" || s[2] != "v1" || s[4] != "deploy-agent" then None
    else Some(InfraRoutingKey(s[3], DeployAgent))
  }

  function DeleteAgentParse(text: string): Option<InfraRoutingKey> {
    var s := Split(text, '.');
    if |s| != 5 || s[0] != "vlinder" || s[1] != "infra" || s[2] != "v1" || s[4] != "delete-agent" then None
    else Some(InfraRoutingKey(s[3], DeleteAgent))
  }

  datatype KeyKind =
    | InvokeKey | CompleteKey | RequestKey | ResponseKey | SvcRequestKey | SvcResponseKey
    | ForkKey | PromoteKey | DeployAgentKey | DeleteAgentKey

  function KindOf(r: Routed): KeyKind {
    match r
    case Data(k) => (match k.kind
                     case Invoke(_, _, _) => InvokeKey
                     case Complete(_, _) => CompleteKey
                     case Request(_, _, _, _) => RequestKey
                     case Response(_, _, _, _) => ResponseKey)
    case Svc(k) => if k.kind.SvcRequest? then SvcRequestKey else SvcResponseKey
    case OfSession(k, _) => if k.kind.Fork? then ForkKey else PromoteKey
    case Infra(k) => if k.kind == DeployAgent then DeployAgentKey else DeleteAgentKey
  }

  /** What one kind's parser makes of a text: the domain keys, wrapped. */
  datatype Parsed = NoKey | DataKey(data: DataRoutingKey) | SvcKey(svc: SvcRoutingKey)
                  | SessionKey(session: SessionRoutingKey) | InfraKey(infra: InfraRoutingKey)

  function WrapData(k: Option<DataRoutingKey>): Parsed { if k.Some? then DataKey(k.value) else NoKey }

  function WrapSvc(k: Option<SvcRoutingKey>): Parsed { if k.Some? then SvcKey(k.value) else NoKey }

  function WrapSession(k: Option<SessionRoutingKey>): Parsed { if k.Some? then SessionKey(k.value) else NoKey }

  function WrapInfra(k: Option<InfraRoutingKey>): Parsed { if k.Some? then InfraKey(k.value) else NoKey }

  function ParseAs(kind: KeyKind, text: string): Parsed {
    match kind
    case InvokeKey => WrapData(InvokeParse(text))
    case CompleteKey => WrapData(CompleteParse(text))
    case RequestKey => WrapData(RequestParse(text))
    case ResponseKey => WrapData(ResponseParse(text))
    case SvcRequestKey => WrapSvc(SvcRequestParse(text))
    case SvcResponseKey => WrapSvc(SvcResponseParse(text))
    case ForkKey => WrapSession(ForkParse(text))
    case PromoteKey => WrapSession(PromoteParse(text))
    case DeployAgentKey => WrapInfra(DeployAgentParse(text))
    case DeleteAgentKey => WrapInfra(DeleteAgentParse(text))
  }

  /** The domain key inside a published message. */
  function KeyOf(r: Routed): Parsed {
    match r
    case Data(k) => DataKey(k)
    case Svc(k) => SvcKey(k)
    case OfSession(k, _) => SessionKey(k)
    case Infra(k) => InfraKey(k)
  }

  // ---------------------------------------------------------------- theorems

  /** The domain types' own guarantees: a session is a UUID, a branch an i64, a sequence a u32. */
  predicate Typed(r: Routed) {
    match r
    case Data(k) =>
      && IsSessionId(k.session) && I64_MIN <= k.branch <= I64_MAX
      && (k.kind.Request? || k.kind.Response? ==> k.kind.sequence <= U32_MAX)
    case Svc(k) => IsSessionId(k.session) && I64_MIN <= k.branch <= I64_MAX && k.kind.sequence <= U32_MAX
    case OfSession(k, b) => IsSessionId(k.session) && I64_MIN <= b <= I64_MAX
    case Infra(k) => true
  }

  /** The fields that are free text. */
  function FreeFields(r: Routed): seq<string> {
    match r
    case Data(k) => [k.submission, k.kind.agent]
    case Svc(k) => [k.submission, k.kind.agent, k.kind.service.provider, k.kind.operation]
    case OfSession(k, _) => [k.submission, k.kind.agentName]
    case Infra(k) => [k.submission]
  }

  predicate OnS3(r: Routed) {
    r.Data? && (r.data.kind.Request? || r.data.kind.Response?) && r.data.kind.service == Kv(S3)
  }

  lemma AllFreeConcat(a: seq<string>, b: seq<string>)
    ensures AllFree(a + b, '.') <==> AllFree(a, '.') && AllFree(b, '.')
  {
    if AllFree(a + b, '.') {
      forall i | 0 <= i < |a| ensures '.' !in a[i] { assert (a + b)[i] == a[i]; }
      forall i | 0 <= i < |b| ensures '.' !in b[i] { assert (a + b)[|a| + i] == b[i]; }
    }
  }

  lemma DataHeadDotFree(session: string, branch: int, submission: string)
    requires IsSessionId(session)
    ensures AllFree(DataHead(session, branch, submission), '.') <==> '.' !in submission
  {
    var s := DataHead(session, branch, submission);
    SessionPlain(session);
    NumeralPlain(branch);
    assert s[5] == submission;
  }

  lemma DataKindDotFree(kind: DataMessageKind)
    ensures AllFree(DataKindSegments(kind), '.') <==> '.' !in kind.agent
  {
    var s := DataKindSegments(kind);
    match kind
    case Invoke(h, t, a) => HarnessPlain(h); RuntimePlain(t); assert s[3] == a;
    case Complete(a, h) => HarnessPlain(h); assert s[1] == a;
    case Request(a, b, o, n) => BackendPlain(b); OperationPlain(o); NumeralPlain(n); assert s[1] == a;
    case Response(a, b, o, n) => BackendPlain(b); OperationPlain(o); NumeralPlain(n); assert s[1] == a;
  }

  lemma SvcKindDotFree(kind: SvcMessageKind)
    ensures AllFree(SvcKindSegments(kind), '.')
       <==> '.' !in kind.agent && '.' !in kind.service.provider && '.' !in kind.operation
  {
    var s := SvcKindSegments(kind);
    NumeralPlain(kind.sequence);
    assert s[1] == kind.agent && s[3] == kind.service.provider && s[4] == kind.operation;
  }

  lemma FixedSegmentsDotFree(r: Routed)
    requires Typed(r)
    ensures AllFree(Segments(r), '.') <==> AllFree(FreeFields(r), '.')
  {
    var s, f := Segments(r), FreeFields(r);
    match r
    case Data(k) =>
      DataHeadDotFree(k.session, k.branch, k.submission);
      DataKindDotFree(k.kind);
      AllFreeConcat(DataHead(k.session, k.branch, k.submission), DataKindSegments(k.kind));
      assert f[0] == k.submission && f[1] == k.kind.agent;
    case Svc(k) =>
      DataHeadDotFree(k.session, k.branch, k.submission);
      SvcKindDotFree(k.kind);
      AllFreeConcat(DataHead(k.session, k.branch, k.submission), SvcKindSegments(k.kind));
      assert f[0] == k.submission && f[1] == k.kind.agent && f[2] == k.kind.service.provider &&
        f[3] == k.kind.operation;
    case OfSession(k, b) =>
      SessionPlain(k.session);
      NumeralPlain(b);
      assert f[0] == s[3] && f[1] == s[5];
    case Infra(k) =>
      assert f[0] == s[3];
  }

  lemma DataSegmentsAt(k: DataRoutingKey)
    ensures var s := DataSegments(k);
      && s[0] == "vlinder" && s[1] == "data" && s[2] == "v1" && s[3] == k.session
      && s[4] == PrintInt(k.branch) && s[5] == k.submission
    ensures |DataSegments(k)| == 6 + |DataKindSegments(k.kind)|
    ensures forall i :: 6 <= i < |DataSegments(k)| ==> DataSegments(k)[i] == DataKindSegments(k.kind)[i - 6]
  {}

  lemma InvokeParsesBack(k: DataRoutingKey)
    requires k.kind.Invoke? && Typed(Data(k)) && AllFree(DataSegments(k), '.')
    ensures InvokeParse(Join(DataSegments(k), '.')) == Some(k)
  {
    SplitJoin(DataSegments(k), '.');
    DataSegmentsAt(k);
    I64RoundTrip(k.branch);
    WordsRoundTrip(k.kind.harness, k.kind.runtime, KvService, Get);
  }

  lemma CompleteParsesBack(k: DataRoutingKey)
    requires k.kind.Complete? && Typed(Data(k)) && AllFree(DataSegments(k), '.')
    ensures CompleteParse(Join(DataSegments(k), '.')) == Some(k)
  {
    SplitJoin(DataSegments(k), '.');
    DataSegmentsAt(k);
    I64RoundTrip(k.branch);
    WordsRoundTrip(k.kind.harness, Lambda, KvService, Get);
  }

  lemma ServiceFieldsParseBack(s: seq<string>, b: ServiceBackend, o: Operation, n: nat)
    requires |s| == 12 && n <= U32_MAX
    requires s[8] == ServiceWord(TypeOf(b)) && s[9] == BackendWord(b) && s[10] == OperationWord(o) && s[11] == Digits(n)
    ensures ParseService12(s) == if b == Kv(S3) then None else Some((b, o, n))
  {
    WordsRoundTrip(Cli, Lambda, TypeOf(b), o);
    BackendRoundTrip(b);
    U32RoundTrip(n);
  }

  lemma ServiceKeyParsesBack(k: DataRoutingKey)
    requires k.kind.Request? || k.kind.Response?
    requires Typed(Data(k)) && AllFree(DataSegments(k), '.')
    ensures k.kind.Request? ==>
        RequestParse(Join(DataSegments(k), '.')) == if k.kind.service == Kv(S3) then None else Some(k)
    ensures k.kind.Response? ==>
        ResponseParse(Join(DataSegments(k), '.')) == if k.kind.service == Kv(S3) then None else Some(k)
  {
    SplitJoin(DataSegments(k), '.');
    DataSegmentsAt(k);
    I64RoundTrip(k.branch);
    ServiceFieldsParseBack(DataSegments(k), k.kind.service, k.kind.operation, k.kind.sequence);
  }

  lemma SvcParsesBack(k: SvcRoutingKey)
    requires Typed(Svc(k)) && AllFree(SvcSegments(k), '.')
    ensures ParseAs(KindOf(Svc(k)), Join(SvcSegments(k), '.')) == SvcKey(k)
  {
    var s := SvcSegments(k);
    SplitJoin(s, '.');
    I64RoundTrip(k.branch);
    U32RoundTrip(k.kind.sequence);
    assert s[..6] == DataHead(k.session, k.branch, k.submission) && s[6..] == SvcKindSegments(k.kind);
    assert forall i :: 0 <= i < |s| - 6 ==> s[6 + i] == s[6..][i];
  }

  lemma ParsesBack(r: Routed)
    requires Typed(r) && AllFree(Segments(r), '.')
    ensures ParseAs(KindOf(r), Join(Segments(r), '.')) == if OnS3(r) then NoKey else KeyOf(r)
  {
    match r
    case Data(k) =>
      match k.kind {
        case Invoke(_, _, _) => InvokeParsesBack(k);
        case Complete(_, _) => CompleteParsesBack(k);
        case Request(_, _, _, _) => ServiceKeyParsesBack(k);
        case Response(_, _, _, _) => ServiceKeyParsesBack(k);
      }
    case Svc(k) => SvcParsesBack(k);
    case OfSession(k, b) => SplitJoin(Segments(r), '.');
    case Infra(k) => SplitJoin(Segments(r), '.');
  }

  /** Where a text of each kind shows which kind it is. */
  function Shape(kind: KeyKind): (nat, nat, string) {
    match kind
    case InvokeKey => (10, 6, "invoke")
    case CompleteKey => (9, 6, "complete")
    case RequestKey => (12, 6, "request")
    case ResponseKey => (12, 6, "response")
    case SvcRequestKey => (12, 6, "svc_request")
    case SvcResponseKey => (12, 6, "svc_response")
    case ForkKey => (6, 4, "fork")
    case PromoteKey => (6, 4, "promote")
    case DeployAgentKey => (5, 4, "deploy-agent")
    case DeleteAgentKey => (5, 4, "delete-agent")
  }

  lemma AcceptedShape(kind: KeyKind, text: string)
    requires ParseAs(kind, text) != NoKey
    ensures |Split(text, '.')| == Shape(kind).0 && Split(text, '.')[Shape(kind).1] == Shape(kind).2
  {}

  lemma SegmentCount(r: Routed)
    ensures |Segments(r)| == Shape(KindOf(r)).0
  {}

  lemma TooManySegments(r: Routed)
    requires !AllFree(Segments(r), '.')
    ensures ParseAs(KindOf(r), Join(Segments(r), '.')) == NoKey
  {
    var text := Join(Segments(r), '.');
    SplitJoinExact(Segments(r), '.');
    SegmentCount(r);
    if ParseAs(KindOf(r), text) != NoKey { AcceptedShape(KindOf(r), text); }
  }

  /**
    The round trip, exactly: a built key parses back to the key it was built from if and
    only if its free-text fields hold no dot and it does not address object storage on S3;
    otherwise its own parser rejects it.
   */
  lemma KeyRoundTrip(r: Routed)
    requires Typed(r)
    ensures ParseAs(KindOf(r), Join(Segments(r), '.'))
         == if AllFree(FreeFields(r), '.') && !OnS3(r) then KeyOf(r) else NoKey
  {
    FixedSegmentsDotFree(r);
    if AllFree(Segments(r), '.') { ParsesBack(r); } else { TooManySegments(r); }
  }

  /** A request for object storage on S3 is published under a key no receiver can parse. */
  lemma S3RequestIsUnparsable()
    ensures ParseAs(RequestKey,
              AmqpKey(Data(DataRoutingKey(Pad(0, 32), 1, "sub-1", Request("echo", Kv(S3), Get, 1))))) == NoKey
  {
    var nil := Pad(0, 32);
    assert IsSimpleUuid(nil);
    var r := Data(DataRoutingKey(nil, 1, "sub-1", Request("echo", Kv(S3), Get, 1)));
    assert KindOf(r) == RequestKey && OnS3(r) && Typed(r);
    KeyRoundTrip(r);
  }

  /** No text at all is accepted by the parsers of two kinds. */
  lemma ParsersAreDisjoint(a: KeyKind, b: KeyKind, text: string)
    requires ParseAs(a, text) != NoKey && ParseAs(b, text) != NoKey
    ensures a == b
  {
    AcceptedShape(a, text);
    AcceptedShape(b, text);
    assert "request" != "svc_request" && "response" != "svc_response" && "fork" != "promote";
    assert "deploy-agent"[2] != "delete-agent"[2];
  }

  lemma JoinCons(a: string, rest: seq<string>)
    requires |rest| >= 1
    ensures Join([a] + rest, '.') == Dot(a, Join(rest, '.'))
  {
    assert ([a] + rest)[1..] == rest;
  }

  lemma PrefixIsThreeSegments(rest: string)
    ensures Dot("vlinder", Dot("data", Dot("v1", rest))) == Dot(DATA_PREFIX, rest)
  {
    assert DATA_PREFIX == "vlinder" + "." + "data" + "." + "v1";
  }

  lemma JoinThreeCons(a: string, b: string, c: string, rest: seq<string>)
    requires |rest| >= 1
    ensures Join([a, b, c] + rest, '.') == Dot(a, Dot(b, Dot(c, Join(rest, '.'))))
  {
    var r2 := [c] + rest;
    var r1 := [b] + r2;
    assert [a, b, c] + rest == [a] + r1;
    JoinCons(c, rest);
    JoinCons(b, r2);
    JoinCons(a, r1);
  }

  lemma HeadSplits(session: string, branch: int, submission: string, rest: seq<string>)
    ensures DataHead(session, branch, submission) + rest
         == ["vlinder", "data", "v1"] + ([session, PrintInt(branch), submission] + rest)
  {}

  lemma JoinHead(session: string, branch: int, submission: string, rest: seq<string>)
    requires |rest| >= 1
    ensures Join(DataHead(session, branch, submission) + rest, '.')
         == Dot(DATA_PREFIX, Dot(session, Dot(PrintInt(branch), Dot(submission, Join(rest, '.')))))
  {
    var inner := [session, PrintInt(branch), submission] + rest;
    calc {
      Join(DataHead(session, branch, submission) + rest, '.');
      { HeadSplits(session, branch, submission, rest); }
      Join(["vlinder", "data", "v1"] + inner, '.');
      { JoinThreeCons("vlinder", "data", "v1", inner); }
      Dot("vlinder", Dot("data", Dot("v1", Join(inner, '.'))));
      { PrefixIsThreeSegments(Join(inner, '.')); }
      Dot(DATA_PREFIX, Join(inner, '.'));
      { JoinThreeCons(session, PrintInt(branch), submission, rest); }
      Dot(DATA_PREFIX, Dot(session, Dot(PrintInt(branch), Dot(submission, Join(rest, '.')))));
    }
  }

  lemma JoinThree(a: string, b: string, c: string)
    ensures Join([a, b, c], '.') == Dot(a, Dot(b, c))
  {
    assert [a, b, c] == [a] + [b, c] && [b, c] == [b] + [c];
    JoinCons(b, [c]);
    JoinCons(a, [b, c]);
  }

  lemma JoinSix(a: string, b: string, c: string, d: string, e: string, f: string)
    ensures Join([a, b, c, d, e, f], '.') == Dot(a, Dot(b, Dot(c, Dot(d, Dot(e, f)))))
  {
    JoinThree(d, e, f);
    assert [c, d, e, f] == [c] + [d, e, f];
    assert [b, c, d, e, f] == [b] + [c, d, e, f];
    assert [a, b, c, d, e, f] == [a] + [b, c, d, e, f];
    JoinCons(c, [d, e, f]);
    JoinCons(b, [c, d, e, f]);
    JoinCons(a, [b, c, d, e, f]);
  }

  lemma DataBackEndsAgree(k: DataRoutingKey)
    ensures NatsSubject(Data(k)) == Join(DataSegments(k), '.')
  {
    var tail := DataKindSegments(k.kind);
    JoinHead(k.session, k.branch, k.submission, tail);
    match k.kind
    case Invoke(h, t, a) =>
      JoinThree(HarnessWord(h), RuntimeWord(t), a);
      assert tail == ["invoke"] + [HarnessWord(h), RuntimeWord(t), a];
      JoinCons("invoke", [HarnessWord(h), RuntimeWord(t), a]);
    case Complete(a, h) => JoinThree("complete", a, HarnessWord(h));
    case Request(a, b, o, n) => JoinSix(tail[0], tail[1], tail[2], tail[3], tail[4], tail[5]);
    case Response(a, b, o, n) => JoinSix(tail[0], tail[1], tail[2], tail[3], tail[4], tail[5]);
  }

  /** Both back ends give one message the same name, whatever its fields hold. */
  lemma BackEndsAgree(r: Routed)
    ensures NatsSubject(r) == Join(Segments(r), '.')
    ensures !r.Svc? ==> AmqpKey(r) == NatsSubject(r)
  {
    match r
    case Data(k) => DataBackEndsAgree(k);
    case Svc(k) =>
      var t := SvcKindSegments(k.kind);
      JoinHead(k.session, k.branch, k.submission, t);
      JoinSix(t[0], t[1], t[2], t[3], t[4], t[5]);
    case OfSession(k, b) =>
      var s := Segments(r);
      JoinSix(s[0], s[1], s[2], s[3], s[4], s[5]);
    case Infra(k) =>
      var s := Segments(r);
      JoinThree(s[2], s[3], s[4]);
      assert s == [s[0]] + ([s[1]] + [s[2], s[3], s[4]]);
      JoinCons(s[1], [s[2], s[3], s[4]]);
      JoinCons(s[0], [s[1]] + [s[2], s[3], s[4]]);
  }

  // ---------------------------------------------------------------- on the wire

  /** One key of each kind as it is written, segment by segment: the head, the kind, and the fields in order. */
  lemma KeysOnTheWire(s: string, u: string, a: string, r: Routed)
    ensures NatsSubject(r) == Join(Segments(r), '.') && (!r.Svc? ==> AmqpKey(r) == Join(Segments(r), '.'))
    ensures var head := ["vlinder", "data", "v1", s, "1", u];
      && Segments(Data(DataRoutingKey(s, 1, u, Invoke(Web, Container, a)))) == head + ["invoke", "web", "container", a]
      && Segments(Data(DataRoutingKey(s, 1, u, Complete(a, Web)))) == head + ["complete", a, "web"]
      && Segments(Data(DataRoutingKey(s, 1, u, Request(a, Kv(Sqlite), Get, 7)))) ==
           head + ["request", a, "kv", "sqlite", "get", "7"]
      && Segments(Data(DataRoutingKey(s, 1, u, Response(a, Kv(Sqlite), Get, 7)))) ==
           head + ["response", a, "kv", "sqlite", "get", "7"]
      && Segments(Svc(SvcRoutingKey(s, 1, u, SvcRequest(a, Mcp("files"), "read", 7)))) ==
           head + ["svc_request", a, "mcp", "files", "read", "7"]
    ensures Segments(OfSession(SessionRoutingKey(s, u, Fork(a)), 5)) == ["vlinder", s, "1", u, "fork", a]
    ensures Segments(OfSession(SessionRoutingKey(s, u, Promote(a)), 5)) == ["vlinder", s, "5", u, "promote", a]
    ensures Segments(Infra(InfraRoutingKey(u, DeployAgent))) == ["vlinder", "infra", "v1", u, "deploy-agent"]
  {
    BackEndsAgree(r);
    assert Digits(7) == "7" && PrintInt(1) == "1" && PrintInt(5) == "5";
  }
}
