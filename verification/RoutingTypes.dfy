/**
  Routing keys as domain types, and the words that stand for them on the wire.
 */
module RoutingTypes {
  import opened Text

  datatype HarnessType = Cli | Web | Api | Whatsapp | Grpc

  datatype RuntimeType = Container | Lambda

  datatype ServiceType = KvService | VecService | InferService | EmbedService

  datatype ObjectStorageType = Sqlite | ObjectMemory | S3

  datatype VectorStorageType = SqliteVec | VectorMemory

  datatype InferenceBackendType = InferOllama | InferOpenRouter

  datatype EmbeddingBackendType = EmbedOllama

  datatype ServiceBackend =
    | Kv(object: ObjectStorageType)
    | Vec(vector: VectorStorageType)
    | Infer(inference: InferenceBackendType)
    | Embed(embedding: EmbeddingBackendType)

  datatype Operation = Get | Put | List | Delete | Store | Search | Run | Chat | Generate

  /** V2 service backends: only MCP providers, named freely. */
  datatype ServiceBackendV2 = Mcp(provider: string)

  datatype DataMessageKind =
    | Invoke(harness: HarnessType, runtime: RuntimeType, agent: string)
    | Complete(agent: string, harness: HarnessType)
    | Request(agent: string, service: ServiceBackend, operation: Operation, sequence: nat)
    | Response(agent: string, service: ServiceBackend, operation: Operation, sequence: nat)

  datatype DataRoutingKey = DataRoutingKey(session: string, branch: int, submission: string, kind: DataMessageKind)

  datatype SvcMessageKind =
    | SvcRequest(agent: string, service: ServiceBackendV2, operation: string, sequence: nat)
    | SvcResponse(agent: string, service: ServiceBackendV2, operation: string, sequence: nat)

  datatype SvcRoutingKey = SvcRoutingKey(session: string, branch: int, submission: string, kind: SvcMessageKind)

  datatype SessionMessageKind = Fork(agentName: string) | Promote(agentName: string)

  datatype SessionRoutingKey = SessionRoutingKey(session: string, submission: string, kind: SessionMessageKind)

  datatype InfraMessageKind = DeployAgent | DeleteAgent

  datatype InfraRoutingKey = InfraRoutingKey(submission: string, kind: InfraMessageKind)

  // ---------------------------------------------------------------- words

  function HarnessWord(h: HarnessType): string {
    match h
    case Cli => "cli"
    case Web => "web"
    case Api => "api"
    case Whatsapp => "whatsapp"
    case Grpc => "grpc"
  }

  function ParseHarness(s: string): Option<HarnessType> {
    if s == "cli" then Some(Cli)
    else if s == "web" then Some(Web)
    else if s == "api" then Some(Api)
    else if s == "whatsapp" then Some(Whatsapp)
    else if s == "grpc" then Some(Grpc)
    else None
  }

  function RuntimeWord(r: RuntimeType): string {
    match r
    case Container => "container"
    case Lambda => "lambda"
  }

  function ParseRuntime(s: string): Option<RuntimeType> {
    if s == "container" then Some(Container) else if s == "lambda" then Some(Lambda) else None
  }

  function TypeOf(b: ServiceBackend): ServiceType {
    match b
    case Kv(_) => KvService
    case Vec(_) => VecService
    case Infer(_) => InferService
    case Embed(_) => EmbedService
  }

  function ServiceWord(t: ServiceType): string {
    match t
    case KvService => "kv"
    case VecService => "vec"
    case InferService => "infer"
    case EmbedService => "embed"
  }

  function ParseService(s: string): Option<ServiceType> {
    if s == "kv" then Some(KvService)
    else if s == "vec" then Some(VecService)
    else if s == "infer" then Some(InferService)
    else if s == "embed" then Some(EmbedService)
    else None
  }

  function BackendWord(b: ServiceBackend): string {
    match b
    case Kv(Sqlite) => "sqlite"
    case Kv(ObjectMemory) => "memory"
    case Kv(S3) => "s3"
    case Vec(SqliteVec) => "sqlite-vec"
    case Vec(VectorMemory) => "memory"
    case Infer(InferOllama) => "ollama"
    case Infer(InferOpenRouter) => "openrouter"
    case Embed(EmbedOllama) => "ollama"
  }

  /** `ServiceBackend::from_parts`: it has no arm for object storage on S3. */
  function BackendFromParts(t: ServiceType, word: string): Option<ServiceBackend> {
    match t
    case KvService =>
      if word == "sqlite" then Some(Kv(Sqlite)) else if word == "memory" then Some(Kv(ObjectMemory)) else None
    case VecService =>
      if word == "sqlite-vec" then Some(Vec(SqliteVec)) else if word == "memory" then Some(Vec(VectorMemory)) else None
    case InferService =>
      if word == "ollama" then Some(Infer(InferOllama))
      else if word == "openrouter" then Some(Infer(InferOpenRouter)) else None
    case EmbedService =>
      if word == "ollama" then Some(Embed(EmbedOllama)) else None
  }

  function OperationWord(o: Operation): string {
    match o
    case Get => "get"
    case Put => "put"
    case List => "list"
    case Delete => "delete"
    case Store => "store"
    case Search => "search"
    case Run => "run"
    case Chat => "chat"
    case Generate => "generate"
  }

  function ParseOperation(s: string): Option<Operation> {
    if s == "get" then Some(Get)
    else if s == "put" then Some(Put)
    else if s == "list" then Some(List)
    else if s == "delete" then Some(Delete)
    else if s == "store" then Some(Store)
    else if s == "search" then Some(Search)
    else if s == "run" then Some(Run)
    else if s == "chat" then Some(Chat)
    else if s == "generate" then Some(Generate)
    else None
  }

  /** `ServiceBackendV2::from_parts`. */
  function BackendV2FromParts(serviceType: string, backend: string): Option<ServiceBackendV2> {
    if serviceType == "mcp" then Some(Mcp(backend)) else None
  }

  // ---------------------------------------------------------------- session ids

  predicate IsHex(c: char) { IsDigit(c) || 'a' <= c <= 'f' || 'A' <= c <= 'F' }

  predicate IsSimpleUuid(s: string) {
    |s| == 32 && forall i :: 0 <= i < 32 ==> IsHex(s[i])
  }

  predicate IsHyphenatedUuid(s: string) {
    |s| == 36 && forall i :: 0 <= i < 36 ==>
        if i == 8 || i == 13 || i == 18 || i == 23 then s[i] == '-' else IsHex(s[i])
  }

  /** The texts `Uuid::parse_str` accepts, which is what makes a string a `SessionId`. */
  predicate IsSessionId(s: string) {
    || IsSimpleUuid(s)
    || IsHyphenatedUuid(s)
    || (|s| == 38 && s[0] == '{' && s[37] == '}' && IsHyphenatedUuid(s[1..37]))
    || (|s| == 45 && s[..9] == "urn:uuid:" && IsHyphenatedUuid(s[9..]))
  }

  /** A session id can hold neither the separator nor a wildcard. */
  lemma SessionIdChars(s: string, c: char)
    requires IsSessionId(s)
    requires c == '.' || c == '*' || c == '#' || c == '>' || c == '/'
    ensures c !in s && s != ""
  {
    if |s| == 38 {
      assert s == [s[0]] + s[1..37] + [s[37]];
    } else if |s| == 45 {
      assert s == s[..9] + s[9..];
      assert c !in "urn:uuid:";
    }
  }

  // ---------------------------------------------------------------- word round trips

  lemma WordsRoundTrip(h: HarnessType, r: RuntimeType, t: ServiceType, o: Operation)
    ensures ParseHarness(HarnessWord(h)) == Some(h)
    ensures ParseRuntime(RuntimeWord(r)) == Some(r)
    ensures ParseService(ServiceWord(t)) == Some(t)
    ensures ParseOperation(OperationWord(o)) == Some(o)
  {
    assert ParseHarness(HarnessWord(h)) == Some(h) by {
      match h { case Cli => case Web => case Api => case Whatsapp => case Grpc => }
    }
    assert ParseOperation(OperationWord(o)) == Some(o) by {
      match o {
        case Get => case Put => case List => case Delete => case Store =>
        case Search => case Run => case Chat => case Generate =>
      }
    }
  }

  /** A backend comes back from its two words unless it is object storage on S3. */
  lemma BackendRoundTrip(b: ServiceBackend)
    ensures BackendFromParts(TypeOf(b), BackendWord(b)) == if b == Kv(S3) then None else Some(b)
  {
    match b {
      case Kv(o) => match o { case Sqlite => case ObjectMemory => case S3 => }
      case Vec(v) => match v { case SqliteVec => case VectorMemory => }
      case Infer(i) => match i { case InferOllama => case InferOpenRouter => }
      case Embed(e) => match e { case EmbedOllama => }
    }
  }

  /** A segment that is free of the separator and of every wildcard. */
  predicate Plain(s: string) {
    && '.' !in s && '*' !in s && '#' !in s && '>' !in s
  }

  lemma HarnessPlain(h: HarnessType)
    ensures Plain(HarnessWord(h))
  {
    match h { case Cli => case Web => case Api => case Whatsapp => case Grpc => }
  }

  lemma RuntimePlain(r: RuntimeType)
    ensures Plain(RuntimeWord(r))
  {
    match r { case Container => case Lambda => }
  }

  lemma BackendPlain(b: ServiceBackend)
    ensures Plain(ServiceWord(TypeOf(b))) && Plain(BackendWord(b))
  {
    match b {
      case Kv(s) => match s { case Sqlite => case ObjectMemory => case S3 => }
      case Vec(v) => match v { case SqliteVec => case VectorMemory => }
      case Infer(i) => match i { case InferOllama => case InferOpenRouter => }
      case Embed(e) => match e { case EmbedOllama => }
    }
  }

  lemma OperationPlain(o: Operation)
    ensures Plain(OperationWord(o))
  {
    match o {
      case Get => case Put => case List => case Delete => case Store =>
      case Search => case Run => case Chat => case Generate =>
    }
  }

  lemma SessionPlain(s: string)
    requires IsSessionId(s)
    ensures Plain(s)
  {
    SessionIdChars(s, '.');
    SessionIdChars(s, '*');
    SessionIdChars(s, '#');
    SessionIdChars(s, '>');
  }

  lemma NumeralPlain(n: int)
    ensures Plain(PrintInt(n)) && (n >= 0 ==> PrintInt(n) == Digits(n))
  {
    NumeralChars(n, '.');
    NumeralChars(n, '*');
    NumeralChars(n, '#');
    NumeralChars(n, '>');
  }
}
