/**
  Wildcard subscriptions. AMQP topic matching is that of section 3.1.3.3 of the AMQP 0-9-1
  specification (`*` one word, `#` zero or more words); NATS has `*` (one token) and a
  final `>` (one or more tokens). Each binding is shown to select exactly the keys it means.
 */
module Bindings {
  import opened Text
  import opened RoutingTypes
  import opened RoutingKeys

  predicate AmqpMatches(pattern: seq<string>, words: seq<string>)
    decreases |pattern| + |words|
  {
    if pattern == [] then words == []
    else if pattern[0] == "#" then AmqpMatches(pattern[1..], words) || (words != [] && AmqpMatches(pattern, words[1..]))
    else words != [] && (pattern[0] == "*" || pattern[0] == words[0]) && AmqpMatches(pattern[1..], words[1..])
  }

  predicate NatsMatches(pattern: seq<string>, tokens: seq<string>) {
    if pattern == [] then tokens == []
    else if pattern == [">"] then tokens != []
    else tokens != [] && (pattern[0] == "*" || pattern[0] == tokens[0]) && NatsMatches(pattern[1..], tokens[1..])
  }

  /** The first `|pattern|` words agree with a pattern of words and `*`. */
  predicate Pointwise(pattern: seq<string>, words: seq<string>) {
    |pattern| <= |words| && forall i :: 0 <= i < |pattern| ==> pattern[i] == "*" || pattern[i] == words[i]
  }

  lemma PointwiseCons(pattern: seq<string>, words: seq<string>)
    requires pattern != [] && words != []
    ensures Pointwise(pattern, words) <==>
        (pattern[0] == "*" || pattern[0] == words[0]) && Pointwise(pattern[1..], words[1..])
  {
    if Pointwise(pattern[1..], words[1..]) && (pattern[0] == "*" || pattern[0] == words[0]) {
      forall i | 0 <= i < |pattern| ensures pattern[i] == "*" || pattern[i] == words[i] {
        if i > 0 { assert pattern[1..][i - 1] == pattern[i] && words[1..][i - 1] == words[i]; }
      }
    }
  }

  lemma {:induction false} AmqpFixed(pattern: seq<string>, words: seq<string>)
    requires "#" !in pattern
    ensures AmqpMatches(pattern, words) <==> |words| == |pattern| && Pointwise(pattern, words)
  {
    if pattern != [] && words != [] {
      AmqpFixed(pattern[1..], words[1..]);
      PointwiseCons(pattern, words);
    }
  }

  lemma {:induction false} AmqpHashMatchesAll(words: seq<string>)
    ensures AmqpMatches(["#"], words)
  {
    if words != [] { AmqpHashMatchesAll(words[1..]); }
  }

  /** A trailing `#` takes any rest, the empty one included. */
  lemma {:induction false} AmqpOpenEnded(pattern: seq<string>, words: seq<string>)
    requires "#" !in pattern
    ensures AmqpMatches(pattern + ["#"], words) <==> Pointwise(pattern, words)
  {
    if pattern == [] {
      AmqpHashMatchesAll(words);
      assert pattern + ["#"] == ["#"];
    } else if words != [] {
      assert (pattern + ["#"])[1..] == pattern[1..] + ["#"];
      AmqpOpenEnded(pattern[1..], words[1..]);
      PointwiseCons(pattern, words);
    }
  }

  lemma {:induction false} NatsFixed(pattern: seq<string>, tokens: seq<string>)
    requires ">" !in pattern
    ensures NatsMatches(pattern, tokens) <==> |tokens| == |pattern| && Pointwise(pattern, tokens)
  {
    if pattern != [] && tokens != [] {
      NatsFixed(pattern[1..], tokens[1..]);
      PointwiseCons(pattern, tokens);
    }
  }

  /** A trailing `>` takes any rest but the empty one. */
  lemma {:induction false} NatsOpenEnded(pattern: seq<string>, tokens: seq<string>)
    requires ">" !in pattern
    ensures NatsMatches(pattern + [">"], tokens) <==> Pointwise(pattern, tokens) && |tokens| > |pattern|
  {
    if pattern == [] {
      assert pattern + [">"] == [">"];
    } else {
      assert (pattern + [">"])[0] == pattern[0] && pattern + [">"] != [">"];
      if tokens != [] {
        assert (pattern + [">"])[1..] == pattern[1..] + [">"];
        NatsOpenEnded(pattern[1..], tokens[1..]);
        PointwiseCons(pattern, tokens);
      }
    }
  }

  /**
    The two open-ended forms differ on one length only: `#` also accepts a key that stops
    where the wildcard begins. No key of either back end has that length.
   */
  lemma OpenEndsAgree(pattern: seq<string>, words: seq<string>)
    requires "#" !in pattern && ">" !in pattern && Pointwise(pattern, words)
    ensures AmqpMatches(pattern + ["#"], words) == NatsMatches(pattern + [">"], words) <==> |words| != |pattern|
  {
    AmqpOpenEnded(pattern, words);
    NatsOpenEnded(pattern, words);
  }

  // ---------------------------------------------------------------- the program's bindings

  datatype Binding =
    | ForInvokes(agent: string)
    | ForCompletes(submission: string, agent: string, harness: HarnessType)
    | ForRequests(service: ServiceBackend, operation: Operation)
    | ForResponses(submission: string, agent: string, service: ServiceBackend, operation: Operation, sequence: nat)
    | ForForks
    | ForPromotes
    | ForDeploys
    | ForDeletes
    | ForMcpRequests
    | ForSvcRequests(provider: string, svcOperation: string)
    | ForSvcResponses(submission: string, agent: string, provider: string, svcOperation: string, sequence: nat)

  /** The part of the pattern before any open end. */
  function FixedWords(b: Binding): seq<string> {
    match b
    case ForInvokes(agent) => ["vlinder", "data", "v1", "*", "*", "*", "invoke", "*", "*", agent]
    case ForCompletes(submission, agent, harness) =>
      ["vlinder", "data", "v1", "*", "*", submission, "complete", agent, HarnessWord(harness)]
    case ForRequests(s, o) =>
      ["vlinder", "data", "v1", "*", "*", "*", "request", "*", ServiceWord(TypeOf(s)), BackendWord(s), OperationWord(o)]
    case ForResponses(submission, agent, s, o, n) =>
      ["vlinder", "data", "v1", "*", "*", submission, "response", agent,
       ServiceWord(TypeOf(s)), BackendWord(s), OperationWord(o), Digits(n)]
    case ForForks => ["vlinder", "*", "*", "*", "fork", "*"]
    case ForPromotes => ["vlinder", "*", "*", "*", "promote", "*"]
    case ForDeploys => ["vlinder", "infra", "v1", "*", "deploy-agent"]
    case ForDeletes => ["vlinder", "infra", "v1", "*", "delete-agent"]
    case ForMcpRequests => ["vlinder", "data", "v1", "*", "*", "*", "svc_request", "*", "mcp", "*", "*"]
    case ForSvcRequests(p, o) => ["vlinder", "data", "v1", "*", "*", "*", "svc_request", "*", "mcp", p, o]
    case ForSvcResponses(submission, agent, p, o, n) =>
      ["vlinder", "data", "v1", "*", "*", submission, "svc_response", agent, "mcp", p, o, Digits(n)]
  }

  predicate OpenEnded(b: Binding) { b.ForRequests? || b.ForMcpRequests? || b.ForSvcRequests? }

  predicate OnNatsOnly(b: Binding) { b.ForMcpRequests? || b.ForSvcRequests? || b.ForSvcResponses? }

  function AmqpPattern(b: Binding): seq<string>
    requires !OnNatsOnly(b)
  {
    if OpenEnded(b) then FixedWords(b) + ["#"] else FixedWords(b)
  }

  function NatsPattern(b: Binding): seq<string> {
    if OpenEnded(b) then FixedWords(b) + [">"] else FixedWords(b)
  }

  function BindingFields(b: Binding): seq<string> {
    match b
    case ForInvokes(agent) => [agent]
    case ForCompletes(submission, agent, _) => [submission, agent]
    case ForResponses(submission, agent, _, _, _) => [submission, agent]
    case ForSvcRequests(p, o) => [p, o]
    case ForSvcResponses(submission, agent, p, o, _) => [submission, agent, p, o]
    case _ => []
  }

  predicate AllPlain(fields: seq<string>) {
    forall i :: 0 <= i < |fields| ==> Plain(fields[i]) && fields[i] != ""
  }

  /** What a subscriber means by the binding. */
  predicate Selects(b: Binding, r: Routed) {
    match b
    case ForInvokes(agent) => r.Data? && r.data.kind.Invoke? && r.data.kind.agent == agent
    case ForCompletes(submission, agent, harness) =>
      r.Data? && r.data.submission == submission && r.data.kind == Complete(agent, harness)
    case ForRequests(s, o) => r.Data? && r.data.kind.Request? && r.data.kind.service == s && r.data.kind.operation == o
    case ForResponses(submission, agent, s, o, n) =>
      r.Data? && r.data.submission == submission && r.data.kind == Response(agent, s, o, n)
    case ForForks => r.OfSession? && r.key.kind.Fork?
    case ForPromotes => r.OfSession? && r.key.kind.Promote?
    case ForDeploys => r.Infra? && r.infra.kind == DeployAgent
    case ForDeletes => r.Infra? && r.infra.kind == DeleteAgent
    case ForMcpRequests => r.Svc? && r.svc.kind.SvcRequest?
    case ForSvcRequests(p, o) =>
      r.Svc? && r.svc.kind.SvcRequest? && r.svc.kind.service == Mcp(p) && r.svc.kind.operation == o
    case ForSvcResponses(submission, agent, p, o, n) =>
      r.Svc? && r.svc.submission == submission && r.svc.kind == SvcResponse(agent, Mcp(p), o, n)
  }

  function BindingKind(b: Binding): KeyKind {
    match b
    case ForInvokes(_) => InvokeKey
    case ForCompletes(_, _, _) => CompleteKey
    case ForRequests(_, _) => RequestKey
    case ForResponses(_, _, _, _, _) => ResponseKey
    case ForForks => ForkKey
    case ForPromotes => PromoteKey
    case ForDeploys => DeployAgentKey
    case ForDeletes => DeleteAgentKey
    case ForMcpRequests => SvcRequestKey
    case ForSvcRequests(_, _) => SvcRequestKey
    case ForSvcResponses(_, _, _, _, _) => SvcResponseKey
  }

  // ---------------------------------------------------------------- exactness

  lemma NotWild(s: string)
    requires Plain(s)
    ensures s != "*" && s != "#" && s != ">"
  {
    assert "*"[0] == '*' && "#"[0] == '#' && ">"[0] == '>';
  }

  predicate NotOpen(s: string) { s != "#" && s != ">" }

  lemma PlainFieldsNotOpen(f: seq<string>)
    requires AllPlain(f)
    ensures forall i :: 0 <= i < |f| ==> NotOpen(f[i])
  {
    forall i | 0 <= i < |f| ensures NotOpen(f[i]) { NotWild(f[i]); }
  }

  lemma NumeralNotOpen(n: nat)
    ensures NotOpen(Digits(n))
  {
    NumeralPlain(n);
    NotWild(Digits(n));
  }

  lemma NoOpenWordData(b: Binding)
    requires AllPlain(BindingFields(b)) && !OnNatsOnly(b)
    ensures forall w :: w in FixedWords(b) ==> NotOpen(w)
  {
    var f := BindingFields(b);
    PlainFieldsNotOpen(f);
    match b
    case ForInvokes(agent) => assert NotOpen(f[0]);
    case ForCompletes(s, a, h) => assert NotOpen(f[0]) && NotOpen(f[1]); HarnessPlain(h); NotWild(HarnessWord(h));
    case ForRequests(s, o) => ServiceWordsNotWild(s, o);
    case ForResponses(u, a, s, o, n) =>
      assert NotOpen(f[0]) && NotOpen(f[1]); ServiceWordsNotWild(s, o); NumeralNotOpen(n);
    case _ =>
  }

  lemma NoOpenWord(b: Binding)
    requires AllPlain(BindingFields(b))
    ensures "#" !in FixedWords(b) && ">" !in FixedWords(b)
  {
    var f := BindingFields(b);
    if OnNatsOnly(b) {
      PlainFieldsNotOpen(f);
      match b
      case ForMcpRequests =>
      case ForSvcRequests(p, o) => assert NotOpen(f[0]) && NotOpen(f[1]);
      case ForSvcResponses(u, a, p, o, n) =>
        assert NotOpen(f[0]) && NotOpen(f[1]) && NotOpen(f[2]) && NotOpen(f[3]);
        NumeralNotOpen(n);
    } else {
      NoOpenWordData(b);
    }
  }

  lemma ServiceWordsNotWild(s: ServiceBackend, o: Operation)
    ensures forall w :: w in [ServiceWord(TypeOf(s)), BackendWord(s), OperationWord(o)] ==>
        w != "*" && w != "#" && w != ">"
  {
    BackendPlain(s);
    OperationPlain(o);
    NotWild(ServiceWord(TypeOf(s)));
    NotWild(BackendWord(s));
    NotWild(OperationWord(o));
  }

  lemma ServiceWordsInjective(s: ServiceBackend, t: ServiceBackend, o: Operation, p: Operation)
    ensures ServiceWord(TypeOf(s)) == ServiceWord(TypeOf(t)) && BackendWord(s) == BackendWord(t) ==> s == t
    ensures OperationWord(o) == OperationWord(p) ==> o == p
  {
    WordsRoundTrip(Cli, Lambda, TypeOf(s), o);
    WordsRoundTrip(Cli, Lambda, TypeOf(t), p);
    BackendRoundTrip(s);
    BackendRoundTrip(t);
  }

  lemma HarnessInjective(h: HarnessType, g: HarnessType)
    ensures HarnessWord(h) == HarnessWord(g) ==> h == g
  {
    WordsRoundTrip(h, Lambda, KvService, Get);
    WordsRoundTrip(g, Lambda, KvService, Get);
  }

  lemma DigitsInjective(m: nat, n: nat)
    ensures Digits(m) == Digits(n) ==> m == n
  {
    ValueOfDigits(m);
    ValueOfDigits(n);
  }

  lemma KindWordsDiffer(a: KeyKind, b: KeyKind)
    requires a != b
    ensures Shape(a).0 != Shape(b).0 || Shape(a).2 != Shape(b).2
  {
    assert "request" != "svc_request" && "response" != "svc_response" && "fork" != "promote";
    assert "deploy-agent"[2] != "delete-agent"[2];
  }

  lemma KeyShape(r: Routed)
    ensures var k := Shape(KindOf(r)); |Segments(r)| == k.0 && Segments(r)[k.1] == k.2
  {}

  lemma BindingShape(b: Binding)
    ensures var k := Shape(BindingKind(b));
      |FixedWords(b)| == (if OpenEnded(b) then k.0 - 1 else k.0) && FixedWords(b)[k.1] == k.2
  {}

  lemma WrongKindNotSelected(b: Binding, r: Routed)
    requires KindOf(r) != BindingKind(b)
    ensures !Selects(b, r)
    ensures Pointwise(FixedWords(b), Segments(r)) ==> |Segments(r)| != Shape(BindingKind(b)).0
  {
    KeyShape(r);
    BindingShape(b);
    KindWordsDiffer(KindOf(r), BindingKind(b));
    var k := Shape(BindingKind(b));
    if |Segments(r)| == k.0 {
      assert Shape(KindOf(r)).1 == k.1;
      assert FixedWords(b)[k.1] != "*";
    }
  }

  predicate OnService(b: Binding) { b.ForRequests? || b.ForResponses? }

  lemma PlainFieldsNotStar(f: seq<string>)
    requires AllPlain(f)
    ensures forall i :: 0 <= i < |f| ==> f[i] != "*"
  {
    forall i | 0 <= i < |f| ensures f[i] != "*" { NotWild(f[i]); }
  }

  lemma AgentKindSelected(b: Binding, r: Routed)
    requires AllPlain(BindingFields(b)) && KindOf(r) == BindingKind(b) && (b.ForInvokes? || b.ForCompletes?)
    ensures Selects(b, r) <==> Pointwise(FixedWords(b), Segments(r))
  {
    var f, w, s := BindingFields(b), FixedWords(b), Segments(r);
    PlainFieldsNotStar(f);
    DataSegmentsAt(r.data);
    match b
    case ForInvokes(agent) => assert f[0] == agent && w[9] == agent && s[9] == r.data.kind.agent;
    case ForCompletes(u, a, h) =>
      HarnessPlain(h);
      NotWild(HarnessWord(h));
      HarnessInjective(h, r.data.kind.harness);
      assert f[0] == u == w[5] && f[1] == a == w[7] && w[8] == HarnessWord(h);
      assert s[5] == r.data.submission && s[7] == r.data.kind.agent && s[8] == HarnessWord(r.data.kind.harness);
  }

  lemma ServiceKindSelected(b: Binding, r: Routed)
    requires AllPlain(BindingFields(b)) && KindOf(r) == BindingKind(b) && OnService(b)
    ensures Selects(b, r) <==> Pointwise(FixedWords(b), Segments(r))
  {
    var f, w, s := BindingFields(b), FixedWords(b), Segments(r);
    PlainFieldsNotStar(f);
    DataSegmentsAt(r.data);
    ServiceSelected(w, s, r.data, b.service, b.operation);
    if b.ForResponses? {
      var n := b.sequence;
      NumeralPlain(n);
      NotWild(Digits(n));
      DigitsInjective(n, r.data.kind.sequence);
      assert f[0] == b.submission == w[5] && f[1] == b.agent == w[7] && w[11] == Digits(n);
      assert s[5] == r.data.submission && s[7] == r.data.kind.agent && s[11] == Digits(r.data.kind.sequence);
    }
  }

  lemma SvcKindSelected(b: Binding, r: Routed)
    requires AllPlain(BindingFields(b)) && KindOf(r) == BindingKind(b) && OnNatsOnly(b)
    ensures Selects(b, r) <==> Pointwise(FixedWords(b), Segments(r))
  {
    var f, w := BindingFields(b), FixedWords(b);
    PlainFieldsNotStar(f);
    SvcSegmentsAt(r.svc);
    match b
    case ForMcpRequests =>
    case ForSvcRequests(p, o) => assert f[0] == p == w[9] && f[1] == o == w[10];
    case ForSvcResponses(u, a, p, o, n) =>
      NumeralPlain(n);
      NotWild(Digits(n));
      DigitsInjective(n, r.svc.kind.sequence);
      assert f[0] == u == w[5] && f[1] == a == w[7] && f[2] == p == w[9] && f[3] == o == w[10] && w[11] == Digits(n);
  }

  lemma RightKindSelected(b: Binding, r: Routed)
    requires AllPlain(BindingFields(b)) && KindOf(r) == BindingKind(b)
    ensures Selects(b, r) <==> Pointwise(FixedWords(b), Segments(r))
  {
    if b.ForInvokes? || b.ForCompletes? {
      AgentKindSelected(b, r);
    } else if OnService(b) {
      ServiceKindSelected(b, r);
    } else if OnNatsOnly(b) {
      SvcKindSelected(b, r);
    }
  }

  lemma ServiceSelected(w: seq<string>, s: seq<string>, k: DataRoutingKey, t: ServiceBackend, o: Operation)
    requires |w| >= 11 && |s| == 12 && (k.kind.Request? || k.kind.Response?)
    requires w[8] == ServiceWord(TypeOf(t)) && w[9] == BackendWord(t) && w[10] == OperationWord(o)
    requires s[8] == ServiceWord(TypeOf(k.kind.service)) && s[9] == BackendWord(k.kind.service)
    requires s[10] == OperationWord(k.kind.operation)
    ensures w[8] != "*" && w[9] != "*" && w[10] != "*"
    ensures w[8] == s[8] && w[9] == s[9] && w[10] == s[10] <==> k.kind.service == t && k.kind.operation == o
  {
    ServiceWordsNotWild(t, o);
    assert w[8] in [ServiceWord(TypeOf(t)), BackendWord(t), OperationWord(o)];
    assert w[9] in [ServiceWord(TypeOf(t)), BackendWord(t), OperationWord(o)];
    assert w[10] in [ServiceWord(TypeOf(t)), BackendWord(t), OperationWord(o)];
    ServiceWordsInjective(t, k.kind.service, o, k.kind.operation);
  }

  lemma SvcSegmentsAt(k: SvcRoutingKey)
    ensures var s := SvcSegments(k);
      && |s| == 12 && s[0] == "vlinder" && s[1] == "data" && s[2] == "v1" && s[3] == k.session
      && s[4] == PrintInt(k.branch) && s[5] == k.submission
      && s[6] == (if k.kind.SvcRequest? then "svc_request" else "svc_response") && s[7] == k.kind.agent
      && s[8] == "mcp" && s[9] == k.kind.service.provider && s[10] == k.kind.operation &&
           s[11] == Digits(k.kind.sequence)
  {}

  /**
    Exactness: over every key the builders can produce, a binding's pattern matches a key
    if and only if the key is of that kind with those fields, on both back ends.
   */
  lemma BindingExact(b: Binding, r: Routed)
    requires AllPlain(BindingFields(b))
    ensures NatsMatches(NatsPattern(b), Segments(r)) <==> Selects(b, r)
    ensures !OnNatsOnly(b) ==> (AmqpMatches(AmqpPattern(b), Segments(r)) <==> Selects(b, r))
  {
    var w, s := FixedWords(b), Segments(r);
    NoOpenWord(b);
    BindingShape(b);
    KeyShape(r);
    if OpenEnded(b) {
      NatsOpenEnded(w, s);
      AmqpOpenEnded(w, s);
      assert |w| == 11 && |s| != 11;
    } else {
      NatsFixed(w, s);
      AmqpFixed(w, s);
    }
    if KindOf(r) == BindingKind(b) { RightKindSelected(b, r); } else { WrongKindNotSelected(b, r); }
  }

  /** The key arrives at the subscription, on one back end or the other. */
  predicate Delivered(b: Binding, r: Routed) {
    || NatsMatches(NatsPattern(b), Split(NatsSubject(r), '.'))
    || (!OnNatsOnly(b) && !r.Svc? && AmqpMatches(AmqpPattern(b), Split(AmqpKey(r), '.')))
  }

  /** Delivery end to end, on the texts: what a subscription receives, its parser reads back. */
  lemma DeliveredKeyIsAccepted(b: Binding, r: Routed)
    requires Typed(r) && AllPlain(BindingFields(b)) && AllFree(FreeFields(r), '.') && Delivered(b, r)
    ensures Selects(b, r)
    ensures ParseAs(BindingKind(b), NatsSubject(r)) == if OnS3(r) then NoKey else KeyOf(r)
    ensures !r.Svc? ==> AmqpKey(r) == NatsSubject(r)
  {
    BackEndsAgree(r);
    FixedSegmentsDotFree(r);
    SplitJoin(Segments(r), '.');
    BindingExact(b, r);
    KeyRoundTrip(r);
    if KindOf(r) != BindingKind(b) { WrongKindNotSelected(b, r); }
  }

  /** A field that is itself a wildcard widens the subscription to other agents. */
  lemma WildcardAgentReceivesOthers(r: Routed)
    requires r.Data? && r.data.kind.Invoke? && r.data.kind.agent != "*"
    ensures NatsMatches(NatsPattern(ForInvokes("*")), Segments(r)) && !Selects(ForInvokes("*"), r)
  {
    DataSegmentsAt(r.data);
    NatsFixed(FixedWords(ForInvokes("*")), Segments(r));
  }
}
