// The bodies of the client definitions: each calls with the table member of the
// method it is defined for, and starts the call exactly if it is asked to.
module StubBodies {
  import opened Schema
  import opened Emit
  import opened Structure
  import opened SourceTemplates
  import opened SourceService
  import opened SourceFacts
  import opened Signatures
  import opened Queries
  import opened HeaderDeclarations
  import opened DefinitionAgreement
  import opened TableAgreement
  import opened Decimal

  // A definition's name, and the body behind it: the call, the member or
  // function it goes through, the message types it is made for and what follows
  // its arguments.
  datatype Headed = Headed(name: seq<Ref>, body: Body, through: seq<Ref>, types: seq<Ref>, extra: seq<Ref>)

  function PairOf(head: Sig, b: Fact): Headed
    requires b.BodyOf?
  {
    Headed(head.name, b.body, b.member, b.types, b.extra)
  }

  // The body at the end of a text, with the head it stands behind.
  function LastPair(fs: seq<Fact>): seq<Headed> {
    var n := |fs| - 1;
    if n > 0 && fs[n].BodyOf? && fs[n - 1].Definition? then [PairOf(fs[n - 1].sig, fs[n])] else []
  }

  // All of them.
  function Pairs(fs: seq<Fact>): seq<Headed> { if fs == [] then [] else Pairs(fs[..|fs| - 1]) + LastPair(fs) }

  // Every body stands right behind the head of a definition.
  predicate Attached(fs: seq<Fact>) {
    forall k :: 0 <= k < |fs| && fs[k].BodyOf? ==> k > 0 && fs[k - 1].Definition?
  }

  predicate HasPairs(fs: seq<Fact>, pairs: seq<Headed>) { Attached(fs) && Pairs(fs) == pairs }

  lemma AttachedConcat(a: seq<Fact>, b: seq<Fact>)
    requires Attached(a) && Attached(b)
    ensures Attached(a + b)
  {
    forall k | 0 <= k < |a + b| && (a + b)[k].BodyOf?
      ensures k > 0 && (a + b)[k - 1].Definition?
    {
      if k < |a| {
        assert a[k].BodyOf?;
      } else {
        assert b[k - |a|].BodyOf?;
        assert (a + b)[k - 1] == b[k - |a| - 1];
      }
    }
  }

  lemma LastPairKept(a: seq<Fact>, b: seq<Fact>)
    requires b != [] && Attached(b)
    ensures LastPair(a + b) == LastPair(b)
  {
    var n := |b| - 1;
    assert (a + b)[|a| + n] == b[n];
    if n > 0 {
      assert (a + b)[|a| + n - 1] == b[n - 1];
    }
  }

  lemma PairsSnoc(fs: seq<Fact>)
    requires fs != []
    ensures Pairs(fs) == Pairs(fs[..|fs| - 1]) + LastPair(fs)
  {
  }

  lemma {:induction false} PairsConcat(a: seq<Fact>, b: seq<Fact>)
    requires Attached(b)
    ensures Pairs(a + b) == Pairs(a) + Pairs(b)
  {
    if b == [] {
      assert a + b == a;
    } else {
      var c := b[..|b| - 1];
      assert Attached(c);
      assert (a + b)[..|a + b| - 1] == a + c;
      PairsConcat(a, c);
      hide Pairs, LastPair, Attached;
      PairsSnoc(b);
      PairsSnoc(a + b);
      LastPairKept(a, b);
      Regrouped(Pairs(a), Pairs(c), LastPair(b));
    }
  }

  lemma HasPairsConcat(a: seq<Fact>, pa: seq<Headed>, b: seq<Fact>, pb: seq<Headed>)
    requires HasPairs(a, pa) && HasPairs(b, pb)
    ensures HasPairs(a + b, pa + pb)
  {
    hide Pairs, Attached;
    AttachedConcat(a, b);
    PairsConcat(a, b);
  }

  lemma {:induction false} NoBodies(fs: seq<Fact>)
    requires forall f :: f in fs ==> !f.BodyOf?
    ensures HasPairs(fs, [])
  {
    if fs != [] {
      assert fs[|fs| - 1] in fs;
      NoBodies(fs[..|fs| - 1]);
    }
  }

  lemma OnePair(head: Fact, b: Fact)
    requires head.Definition? && b.BodyOf?
    ensures HasPairs([head, b], [PairOf(head.sig, b)])
  {
    var fs := [head, b];
    assert fs[..1] == [head] && [head][..0] == [];
    assert Pairs([head]) == [];
  }

  // A definition and its body, as the reader notes them.
  lemma DefinitionPair(decl: Form, body: Form, env: Env)
    requires IsDefinition(decl, body) && RRefs(decl.qual, env) != []
    ensures DefinitionFacts(decl, body, env) ==
            [Definition(RRefs(decl.qual, env), SigOf(Render(decl, env))), BodyFact(Render(body, env))]
  {
    hide RRefs, RTys, RTy;
  }

  lemma DefinitionHasPair(decl: Form, body: Form, env: Env)
    requires IsDefinition(decl, body) && RRefs(decl.qual, env) != []
    ensures HasPairs(DefinitionFacts(decl, body, env), [PairOf(SigOf(Render(decl, env)), BodyFact(Render(body, env)))])
  {
    hide RRefs, RTys, RTy, HasPairs, DefinitionFacts;
    DefinitionPair(decl, body, env);
    OnePair(Definition(RRefs(decl.qual, env), SigOf(Render(decl, env))), BodyFact(Render(body, env)));
  }

  predicate ForStart(env: Env, i: nat) {
    VAsyncStart in env && VAsyncCreateArgs in env &&
    env[VAsyncStart] == (if i == 0 then "true" else "false") &&
      env[VAsyncCreateArgs] == (if i == 0 then ", tag" else ", nullptr")
  }

  // ---- The pairs each method calls for ----

  function SyncCall(k: Kind): Body {
    match k
    case Unary => BlockingUnaryCall
    case ClientStreaming => SyncFactory(Writer)
    case ServerStreaming => SyncFactory(Reader)
    case BidiStreaming => SyncFactory(ReaderWriter)
  }

  function CallbackCall(k: Kind): Body {
    match k
    case Unary => CallbackUnaryCall
    case ClientStreaming => CallbackFactory(Writer)
    case ServerStreaming => CallbackFactory(Reader)
    case BidiStreaming => CallbackFactory(ReaderWriter)
  }

  function AsyncCall(k: Kind): Body {
    match k
    case Unary => AsyncResponseReaderHelper
    case ClientStreaming => AsyncFactory(AsyncWriter)
    case ServerStreaming => AsyncFactory(AsyncReader)
    case BidiStreaming => AsyncFactory(AsyncReaderWriter)
  }

  function Prefixed(i: nat, m: Method): seq<Ref> {
    [S(if i == 0 then "Async" else "PrepareAsync"), S(m.name), S("Raw")]
  }

  function Both(m: Method): seq<Ref> { [S(m.inputType), S(m.outputType)] }

  // A reader is made for what it reads, a writer for what it writes, everything
  // else for both.
  function StreamTypes(m: Method): seq<Ref> {
    match m.Kind()
    case Unary => Both(m)
    case ClientStreaming => [S(m.inputType)]
    case ServerStreaming => [S(m.outputType)]
    case BidiStreaming => Both(m)
  }

  function SyncPair(m: Method): Headed {
    Headed(if m.Kind() == Unary then [S(m.name)] else [S(m.name), S("Raw")], SyncCall(m.Kind()), MemberName(m),
           StreamTypes(m), [])
  }

  // The reactor version of a unary call is made for no types.
  function CallbackPairs(m: Method): seq<Headed> {
    [Headed([S(m.name)], CallbackCall(m.Kind()), MemberName(m), StreamTypes(m), [])] +
    if m.Kind() == Unary then [Headed([S(m.name)], CallbackUnaryFactory, MemberName(m), [], [])] else []
  }

  // AsyncM starts the call and passes the tag, PrepareAsyncM does neither; the
  // unary AsyncM goes through its own PrepareAsyncM, which stands in front and
  // names the response type first.
  function AsyncPair(m: Method, i: nat): Headed {
    if m.Kind() == Unary then
      if i == 0 then Headed(Prefixed(0, m), StartCall, Prefixed(1, m), [], [])
      else Headed(Prefixed(1, m), AsyncCall(Unary), MemberName(m), [S(m.outputType), S(m.inputType)], [])
    else
      Headed(Prefixed(i, m), AsyncCall(m.Kind()), MemberName(m), StreamTypes(m),
           if i == 0 then [S("true"), S(", tag")] else [S("false"), S(", nullptr")])
  }

  function CqPairs(m: Method): seq<Headed> {
    if m.Kind() == Unary then [AsyncPair(m, 1)] + [AsyncPair(m, 0)] else [AsyncPair(m, 0)] + [AsyncPair(m, 1)]
  }

  function MethodPairs(m: Method, ps: Parameters): seq<Headed> {
    [SyncPair(m)] + CallbackPairs(m) + if ps.allowCqApi then CqPairs(m) else []
  }

  function PairsUpTo(ms: seq<Method>, ps: Parameters, n: nat): seq<Headed>
    requires n <= |ms|
  {
    if n == 0 then [] else PairsUpTo(ms, ps, n - 1) + MethodPairs(ms[n - 1], ps)
  }

  // ---- What the passes print ----

  lemma SyncBodies(m: Method, env: Env)
    requires ForMethod(env, m)
    ensures PairOf(SigOf(Render(SyncDefinition(m.Kind()), env)), BodyFact(Render(SyncBody(m.Kind()), env))) ==
            SyncPair(m)
  {
    RenderedRefs();
    hide RRefs, RTys;
    DefinitionSigs(m, env);
  }

  lemma CallbackBodies(m: Method, env: Env)
    requires ForMethod(env, m)
    ensures PairOf(SigOf(Render(CallbackDefinition(m.Kind()), env)), BodyFact(Render(CallbackBody(m.Kind()), env))) ==
            Headed([S(m.name)], CallbackCall(m.Kind()), MemberName(m), StreamTypes(m), [])
    ensures PairOf(SigOf(Render(ReactorDefinition(), env)), BodyFact(Render(ReactorBody(), env))) ==
            Headed([S(m.name)], CallbackUnaryFactory, MemberName(m), [], [])
  {
    RenderedRefs();
    hide RRefs, RTys;
    DefinitionSigs(m, env);
  }

  lemma UnaryAsyncBodies(m: Method, env: Env)
    requires ForMethod(env, m) && m.Kind() == Unary
    ensures PairOf(SigOf(Render(UnaryAsyncDefinition("PrepareAsync"), env)), BodyFact(Render(PrepareBody(), env))) ==
            AsyncPair(m, 1)
    ensures PairOf(SigOf(Render(UnaryAsyncDefinition("Async"), env)), BodyFact(Render(StartBody(), env))) ==
            AsyncPair(m, 0)
  {
    RenderedRefs();
    hide RRefs, RTys;
    UnaryAsyncDefinitionSigs(m, 0, env);
    UnaryAsyncDefinitionSigs(m, 1, env);
  }

  lemma PrefixNames(i: nat)
    ensures Prefix(i).prefix == if i == 0 then "Async" else "PrepareAsync"
  {
  }

  lemma AsyncBodyIs(m: Method, i: nat, env: Env)
    requires ForMethod(env, m) && ForStart(env, i) && m.Kind() != Unary && i < 2
    ensures BodyFact(Render(AsyncBody(m.Kind()), env)) ==
            BodyOf(AsyncCall(m.Kind()), MemberName(m), StreamTypes(m),
              [S(if i == 0 then "true" else "false"), S(if i == 0 then ", tag" else ", nullptr")])
  {
    RenderedRefs();
    hide RRefs;
  }

  lemma AsyncBodies(m: Method, i: nat, env: Env)
    requires ForAsync(env, m, i) && ForStart(env, i) && m.Kind() != Unary && i < 2
    ensures PairOf(SigOf(Render(AsyncDefinition(m.Kind()), env)), BodyFact(Render(AsyncBody(m.Kind()), env))) ==
            AsyncPair(m, i)
  {
    hide Render, MemberName, Prefix, StreamParams, AsyncTy, ForStart, AsyncCall;
    AsyncDefinitionSigs(m, i, env);
    AsyncBodyIs(m, i, env);
    PrefixNames(i);
  }

  lemma StartFits(outer: Env, m: Method, i: nat)
    requires i < 2
    ensures ForStart(AsyncDefinitionEnv(outer, m, SourcePrefixAt(i)), i)
  {
  }

  lemma CqBodies(outer: Env, m: Method, ns: string, svc: Service)
    requires ForService(outer, ns, svc)
    ensures HasPairs(CqDefinitionsFacts(outer, m), CqPairs(m))
  {
    hide RRefs, Render, HasPairs, DefinitionFacts, ForMethod, ForService, ForAsync, ForStart, MethodEnv,
      AsyncDefinitionEnv, SourcePrefixAt, ClassPath, Spelled, AsyncPair, PairOf;
    var env, k := outer + MethodEnv(m), m.Kind();
    SourceEnvsFit(outer, m, 0, ns, svc);
    Quals(env, ns, svc);
    if k == Unary {
      UnaryAsyncBodies(m, env);
      DefinitionHasPair(UnaryAsyncDefinition("PrepareAsync"), PrepareBody(), env);
      DefinitionHasPair(UnaryAsyncDefinition("Async"), StartBody(), env);
      HasPairsConcat(DefinitionFacts(UnaryAsyncDefinition("PrepareAsync"), PrepareBody(), env), [AsyncPair(m, 1)],
                     DefinitionFacts(UnaryAsyncDefinition("Async"), StartBody(), env), [AsyncPair(m, 0)]);
    } else {
      AsyncBodyHasPair(outer, m, 0, ns, svc);
      AsyncBodyHasPair(outer, m, 1, ns, svc);
      var e0, e1 := AsyncDefinitionEnv(outer, m, SourcePrefixAt(0)), AsyncDefinitionEnv(outer, m, SourcePrefixAt(1));
      var a, b := DefinitionFacts(AsyncDefinition(k), AsyncBody(k), e0),
        DefinitionFacts(AsyncDefinition(k), AsyncBody(k), e1);
      assert AsyncDefinitionsFacts(outer, m, 1) == a;
      assert AsyncDefinitionsFacts(outer, m, 2) == a + b;
      HasPairsConcat(a, [AsyncPair(m, 0)], b, [AsyncPair(m, 1)]);
    }
  }

  lemma AsyncBodyHasPair(outer: Env, m: Method, i: nat, ns: string, svc: Service)
    requires ForService(outer, ns, svc) && m.Kind() != Unary && i < 2
    ensures HasPairs(DefinitionFacts(AsyncDefinition(m.Kind()), AsyncBody(m.Kind()),
            AsyncDefinitionEnv(outer, m, SourcePrefixAt(i))),
                     [AsyncPair(m, i)])
  {
    hide RRefs, Render, HasPairs, DefinitionFacts, ForService, ForAsync, ForStart, AsyncDefinitionEnv, SourcePrefixAt,
      ClassPath, Spelled, AsyncPair, PairOf;
    var env := AsyncDefinitionEnv(outer, m, SourcePrefixAt(i));
    SourceEnvsFit(outer, m, i, ns, svc);
    StartFits(outer, m, i);
    Quals(env, ns, svc);
    AsyncBodies(m, i, env);
    DefinitionHasPair(AsyncDefinition(m.Kind()), AsyncBody(m.Kind()), env);
  }

  lemma CallbackDefinitionPairs(outer: Env, m: Method, ns: string, svc: Service)
    requires ForService(outer, ns, svc)
    ensures HasPairs(CallbackDefinitionsFacts(outer, m), CallbackPairs(m))
  {
    hide RRefs, Render, HasPairs, DefinitionFacts, ForMethod, ForService, MethodEnv, ClassPath, Spelled, PairOf,
      CallbackCall;
    var env, k := outer + MethodEnv(m), m.Kind();
    SourceEnvsFit(outer, m, 0, ns, svc);
    Quals(env, ns, svc);
    CallbackBodies(m, env);
    DefinitionHasPair(CallbackDefinition(k), CallbackBody(k), env);
    DefinitionHasPair(ReactorDefinition(), ReactorBody(), env);
    NoBodies([]);
    var first, second := Headed([S(m.name)], CallbackCall(k), MemberName(m), StreamTypes(m), []),
      Headed([S(m.name)], CallbackUnaryFactory, MemberName(m), [], []);
    HasPairsConcat(DefinitionFacts(CallbackDefinition(k), CallbackBody(k), env), [first],
                   if k == Unary then DefinitionFacts(ReactorDefinition(), ReactorBody(), env) else [],
                   if k == Unary then [second] else []);
  }

  lemma MethodBodies(outer: Env, m: Method, ps: Parameters, ns: string, svc: Service)
    requires ForService(outer, ns, svc)
    ensures HasPairs(ClientDefinitionsFacts(outer, m, ps), MethodPairs(m, ps))
  {
    hide RRefs, Render, HasPairs, DefinitionFacts, ForMethod, ForService, MethodEnv, ClassPath, Spelled,
      CqDefinitionsFacts, CallbackDefinitionsFacts, PairOf, SyncPair, CallbackPairs, CqPairs;
    var env, k := outer + MethodEnv(m), m.Kind();
    SourceEnvsFit(outer, m, 0, ns, svc);
    Quals(env, ns, svc);
    SyncBodies(m, env);
    DefinitionHasPair(SyncDefinition(k), SyncBody(k), env);
    CallbackDefinitionPairs(outer, m, ns, svc);
    CqBodies(outer, m, ns, svc);
    NoBodies([]);
    HasPairsConcat(SyncDefinitionFacts(outer, m), [SyncPair(m)], CallbackDefinitionsFacts(outer, m), CallbackPairs(m));
    HasPairsConcat(SyncDefinitionFacts(outer, m) + CallbackDefinitionsFacts(outer, m), [SyncPair(m)] + CallbackPairs(m),
                   if ps.allowCqApi then CqDefinitionsFacts(outer, m) else [], if ps.allowCqApi then CqPairs(m)
                   else []);
  }

  lemma {:induction false} ClientBodies(outer: Env, ms: seq<Method>, ps: Parameters, n: nat, ns: string, svc: Service)
    requires n <= |ms| && ForService(outer, ns, svc)
    ensures HasPairs(SourceRoundsFacts(ClientMethods, outer, ms, ps, n), PairsUpTo(ms, ps, n))
  {
    hide HasPairs, ClientDefinitionsFacts, ForService, MethodPairs;
    if n == 0 {
      NoBodies([]);
    } else {
      ClientBodies(outer, ms, ps, n - 1, ns, svc);
      MethodBodies(outer, ms[n - 1], ps, ns, svc);
      HasPairsConcat(SourceRoundsFacts(ClientMethods, outer, ms, ps, n - 1), PairsUpTo(ms, ps, n - 1),
                     ClientDefinitionsFacts(outer, ms[n - 1], ps), MethodPairs(ms[n - 1], ps));
    }
  }

  // ---- The rest of a source holds no bodies. ----

  predicate Bodiless(fs: seq<Fact>) { forall f :: f in fs ==> !f.BodyOf? }

  lemma BodilessConcat(a: seq<Fact>, b: seq<Fact>)
    requires Bodiless(a) && Bodiless(b)
    ensures Bodiless(a + b)
  {
  }

  lemma HeadHasNoBody(decl: Form, env: Env)
    requires decl.Decl?
    ensures Bodiless(DeclFacts(decl, env)) && Bodiless([])
  {
    hide RRefs, RTys, RTy;
  }

  lemma {:induction false} ServerHasNoBodies(outer: Env, ms: seq<Method>, ps: Parameters, n: nat)
    requires n <= |ms|
    ensures Bodiless(SourceRoundsFacts(ServerMethods, outer, ms, ps, n))
  {
    hide Bodiless, DeclFacts, DefaultFacts;
    HeadHasNoBody(NewStubDefinition(), outer);
    if n > 0 {
      var m := ms[n - 1];
      ServerHasNoBodies(outer, ms, ps, n - 1);
      HeadHasNoBody(ServerDefinition(m.Kind()), outer + MethodEnv(m));
      DefaultHasNoBody(m, ps);
      BodilessConcat(DeclFacts(ServerDefinition(m.Kind()), outer + MethodEnv(m)), DefaultFacts(m, ps));
      BodilessConcat(SourceRoundsFacts(ServerMethods, outer, ms, ps, n - 1),
                     SourceRoundFacts(ServerMethods, outer, ms[n - 1], n - 1, ps));
    }
  }

  lemma DefaultHasNoBody(m: Method, ps: Parameters)
    ensures Bodiless(DefaultFacts(m, ps))
  {
  }

  lemma CreationHasNoBodies(svc: Service, pkg: string, ps: Parameters)
    ensures var outer := SourceEnv(svc, pkg, ps.servicesNamespace);
      Bodiless(TableFacts(outer, svc.methods, ps)) && Bodiless(StubCreationFacts(outer, svc.methods, ps)) &&
      Bodiless(ServiceCreationFacts(outer, svc.methods, ps))
  {
    hide SourceRoundsFacts, SourceEnv, RRefs, DeclFacts, InitFits, RegistrationFits;
    var ms, outer := svc.methods, SourceEnv(svc, pkg, ps.servicesNamespace);
    EntriesHaveNoBodies(svc, pkg, ps);
    HeadHasNoBody(NewStubDefinition(), outer);
    HeadHasNoBody(StubCtorDefinition(), outer);
    HeadHasNoBody(ServiceCtorDefinition(), outer);
    HeadHasNoBody(ServiceDtorDefinition(), outer);
    var n, s, v, w := DeclFacts(NewStubDefinition(), outer), DeclFacts(StubCtorDefinition(), outer),
      DeclFacts(ServiceCtorDefinition(), outer), DeclFacts(ServiceDtorDefinition(), outer);
    TableHasNoBodies(outer, ms, ps);
    hide Bodiless;
    BodilessConcat(n, s);
    BodilessConcat(n + s, SourceEveryFacts(StubInits, outer, ms, ps));
    BodilessConcat(v, SourceEveryFacts(AddMethods, outer, ms, ps));
    BodilessConcat(v + SourceEveryFacts(AddMethods, outer, ms, ps), w);
  }

  lemma TableHasNoBodies(outer: Env, ms: seq<Method>, ps: Parameters)
    ensures Bodiless(TableFacts(outer, ms, ps))
  {
    hide SourceRoundsFacts, RRefs;
  }

  lemma EntriesHaveNoBodies(svc: Service, pkg: string, ps: Parameters)
    ensures var outer := SourceEnv(svc, pkg, ps.servicesNamespace);
      Bodiless(SourceEveryFacts(StubInits, outer, svc.methods, ps)) &&
        Bodiless(SourceEveryFacts(AddMethods, outer, svc.methods, ps))
  {
    hide SourceRoundsFacts, SourceEnv, MemberName, TableRefs, StreamingType, Dec;
    InitsFit(svc, pkg, ps, |svc.methods|);
    RegistrationsFit(svc, pkg, ps, |svc.methods|);
  }

  // In the source of a service every client body stands right behind the head
  // of a definition, and the pairs of head and body are, one after the other,
  // those of its methods: each calls through that method's own table member
  // (and so, by ClientAndServerAgree, on that method's own path), for that
  // method's message types.
  lemma StubsCallTheirOwnMethod(svc: Service, pkg: string, ps: Parameters)
    ensures Attached(Facts(SourceText(svc, pkg, ps)))
    ensures Pairs(Facts(SourceText(svc, pkg, ps))) == PairsUpTo(svc.methods, ps, |svc.methods|)
  {
    hide Attached, Pairs, PairsUpTo, SourceText, After, TableFacts, StubCreationFacts, ServiceCreationFacts,
      SourceRoundsFacts, SourceEnv, ForService, NamespacePath;
    var ms, outer := svc.methods, SourceEnv(svc, pkg, ps.servicesNamespace);
    SourceTextRead(svc, pkg, ps);
    SourceEnvNames(svc, pkg, ps);
    CreationHasNoBodies(svc, pkg, ps);
    ClientBodies(outer, ms, ps, |ms|, NamespacePath(ps), svc);
    ServerHasNoBodies(outer, ms, ps, |ms|);
    var t, a, b := TableFacts(outer, ms, ps), StubCreationFacts(outer, ms, ps),
      SourceEveryFacts(ClientMethods, outer, ms, ps);
    var c, d := ServiceCreationFacts(outer, ms, ps), SourceEveryFacts(ServerMethods, outer, ms, ps);
    var pairs := PairsUpTo(ms, ps, |ms|);
    NoBodies(t);
    NoBodies(a);
    NoBodies(c);
    NoBodies(d);
    hide HasPairs;
    HasPairsConcat(t, [], a, []);
    HasPairsConcat(t + a, [] + [], b, pairs);
    HasPairsConcat(t + a + b, [] + [] + pairs, c, []);
    HasPairsConcat(t + a + b + c, [] + [] + pairs + [], d, []);
    var none: seq<Headed> := [];
    assert none + none + pairs + none + none == pairs;
    PairsHad(t + a + b + c + d, pairs);
    assert [] + SourceServiceFacts(outer, ms, ps) == SourceServiceFacts(outer, ms, ps);
  }

  lemma PairsHad(fs: seq<Fact>, pairs: seq<Headed>)
    requires HasPairs(fs, pairs)
    ensures Attached(fs) && Pairs(fs) == pairs
  {
  }
}
