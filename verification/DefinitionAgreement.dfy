// The source defines what the header declares: every function once, under the
// qualified name of the scope the declaration stands in, with the same types.
module DefinitionAgreement {
  import opened Schema
  import opened Emit
  import opened Structure
  import opened HeaderService
  import opened SourceTemplates
  import opened SourceService
  import opened SourceFacts
  import opened HeaderFacts
  import opened Signatures
  import opened Queries
  import opened ClientPasses
  import opened HeaderClasses
  import opened HeaderDeclarations
  import opened Decimal

  // The functions defined out of line, under the qualified names they carry.
  function DefinedIn(fs: seq<Fact>): seq<Placed> {
    if fs == [] then []
    else
      var f := fs[|fs| - 1];
      DefinedIn(fs[..|fs| - 1]) + if f.Definition? then [Placed(Spelled(f.qual), f.sig)] else []
  }

  lemma DefinedSnoc(fs: seq<Fact>, f: Fact)
    ensures DefinedIn(fs + [f]) == DefinedIn(fs) + (if f.Definition? then [Placed(Spelled(f.qual), f.sig)] else [])
  {
    hide Spelled;
    assert (fs + [f])[..|fs|] == fs;
  }

  lemma {:induction false} DefinedConcat(a: seq<Fact>, b: seq<Fact>)
    ensures DefinedIn(a + b) == DefinedIn(a) + DefinedIn(b)
  {
    if b == [] {
      assert a + b == a;
    } else {
      hide DefinedIn, Spelled;
      var c, f := b[..|b| - 1], b[|b| - 1];
      DefinedConcat(a, c);
      DefinedSnoc(c, f);
      DefinedSnoc(a + c, f);
      LastOff(a, b);
      Regrouped(DefinedIn(a), DefinedIn(c), if f.Definition? then [Placed(Spelled(f.qual), f.sig)] else []);
    }
  }

  lemma DefinedOne(f: Fact)
    ensures DefinedIn([f]) == if f.Definition? then [Placed(Spelled(f.qual), f.sig)] else []
  {
    hide Spelled;
    assert [f][..0] == [];
    assert DefinedIn([]) == [];
  }

  // ---- Qualified names ----

  // The variables that name the service in the source generator.
  predicate ForService(env: Env, ns: string, svc: Service) {
    VNs in env && VService in env && env[VNs] == ns && env[VService] == svc.name
  }

  lemma SpelledThree(a: string, b: string, c: string)
    ensures Spelled([S(a), S(b), S(c)]) == a + b + c
  {
    assert [S(a), S(b), S(c)][..2] == [S(a), S(b)] && [S(a), S(b)][..1] == [S(a)] && [S(a)][..0] == [];
    assert Spelled([S(a)]) == a;
    assert Spelled([S(a), S(b)]) == a + b;
  }

  lemma Quals(env: Env, ns: string, svc: Service)
    requires ForService(env, ns, svc)
    ensures Spelled(RRefs(StubQual(), env)) == ClassPath(ns, svc) + "Stub::"
    ensures Spelled(RRefs(AsyncQual(), env)) == ClassPath(ns, svc) + "Stub::async::"
    ensures Spelled(RRefs(ServiceQual(), env)) == ClassPath(ns, svc) + "Service::"
    ensures Spelled(RRefs(OuterQual(), env)) == ClassPath(ns, svc)
    ensures RRefs(StubQual(), env) != [] && RRefs(AsyncQual(), env) != [] && RRefs(ServiceQual(), env) != [] &&
            RRefs(OuterQual(), env) != []
  {
    RenderedRefs();
    hide RRefs, Spelled;
    SpelledThree(ns, svc.name, "::Stub::");
    SpelledThree(ns, svc.name, "::Stub::async::");
    SpelledThree(ns, svc.name, "::Service::");
    SpelledThree(ns, svc.name, "::");
    assert ns + svc.name + "::Stub::" == ns + svc.name + "::" + "Stub::";
    assert ns + svc.name + "::Stub::async::" == ns + svc.name + "::" + "Stub::async::";
    assert ns + svc.name + "::Service::" == ns + svc.name + "::" + "Service::";
  }

  // ---- What one definition defines ----

  lemma DefinitionDefines(decl: Form, body: Form, env: Env)
    requires IsDefinition(decl, body) && RRefs(decl.qual, env) != []
    ensures DefinedIn(DefinitionFacts(decl, body, env)) ==
            Place(Spelled(RRefs(decl.qual, env)), [SigOf(Render(decl, env))])
  {
    hide RRefs, RTys, RTy, DefinedIn, Spelled;
    DefinedConcat(DeclFacts(decl, env), [BodyFact(Render(body, env))]);
    DefinedOne(DeclFacts(decl, env)[0]);
    DefinedOne(BodyFact(Render(body, env)));
    PlaceOne(Spelled(RRefs(decl.qual, env)), SigOf(Render(decl, env)));
    assert DeclFacts(decl, env) == [DeclFacts(decl, env)[0]];
  }

  lemma HeadDefines(decl: Form, env: Env)
    requires decl.Decl? && decl.tail in {Open, Inline, InitList} && RRefs(decl.qual, env) != []
    ensures DefinedIn(DeclFacts(decl, env)) == Place(Spelled(RRefs(decl.qual, env)), [SigOf(Render(decl, env))])
  {
    hide RRefs, RTys, RTy, DefinedIn, Spelled;
    DefinedOne(DeclFacts(decl, env)[0]);
    PlaceOne(Spelled(RRefs(decl.qual, env)), SigOf(Render(decl, env)));
    assert DeclFacts(decl, env) == [DeclFacts(decl, env)[0]];
  }

  lemma SyncDefines(outer: Env, m: Method, ns: string, svc: Service)
    requires ForMethod(outer + MethodEnv(m), m) && ForService(outer + MethodEnv(m), ns, svc)
    ensures DefinedIn(SyncDefinitionFacts(outer, m)) ==
            Place(ClassPath(ns, svc) + "Stub::", [if m.Kind() == Unary then SyncSig(m) else RawSig(m, false)])
  {
    hide RRefs, RTys, Place, DefinedIn, DefinitionFacts, StubQual, ForMethod, ForService, SigOf, Spelled, ClassPath,
      MethodEnv;
    var env := outer + MethodEnv(m);
    Quals(env, ns, svc);
    DefinitionSigs(m, env);
    DefinitionDefines(SyncDefinition(m.Kind()), SyncBody(m.Kind()), env);
  }

  lemma CallbacksDefine(outer: Env, m: Method, ns: string, svc: Service)
    requires ForMethod(outer + MethodEnv(m), m) && ForService(outer + MethodEnv(m), ns, svc)
    ensures DefinedIn(CallbackDefinitionsFacts(outer, m)) ==
            Place(ClassPath(ns, svc) + "Stub::async::", CallbackSigsOf(m))
  {
    hide RRefs, RTys, Place, DefinedIn, DefinitionFacts, AsyncQual, ForMethod, ForService, SigOf, Spelled, ClassPath,
      MethodEnv, CallbackSig, ReactorSig;
    var env, path := outer + MethodEnv(m), ClassPath(ns, svc) + "Stub::async::";
    Quals(env, ns, svc);
    DefinitionSigs(m, env);
    DefinitionDefines(CallbackDefinition(m.Kind()), CallbackBody(m.Kind()), env);
    DefinitionDefines(ReactorDefinition(), ReactorBody(), env);
    var first := DefinitionFacts(CallbackDefinition(m.Kind()), CallbackBody(m.Kind()), env);
    DefinedConcat(first, DefinitionFacts(ReactorDefinition(), ReactorBody(), env));
    PlaceConcat(path, [CallbackSig(m)], [ReactorSig(m)]);
    assert first + [] == first && [CallbackSig(m)] + [] == [CallbackSig(m)];
  }

  lemma SourceEnvsFit(outer: Env, m: Method, i: nat, ns: string, svc: Service)
    requires ForService(outer, ns, svc)
    ensures ForMethod(outer + MethodEnv(m), m) && ForService(outer + MethodEnv(m), ns, svc)
    ensures ForAsync(AsyncDefinitionEnv(outer, m, SourcePrefixAt(i)), m, i)
    ensures ForService(AsyncDefinitionEnv(outer, m, SourcePrefixAt(i)), ns, svc)
  {
  }

  lemma AsyncDefines(outer: Env, m: Method, i: nat, ns: string, svc: Service)
    requires m.Kind() != Unary && ForService(outer, ns, svc)
    ensures DefinedIn(DefinitionFacts(AsyncDefinition(m.Kind()), AsyncBody(m.Kind()),
            AsyncDefinitionEnv(outer, m, SourcePrefixAt(i)))) ==
            Place(ClassPath(ns, svc) + "Stub::", [AsyncRawSig(m, i, false)])
  {
    hide RRefs, RTys, Place, DefinedIn, DefinitionFacts, StubQual, ForAsync, ForService, SigOf, Spelled, ClassPath,
      AsyncRawSig, AsyncDefinitionEnv, SourcePrefixAt;
    var env := AsyncDefinitionEnv(outer, m, SourcePrefixAt(i));
    SourceEnvsFit(outer, m, i, ns, svc);
    Quals(env, ns, svc);
    AsyncDefinitionSigs(m, i, env);
    DefinitionDefines(AsyncDefinition(m.Kind()), AsyncBody(m.Kind()), env);
  }

  lemma UnaryAsyncDefines(outer: Env, m: Method, i: nat, body: Form, ns: string, svc: Service)
    requires m.Kind() == Unary && ForService(outer, ns, svc) && body.ClientBody?
    ensures DefinedIn(DefinitionFacts(UnaryAsyncDefinition(Prefix(i).prefix), body, outer + MethodEnv(m))) ==
            Place(ClassPath(ns, svc) + "Stub::", [AsyncRawSig(m, i, false)])
  {
    hide RRefs, RTys, Place, DefinedIn, DefinitionFacts, StubQual, ForMethod, ForService, SigOf, Spelled, ClassPath,
      AsyncRawSig, MethodEnv, Prefix;
    var env := outer + MethodEnv(m);
    SourceEnvsFit(outer, m, i, ns, svc);
    Quals(env, ns, svc);
    UnaryAsyncDefinitionSigs(m, i, env);
    DefinitionDefines(UnaryAsyncDefinition(Prefix(i).prefix), body, env);
  }

  // The unary definitions come in the other order.
  lemma CqDefine(outer: Env, m: Method, ns: string, svc: Service)
    requires ForService(outer, ns, svc)
    ensures multiset(DefinedIn(CqDefinitionsFacts(outer, m))) ==
            multiset(Place(ClassPath(ns, svc) + "Stub::", [AsyncRawSig(m, 0, false)] + [AsyncRawSig(m, 1, false)]))
  {
    hide RRefs, Place, DefinedIn, DefinitionFacts, ForService, ClassPath, AsyncRawSig, AsyncDefinitionEnv,
      SourcePrefixAt;
    var p := ClassPath(ns, svc) + "Stub::";
    PlaceConcat(p, [AsyncRawSig(m, 0, false)], [AsyncRawSig(m, 1, false)]);
    if m.Kind() == Unary {
      UnaryAsyncDefines(outer, m, 0, StartBody(), ns, svc);
      UnaryAsyncDefines(outer, m, 1, PrepareBody(), ns, svc);
      DefinedConcat(DefinitionFacts(UnaryAsyncDefinition("PrepareAsync"), PrepareBody(), outer + MethodEnv(m)),
                    DefinitionFacts(UnaryAsyncDefinition("Async"), StartBody(), outer + MethodEnv(m)));
    } else {
      AsyncDefines(outer, m, 0, ns, svc);
      AsyncDefines(outer, m, 1, ns, svc);
      var a := DefinitionFacts(AsyncDefinition(m.Kind()), AsyncBody(m.Kind()),
        AsyncDefinitionEnv(outer, m, SourcePrefixAt(0)));
      var b := DefinitionFacts(AsyncDefinition(m.Kind()), AsyncBody(m.Kind()),
        AsyncDefinitionEnv(outer, m, SourcePrefixAt(1)));
      assert AsyncDefinitionsFacts(outer, m, 1) == a;
      assert AsyncDefinitionsFacts(outer, m, 2) == a + b;
      DefinedConcat(a, b);
    }
  }

  // One method's definitions are those its three header passes declare.
  lemma MethodDefines(outer: Env, m: Method, ps: Parameters, ns: string, svc: Service)
    requires ForService(outer, ns, svc)
    ensures multiset(DefinedIn(ClientDefinitionsFacts(outer, m, ps))) ==
            multiset(Place(ClassPath(ns, svc) + "Stub::", DirectSigs(m))) +
            multiset(Place(ClassPath(ns, svc) + "Stub::async::", CallbackSigsOf(m))) +
            multiset(Place(ClassPath(ns, svc) + "Stub::", RawSigs(m, ps, false)))
  {
    hide RRefs, Place, DefinedIn, ForService, ClassPath, AsyncRawSig, SyncSig, RawSig, SyncDefinitionFacts,
      CallbackDefinitionsFacts, CqDefinitionsFacts, CallbackSigsOf, MethodEnv;
    var p := ClassPath(ns, svc) + "Stub::";
    SourceEnvsFit(outer, m, 0, ns, svc);
    SyncDefines(outer, m, ns, svc);
    CallbacksDefine(outer, m, ns, svc);
    CqDefine(outer, m, ns, svc);
    var s, c := SyncDefinitionFacts(outer, m), CallbackDefinitionsFacts(outer, m);
    var q := if ps.allowCqApi then CqDefinitionsFacts(outer, m) else [];
    DefinedConcat(s, c);
    DefinedConcat(s + c, q);
    DefinedNothing();
    var first := if m.Kind() == Unary then [] else [RawSig(m, false)];
    var rest := if ps.allowCqApi then [AsyncRawSig(m, 0, false)] + [AsyncRawSig(m, 1, false)] else [];
    PlaceConcat(p, first, rest);
    NamesEmpty([], p);
    assert RawSigs(m, ps, false) == first + rest;
  }

  lemma DefinedNothing()
    ensures DefinedIn([]) == []
  {
  }

  // What the client definitions of the first n methods define.
  function StubDefines(ms: seq<Method>, ps: Parameters, n: nat, path: string): multiset<Placed>
    requires n <= |ms|
  {
    multiset(Place(path + "Stub::", RoundsSigs(StubPublic, Overriding, ms, ps, n))) +
    multiset(Place(path + "Stub::async::", RoundsSigs(Callbacks, Overriding, ms, ps, n))) +
    multiset(Place(path + "Stub::", RoundsSigs(StubPrivate, Overriding, ms, ps, n)))
  }

  lemma StubDefinesStep(ms: seq<Method>, ps: Parameters, n: nat, path: string)
    requires n < |ms|
    ensures StubDefines(ms, ps, n + 1, path) ==
            StubDefines(ms, ps, n, path) +
            (multiset(Place(path + "Stub::", DirectSigs(ms[n]))) +
              multiset(Place(path + "Stub::async::", CallbackSigsOf(ms[n]))) +
             multiset(Place(path + "Stub::", RawSigs(ms[n], ps, false))))
  {
    hide Place, DirectSigs, CallbackSigsOf, RawSigs;
    PlaceConcat(path + "Stub::", RoundsSigs(StubPublic, Overriding, ms, ps, n), DirectSigs(ms[n]));
    PlaceConcat(path + "Stub::async::", RoundsSigs(Callbacks, Overriding, ms, ps, n), CallbackSigsOf(ms[n]));
    PlaceConcat(path + "Stub::", RoundsSigs(StubPrivate, Overriding, ms, ps, n), RawSigs(ms[n], ps, false));
    hide RoundsSigs;
    RoundsSigsStep(StubPublic, ms, ps, n);
    RoundsSigsStep(Callbacks, ms, ps, n);
    RoundsSigsStep(StubPrivate, ms, ps, n);
  }

  lemma RoundsSigsStep(pass: Pass, ms: seq<Method>, ps: Parameters, n: nat)
    requires n < |ms|
    ensures RoundsSigs(pass, Overriding, ms, ps, n + 1) ==
            RoundsSigs(pass, Overriding, ms, ps, n) + RoundSigs(pass, Overriding, ms[n], ps)
  {
  }

  lemma {:induction false} ClientMethodsDefine(outer: Env, ms: seq<Method>, ps: Parameters, n: nat, ns: string,
      svc: Service)
    requires ForService(outer, ns, svc) && n <= |ms|
    ensures multiset(DefinedIn(SourceRoundsFacts(ClientMethods, outer, ms, ps, n))) ==
            StubDefines(ms, ps, n, ClassPath(ns, svc))
  {
    hide DefinedIn, ForService, ClientDefinitionsFacts, StubDefines, ClassPath, Place, DirectSigs, CallbackSigsOf,
      RawSigs;
    if n == 0 {
      DefinedNothing();
      StubDefinesNothing(ms, ps, ClassPath(ns, svc));
    } else {
      ClientMethodsDefine(outer, ms, ps, n - 1, ns, svc);
      MethodDefines(outer, ms[n - 1], ps, ns, svc);
      StubDefinesStep(ms, ps, n - 1, ClassPath(ns, svc));
      DefinedConcat(SourceRoundsFacts(ClientMethods, outer, ms, ps, n - 1),
        ClientDefinitionsFacts(outer, ms[n - 1], ps));
    }
  }

  lemma StubDefinesNothing(ms: seq<Method>, ps: Parameters, path: string)
    ensures StubDefines(ms, ps, 0, path) == multiset{}
  {
  }

  lemma {:induction false} ServerMethodsDefine(outer: Env, ms: seq<Method>, ps: Parameters, n: nat, ns: string,
      svc: Service)
    requires ForService(outer, ns, svc) && n <= |ms|
    ensures DefinedIn(SourceRoundsFacts(ServerMethods, outer, ms, ps, n)) ==
            Place(ClassPath(ns, svc) + "Service::", ServiceSigsOf(ms, n))
  {
    hide DefinedIn, ForService, ClassPath, Place, ServiceSig, MethodEnv, DeclFacts, DefaultFacts;
    var path := ClassPath(ns, svc) + "Service::";
    if n == 0 {
      DefinedNothing();
      NamesEmpty([], path);
    } else {
      var m := ms[n - 1];
      ServerMethodsDefine(outer, ms, ps, n - 1, ns, svc);
      ServerDefines(outer, m, ns, svc);
      var decl := DeclFacts(ServerDefinition(m.Kind()), outer + MethodEnv(m));
      DefaultIsSaid(m, ps);
      DefaultDefinesNothing(DefaultFacts(m, ps));
      DefinedConcat(decl, DefaultFacts(m, ps));
      DefinedConcat(SourceRoundsFacts(ServerMethods, outer, ms, ps, n - 1), decl + DefaultFacts(m, ps));
      PlaceConcat(path, ServiceSigsOf(ms, n - 1), [ServiceSig(m)]);
    }
  }

  lemma {:induction false} DefaultDefinesNothing(fs: seq<Fact>)
    requires forall f :: f in fs ==> f.Said?
    ensures DefinedIn(fs) == []
  {
    if fs != [] {
      assert fs[|fs| - 1] in fs;
      DefaultDefinesNothing(fs[..|fs| - 1]);
    }
  }

  lemma DefaultIsSaid(m: Method, ps: Parameters)
    ensures forall f :: f in DefaultFacts(m, ps) ==> f.Said?
  {
  }

  lemma ServerDefines(outer: Env, m: Method, ns: string, svc: Service)
    requires ForService(outer, ns, svc)
    ensures DefinedIn(DeclFacts(ServerDefinition(m.Kind()), outer + MethodEnv(m))) ==
            Place(ClassPath(ns, svc) + "Service::", [ServiceSig(m)])
  {
    hide RRefs, RTys, Place, DefinedIn, DeclFacts, ServiceQual, ForMethod, ForService, SigOf, Spelled, ClassPath,
      MethodEnv, ServiceSig;
    var env := outer + MethodEnv(m);
    SourceEnvsFit(outer, m, 0, ns, svc);
    Quals(env, ns, svc);
    ServiceSigs(m, env);
    HeadDefines(ServerDefinition(m.Kind()), env);
  }

  // Passes that define nothing.
  lemma EntryDefinesNothing(pass: SourcePass, outer: Env, m: Method, i: nat, ps: Parameters)
    requires pass in {StubInits, AddMethods}
    ensures DefinedIn(SourceRoundFacts(pass, outer, m, i, ps)) == []
  {
    hide DefinedIn, RRefs, InitEnv, AddEnv, Dec, StreamingType;
    DefinedOne(SourceRoundFacts(pass, outer, m, i, ps)[0]);
  }

  lemma {:induction false} EntriesDefineNothing(pass: SourcePass, outer: Env, ms: seq<Method>, ps: Parameters, n: nat)
    requires n <= |ms| && pass in {StubInits, AddMethods}
    ensures DefinedIn(SourceRoundsFacts(pass, outer, ms, ps, n)) == []
  {
    hide SourceRoundFacts, Spelled;
    if n > 0 {
      EntriesDefineNothing(pass, outer, ms, ps, n - 1);
      EntryDefinesNothing(pass, outer, ms[n - 1], n - 1, ps);
      DefinedConcat(SourceRoundsFacts(pass, outer, ms, ps, n - 1), SourceRoundFacts(pass, outer, ms[n - 1], n - 1, ps));
    }
  }

  lemma OuterSigs(env: Env)
    ensures SigOf(Render(NewStubDefinition(), env)) == NewStubSig() &&
            SigOf(Render(StubCtorDefinition(), env)) == StubCtorSig()
    ensures SigOf(Render(ServiceCtorDefinition(), env)) == ServiceCtorSig()
    ensures SigOf(Render(ServiceDtorDefinition(), env)) == ServiceDtorSig()
  {
    RenderedRefs();
    RenderedTys();
    hide RRefs, RTys;
  }

  lemma CreationDefines(outer: Env, ms: seq<Method>, ps: Parameters, ns: string, svc: Service)
    requires ForService(outer, ns, svc)
    ensures DefinedIn(StubCreationFacts(outer, ms, ps)) ==
            Place(ClassPath(ns, svc), [NewStubSig()]) + Place(ClassPath(ns, svc) + "Stub::", [StubCtorSig()])
    ensures DefinedIn(ServiceCreationFacts(outer, ms, ps)) ==
            Place(ClassPath(ns, svc) + "Service::", [ServiceCtorSig()]) +
            Place(ClassPath(ns, svc) + "Service::", [ServiceDtorSig()])
  {
    hide RRefs, RTys, Place, DefinedIn, DeclFacts, StubQual, ServiceQual, OuterQual, ForService, SigOf, Spelled,
      ClassPath, SourceRoundsFacts, NewStubSig, StubCtorSig, ServiceCtorSig, ServiceDtorSig;
    Quals(outer, ns, svc);
    OuterSigs(outer);
    HeadDefines(NewStubDefinition(), outer);
    HeadDefines(StubCtorDefinition(), outer);
    HeadDefines(ServiceCtorDefinition(), outer);
    HeadDefines(ServiceDtorDefinition(), outer);
    EntriesDefineNothing(StubInits, outer, ms, ps, |ms|);
    EntriesDefineNothing(AddMethods, outer, ms, ps, |ms|);
    var a, b, c, d := DeclFacts(NewStubDefinition(), outer), DeclFacts(StubCtorDefinition(), outer),
      DeclFacts(ServiceCtorDefinition(), outer), DeclFacts(ServiceDtorDefinition(), outer);
    DefinedConcat(a, b);
    DefinedConcat(a + b, SourceEveryFacts(StubInits, outer, ms, ps));
    DefinedConcat(c, SourceEveryFacts(AddMethods, outer, ms, ps));
    DefinedConcat(c + SourceEveryFacts(AddMethods, outer, ms, ps), d);
  }

  lemma TableDefinesNothing(outer: Env, ms: seq<Method>, ps: Parameters)
    ensures DefinedIn(TableFacts(outer, ms, ps)) == []
  {
    hide DefinedIn, RRefs, SourceEveryFacts;
    DefinedNothing();
    if |ms| > 0 {
      DefinedOne(TableFacts(outer, ms, ps)[0]);
    }
  }

  lemma SourceDefines(outer: Env, ms: seq<Method>, ps: Parameters, ns: string, svc: Service)
    requires ForService(outer, ns, svc)
    ensures multiset(DefinedIn(SourceServiceFacts(outer, ms, ps))) == Needs(ms, ps, ClassPath(ns, svc))
  {
    hide DefinedIn, Place, TableFacts, StubCreationFacts, ServiceCreationFacts, SourceRoundsFacts, ForService,
      ClassPath, NewStubSig, StubCtorSig, ServiceCtorSig, ServiceDtorSig, RoundsSigs, ServiceSigsOf;
    var t, a, b := TableFacts(outer, ms, ps), StubCreationFacts(outer, ms, ps),
      SourceEveryFacts(ClientMethods, outer, ms, ps);
    var c, d := ServiceCreationFacts(outer, ms, ps), SourceEveryFacts(ServerMethods, outer, ms, ps);
    TableDefinesNothing(outer, ms, ps);
    CreationDefines(outer, ms, ps, ns, svc);
    ClientMethodsDefine(outer, ms, ps, |ms|, ns, svc);
    ServerMethodsDefine(outer, ms, ps, |ms|, ns, svc);
    DefinedConcat(t, a);
    DefinedConcat(t + a, b);
    DefinedConcat(t + a + b, c);
    DefinedConcat(t + a + b + c, d);
  }

  // The source text of a service, printed by itself.
  function SourceText(svc: Service, pkg: string, ps: Parameters): seq<Item> {
    SourceServiceOutput([], 0, SourceEnv(svc, pkg, ps.servicesNamespace), svc.methods, ps)
  }

  function NamespacePath(ps: Parameters): string {
    if ps.servicesNamespace != "" then ps.servicesNamespace + "::" else ""
  }

  lemma SourceTextRead(svc: Service, pkg: string, ps: Parameters)
    ensures After(SourceText(svc, pkg, ps)) ==
            Plus(Start(), SourceServiceFacts(SourceEnv(svc, pkg, ps.servicesNamespace), svc.methods, ps))
  {
    hide After, SourceServiceOutput, SourceServiceFacts, SourceEnv;
    StartIsReady();
    SourceServiceRead([], 0, SourceEnv(svc, pkg, ps.servicesNamespace), svc.methods, ps);
  }

  lemma SourceEnvNames(svc: Service, pkg: string, ps: Parameters)
    ensures ForService(SourceEnv(svc, pkg, ps.servicesNamespace), NamespacePath(ps), svc)
  {
  }

  // Every function a service's header declares and does not define inline has
  // exactly one definition in the source, with the same name, scope, parameter
  // and result types; and the source defines nothing else.
  lemma EveryDeclarationHasOneDefinition(svc: Service, pkg: string, ps: Parameters)
    ensures multiset(DeclaredIn(Facts(HeaderText(svc, pkg, ps)), NamespacePath(ps))) ==
            multiset(DefinedIn(Facts(SourceText(svc, pkg, ps))))
  {
    hide DeclaredIn, DefinedIn, HeaderText, SourceText, HeaderServiceFacts, SourceServiceFacts, Needs, After,
      ForService, ClassPath, SourceEnv, NamespacePath;
    HeaderTextRead(svc, pkg, ps);
    SourceTextRead(svc, pkg, ps);
    var outer := SourceEnv(svc, pkg, ps.servicesNamespace);
    SourceEnvNames(svc, pkg, ps);
    HeaderDeclares(svc, pkg, ps, NamespacePath(ps));
    SourceDefines(outer, svc.methods, ps, NamespacePath(ps), svc);
    assert [] + HeaderServiceFacts(svc, pkg, ps) == HeaderServiceFacts(svc, pkg, ps);
    assert [] + SourceServiceFacts(outer, svc.methods, ps) == SourceServiceFacts(outer, svc.methods, ps);
  }
}
