// Client and server agree on the wire: one table of method names serves the
// stub's constructor and the service's, entry for entry.
module TableAgreement {
  import opened Schema
  import opened Emit
  import opened Structure
  import opened HeaderService
  import opened ClientFacts
  import opened HeaderFacts
  import opened SourceTemplates
  import opened SourceService
  import opened SourceFacts
  import opened Signatures
  import opened Queries
  import opened ClientPasses
  import opened HeaderClasses
  import opened HeaderDeclarations
  import opened DefinitionAgreement
  import opened Decimal

  // ---- The three passes, entry by entry ----

  // "rpcmethod_" M "_"
  function MemberName(m: Method): seq<Ref> { [S("rpcmethod_"), S(m.name), S("_")] }

  function TableRefs(svc: Service, ps: Parameters): seq<Ref> { [S(ps.servicesNamespace), S(svc.name)] }

  predicate EntryFits(f: Fact, svc: Service, pkg: string, m: Method) {
    f.Entry? && Spelled(f.path) == "/" + pkg + svc.name + "/" + m.name
  }

  predicate InitFits(f: Fact, svc: Service, ps: Parameters, m: Method, i: nat) {
    f == Init(MemberName(m), TableRefs(svc, ps), S(Dec(i)), S(StreamingType(m.Kind())))
  }

  predicate RegistrationFits(f: Fact, svc: Service, ps: Parameters, m: Method, i: nat) {
    f == Registered(TableRefs(svc, ps), S(Dec(i)), S(StreamingType(m.Kind())), m.Kind(), ServiceRefs(svc, ps),
                    [S(m.inputType), S(m.outputType)], [S(m.name)])
  }

  // The class whose functions the service registers.
  function ServiceRefs(svc: Service, ps: Parameters): seq<Ref> {
    [S(NamespacePath(ps)), S(svc.name), S("::Service::")]
  }

  lemma SpelledFive(a: string, b: string, c: string, d: string, e: string)
    ensures Spelled([S(a), S(b), S(c), S(d), S(e)]) == a + b + c + d + e
  {
    var rs := [S(a), S(b), S(c), S(d), S(e)];
    SpelledThree(a, b, c);
    assert rs[..4] == [S(a), S(b), S(c), S(d)] && rs[..4][..3] == [S(a), S(b), S(c)];
    assert Spelled(rs[..4]) == a + b + c + d;
  }

  lemma EntryIs(svc: Service, pkg: string, ps: Parameters, m: Method, i: nat)
    ensures var fs := SourceRoundFacts(TableEntries, SourceEnv(svc, pkg, ps.servicesNamespace), m, i, ps);
      |fs| == 1 && EntryFits(fs[0], svc, pkg, m)
  {
    hide Spelled;
    var env := EntryEnv(SourceEnv(svc, pkg, ps.servicesNamespace), m);
    assert RRefs([S("/"), V(VPackage), V(VService), S("/"), V(VMethod)], env) ==
      [S("/"), S(pkg), S(svc.name), S("/"), S(m.name)];
    SpelledFive("/", pkg, svc.name, "/", m.name);
  }

  // What the variables hold while the two constructors are printed.
  predicate ForWiring(env: Env, svc: Service, ps: Parameters, m: Method, i: nat) {
    VMethod in env && env[VMethod] == m.name && VIdx in env && env[VIdx] == Dec(i) &&
    VPrefix in env && env[VPrefix] == ps.servicesNamespace && VService in env && env[VService] == svc.name
  }

  lemma WiringEnvs(svc: Service, pkg: string, ps: Parameters, m: Method, i: nat)
    ensures var outer := SourceEnv(svc, pkg, ps.servicesNamespace);
      var env := InitEnv(outer, m, Dec(i));
      ForWiring(env, svc, ps, m, i) && VStreamingType in env && env[VStreamingType] == StreamingType(m.Kind()) &&
      ForWiring(AddEnv(outer, m, Dec(i)), svc, ps, m, i) && ForMethod(AddEnv(outer, m, Dec(i)), m) &&
      ForService(AddEnv(outer, m, Dec(i)), NamespacePath(ps), svc)
  {
    hide Dec, StreamingType;
  }

  lemma InitIs(svc: Service, pkg: string, ps: Parameters, m: Method, i: nat)
    ensures var fs := SourceRoundFacts(StubInits, SourceEnv(svc, pkg, ps.servicesNamespace), m, i, ps);
      |fs| == 1 && InitFits(fs[0], svc, ps, m, i)
  {
    RenderedRefs();
    WiringEnvs(svc, pkg, ps, m, i);
    hide RRefs, Dec, StreamingType, InitEnv, SourceEnv;
  }

  // AddMethod spells the streaming type that the stub's initializer looks up.
  lemma SameStreamingType(k: Kind)
    ensures AddMethodForm(k).AddMethod? && AddMethodForm(k).streaming == S(StreamingType(k)) &&
            AddMethodForm(k).handler == k
    ensures AddMethodForm(k).table == [V(VPrefix), V(VService)] && AddMethodForm(k).idx == V(VIdx) &&
            AddMethodForm(k).service == [V(VNs), V(VService), S("::Service::")] &&
            AddMethodForm(k).types == [V(VRequest), V(VResponse)] && AddMethodForm(k).callee == [V(VMethod)]
  {
  }

  lemma RegistrationIs(svc: Service, pkg: string, ps: Parameters, m: Method, i: nat)
    ensures var fs := SourceRoundFacts(AddMethods, SourceEnv(svc, pkg, ps.servicesNamespace), m, i, ps);
      |fs| == 1 && RegistrationFits(fs[0], svc, ps, m, i)
  {
    RenderedRefs();
    WiringEnvs(svc, pkg, ps, m, i);
    SameStreamingType(m.Kind());
    hide RRefs, Dec, StreamingType, AddMethodForm, AddEnv, SourceEnv, NamespacePath;
  }

  lemma DataIs(m: Method)
    ensures StubDataFacts(m) == [Member(MemberName(m))]
  {
    RenderedRefs();
    hide RRefs;
  }

  lemma {:induction false} EntriesFit(svc: Service, pkg: string, ps: Parameters, n: nat)
    requires n <= |svc.methods|
    ensures var fs := SourceRoundsFacts(TableEntries, SourceEnv(svc, pkg, ps.servicesNamespace), svc.methods, ps, n);
      |fs| == n && forall i {:trigger fs[i]} :: 0 <= i < n ==> EntryFits(fs[i], svc, pkg, svc.methods[i])
  {
    hide SourceRoundFacts, EntryFits, SourceEnv;
    if n > 0 {
      EntriesFit(svc, pkg, ps, n - 1);
      EntryIs(svc, pkg, ps, svc.methods[n - 1], n - 1);
    }
  }

  lemma {:induction false} InitsFit(svc: Service, pkg: string, ps: Parameters, n: nat)
    requires n <= |svc.methods|
    ensures var fs := SourceRoundsFacts(StubInits, SourceEnv(svc, pkg, ps.servicesNamespace), svc.methods, ps, n);
      |fs| == n && forall i {:trigger fs[i]} :: 0 <= i < n ==> InitFits(fs[i], svc, ps, svc.methods[i], i)
  {
    hide SourceRoundFacts, InitFits, SourceEnv;
    if n > 0 {
      InitsFit(svc, pkg, ps, n - 1);
      InitIs(svc, pkg, ps, svc.methods[n - 1], n - 1);
    }
  }

  lemma {:induction false} RegistrationsFit(svc: Service, pkg: string, ps: Parameters, n: nat)
    requires n <= |svc.methods|
    ensures var fs := SourceRoundsFacts(AddMethods, SourceEnv(svc, pkg, ps.servicesNamespace), svc.methods, ps, n);
      |fs| == n && forall i {:trigger fs[i]} :: 0 <= i < n ==> RegistrationFits(fs[i], svc, ps, svc.methods[i], i)
  {
    hide SourceRoundFacts, RegistrationFits, SourceEnv;
    if n > 0 {
      RegistrationsFit(svc, pkg, ps, n - 1);
      RegistrationIs(svc, pkg, ps, svc.methods[n - 1], n - 1);
    }
  }

  lemma {:induction false} DataFit(ms: seq<Method>, ps: Parameters, n: nat)
    requires n <= |ms|
    ensures var fs := RoundsFacts(StubMembers, ms, ps, n);
      |fs| == n && forall i {:trigger fs[i]} :: 0 <= i < n ==> fs[i] == Member(MemberName(ms[i]))
  {
    hide StubDataFacts, MemberName;
    if n > 0 {
      DataFit(ms, ps, n - 1);
      DataIs(ms[n - 1]);
    }
  }

  // ---- Finding them in the whole text ----

  lemma {:induction false} SelectAll(sort: Sort, fs: seq<Fact>)
    requires forall f :: f in fs ==> Is(sort, f)
    ensures Select(sort, fs) == fs
  {
    hide Is;
    if fs != [] {
      SelectAll(sort, fs[..|fs| - 1]);
      assert fs[|fs| - 1] in fs;
      assert fs == fs[..|fs| - 1] + [fs[|fs| - 1]];
    }
  }

  lemma {:induction false} SelectNone(sort: Sort, fs: seq<Fact>)
    requires forall f :: f in fs ==> !Is(sort, f)
    ensures Select(sort, fs) == []
  {
    hide Is;
    if fs != [] {
      assert fs[|fs| - 1] in fs;
      SelectNone(sort, fs[..|fs| - 1]);
    }
  }

  // Definitions, their bodies, and nothing else.
  predicate Defining(fs: seq<Fact>) {
    forall f :: f in fs ==> f.Definition? || f.BodyOf? || f.InlineDecl? || f.Said?
  }

  lemma DefiningConcat(a: seq<Fact>, b: seq<Fact>)
    requires Defining(a) && Defining(b)
    ensures Defining(a + b)
  {
  }

  lemma HeadIsDefining(decl: Form, env: Env)
    requires decl.Decl? && decl.tail in {Open, Inline, InitList}
    ensures Defining(DeclFacts(decl, env)) && Defining([])
  {
    hide RRefs, RTys, RTy;
  }

  lemma DefinitionIsDefining(decl: Form, body: Form, env: Env)
    requires IsDefinition(decl, body)
    ensures Defining(DefinitionFacts(decl, body, env))
  {
    hide RRefs, RTys, RTy;
  }

  lemma ClientIsDefining(outer: Env, m: Method, ps: Parameters)
    ensures Defining(ClientDefinitionsFacts(outer, m, ps))
  {
    hide DefinitionFacts, Defining;
    var env, k := outer + MethodEnv(m), m.Kind();
    HeadIsDefining(SyncDefinition(k), env);
    DefinitionIsDefining(SyncDefinition(k), SyncBody(k), env);
    DefinitionIsDefining(CallbackDefinition(k), CallbackBody(k), env);
    DefinitionIsDefining(ReactorDefinition(), ReactorBody(), env);
    DefiningConcat(DefinitionFacts(CallbackDefinition(k), CallbackBody(k), env),
                   if k == Unary then DefinitionFacts(ReactorDefinition(), ReactorBody(), env) else []);
    CqIsDefining(outer, m);
    DefiningConcat(SyncDefinitionFacts(outer, m), CallbackDefinitionsFacts(outer, m));
    DefiningConcat(SyncDefinitionFacts(outer, m) + CallbackDefinitionsFacts(outer, m),
                   if ps.allowCqApi then CqDefinitionsFacts(outer, m) else []);
  }

  lemma CqIsDefining(outer: Env, m: Method)
    ensures Defining(CqDefinitionsFacts(outer, m))
  {
    hide DefinitionFacts, Defining, AsyncDefinitionEnv, SourcePrefixAt;
    var env, k := outer + MethodEnv(m), m.Kind();
    if k == Unary {
      DefinitionIsDefining(UnaryAsyncDefinition("PrepareAsync"), PrepareBody(), env);
      DefinitionIsDefining(UnaryAsyncDefinition("Async"), StartBody(), env);
      DefiningConcat(DefinitionFacts(UnaryAsyncDefinition("PrepareAsync"), PrepareBody(), env),
                     DefinitionFacts(UnaryAsyncDefinition("Async"), StartBody(), env));
    } else {
      var e0, e1 := AsyncDefinitionEnv(outer, m, SourcePrefixAt(0)), AsyncDefinitionEnv(outer, m, SourcePrefixAt(1));
      DefinitionIsDefining(AsyncDefinition(k), AsyncBody(k), e0);
      DefinitionIsDefining(AsyncDefinition(k), AsyncBody(k), e1);
      var a, b := DefinitionFacts(AsyncDefinition(k), AsyncBody(k), e0),
        DefinitionFacts(AsyncDefinition(k), AsyncBody(k), e1);
      assert AsyncDefinitionsFacts(outer, m, 1) == a;
      assert AsyncDefinitionsFacts(outer, m, 2) == a + b;
      DefiningConcat(a, b);
    }
  }

  lemma {:induction false} PassIsDefining(pass: SourcePass, outer: Env, ms: seq<Method>, ps: Parameters, n: nat)
    requires pass in {ClientMethods, ServerMethods} && n <= |ms|
    ensures Defining(SourceRoundsFacts(pass, outer, ms, ps, n))
  {
    hide ClientDefinitionsFacts, DeclFacts, DefaultFacts, Defining;
    HeadIsDefining(NewStubDefinition(), outer);
    if n > 0 {
      var m := ms[n - 1];
      PassIsDefining(pass, outer, ms, ps, n - 1);
      ClientIsDefining(outer, m, ps);
      HeadIsDefining(ServerDefinition(m.Kind()), outer + MethodEnv(m));
      DefaultIsDefining(m, ps);
      DefiningConcat(DeclFacts(ServerDefinition(m.Kind()), outer + MethodEnv(m)), DefaultFacts(m, ps));
      DefiningConcat(SourceRoundsFacts(pass, outer, ms, ps, n - 1),
        SourceRoundFacts(pass, outer, ms[n - 1], n - 1, ps));
    }
  }

  lemma DefaultIsDefining(m: Method, ps: Parameters)
    ensures Defining(DefaultFacts(m, ps))
  {
  }

  // ---- The theorem ----

  predicate TableFits(t: Fact, svc: Service, pkg: string, ps: Parameters) {
    t.TableOf? && t.table == TableRefs(svc, ps) && |t.entries| == |svc.methods| &&
    forall i :: 0 <= i < |svc.methods| ==> EntryFits(t.entries[i], svc, pkg, svc.methods[i])
  }

  function TablesOf(svc: Service, pkg: string, ps: Parameters): seq<Fact> {
    Select(Tables, Facts(SourceText(svc, pkg, ps)))
  }

  function InitsOf(svc: Service, pkg: string, ps: Parameters): seq<Fact> {
    Select(Inits, Facts(SourceText(svc, pkg, ps)))
  }

  function RegistrationsOf(svc: Service, pkg: string, ps: Parameters): seq<Fact> {
    Select(Registrations, Facts(SourceText(svc, pkg, ps)))
  }

  // The part of a source service each of the three kinds of facts comes from.
  lemma SourceSelect(svc: Service, pkg: string, ps: Parameters)
    ensures var outer := SourceEnv(svc, pkg, ps.servicesNamespace);
      TablesOf(svc, pkg, ps) == TableFacts(outer, svc.methods, ps) &&
      InitsOf(svc, pkg, ps) == SourceEveryFacts(StubInits, outer, svc.methods, ps) &&
      RegistrationsOf(svc, pkg, ps) == SourceEveryFacts(AddMethods, outer, svc.methods, ps)
  {
    hide After, SourceText, TableFacts, StubCreationFacts, ServiceCreationFacts, SourceRoundsFacts, Select, SourceEnv;
    SourceTextRead(svc, pkg, ps);
    var outer, ms := SourceEnv(svc, pkg, ps.servicesNamespace), svc.methods;
    var all := SourceServiceFacts(outer, ms, ps);
    assert [] + all == all;
    SelectIn(Tables, svc, pkg, ps);
    SelectIn(Inits, svc, pkg, ps);
    SelectIn(Registrations, svc, pkg, ps);
  }

  lemma SelectIn(sort: Sort, svc: Service, pkg: string, ps: Parameters)
    requires sort in {Tables, Inits, Registrations}
    ensures var outer := SourceEnv(svc, pkg, ps.servicesNamespace);
      Select(sort, SourceServiceFacts(outer, svc.methods, ps)) ==
        match sort
        case Tables => TableFacts(outer, svc.methods, ps)
        case Inits => SourceEveryFacts(StubInits, outer, svc.methods, ps)
        case _ => SourceEveryFacts(AddMethods, outer, svc.methods, ps)
  {
    hide TableFacts, SourceRoundsFacts, Select, SourceEnv, DeclFacts, Defining, Is;
    var outer, ms := SourceEnv(svc, pkg, ps.servicesNamespace), svc.methods;
    var t, a, b := TableFacts(outer, ms, ps), StubCreationFacts(outer, ms, ps),
      SourceEveryFacts(ClientMethods, outer, ms, ps);
    var c, d := ServiceCreationFacts(outer, ms, ps), SourceEveryFacts(ServerMethods, outer, ms, ps);
    SelectConcat(sort, t, a);
    SelectConcat(sort, t + a, b);
    SelectConcat(sort, t + a + b, c);
    SelectConcat(sort, t + a + b + c, d);
    var n, s, v, w := DeclFacts(NewStubDefinition(), outer), DeclFacts(StubCtorDefinition(), outer),
      DeclFacts(ServiceCtorDefinition(), outer), DeclFacts(ServiceDtorDefinition(), outer);
    var inits, adds := SourceEveryFacts(StubInits, outer, ms, ps), SourceEveryFacts(AddMethods, outer, ms, ps);
    SelectConcat(sort, n, s);
    SelectConcat(sort, n + s, inits);
    SelectConcat(sort, v, adds);
    SelectConcat(sort, v + adds, w);
    HeadIsDefining(NewStubDefinition(), outer);
    HeadIsDefining(StubCtorDefinition(), outer);
    HeadIsDefining(ServiceCtorDefinition(), outer);
    HeadIsDefining(ServiceDtorDefinition(), outer);
    NothingElse(sort, n);
    NothingElse(sort, s);
    NothingElse(sort, v);
    NothingElse(sort, w);
    PassIsDefining(ClientMethods, outer, ms, ps, |ms|);
    PassIsDefining(ServerMethods, outer, ms, ps, |ms|);
    NothingElse(sort, b);
    NothingElse(sort, d);
    OwnSort(sort, svc, pkg, ps);
  }

  lemma NothingElse(sort: Sort, fs: seq<Fact>)
    requires sort in {Tables, Inits, Registrations} && Defining(fs)
    ensures Select(sort, fs) == []
  {
    hide Select;
    SelectNone(sort, fs);
  }

  lemma OwnSort(sort: Sort, svc: Service, pkg: string, ps: Parameters)
    requires sort in {Tables, Inits, Registrations}
    ensures var outer := SourceEnv(svc, pkg, ps.servicesNamespace);
      Select(sort, TableFacts(outer, svc.methods, ps)) ==
        (if sort == Tables then TableFacts(outer, svc.methods, ps) else []) &&
      Select(sort, SourceEveryFacts(StubInits, outer, svc.methods, ps)) ==
        (if sort == Inits then SourceEveryFacts(StubInits, outer, svc.methods, ps) else []) &&
      Select(sort, SourceEveryFacts(AddMethods, outer, svc.methods, ps)) ==
        (if sort == Registrations then SourceEveryFacts(AddMethods, outer, svc.methods, ps) else [])
  {
    hide SourceRoundsFacts, Select, SourceEnv, RRefs, StreamingType, Dec, MemberName, TableRefs;
    var outer, ms := SourceEnv(svc, pkg, ps.servicesNamespace), svc.methods;
    InitsFit(svc, pkg, ps, |ms|);
    RegistrationsFit(svc, pkg, ps, |ms|);
    var t, inits, adds := TableFacts(outer, ms, ps), SourceEveryFacts(StubInits, outer, ms, ps),
      SourceEveryFacts(AddMethods, outer, ms, ps);
    if sort == Tables { SelectAll(sort, t); } else { SelectNone(sort, t); }
    if sort == Inits { SelectAll(sort, inits); } else { SelectNone(sort, inits); }
    if sort == Registrations { SelectAll(sort, adds); } else { SelectNone(sort, adds); }
  }

  // The members of the header's Stub, in order.
  lemma StubSelect(ms: seq<Method>, ps: Parameters)
    ensures Select(Members, StubMembersFacts(ms, ps)) == EveryFacts(StubMembers, ms, ps)
  {
    hide RoundsFacts, Select, DeclFacts, Closed, AsyncStubMembers, Privately;
    var ctor, pub, priv, data := DeclFacts(StubCtor(), map[]), EveryFacts(StubPublic, ms, ps),
      EveryFacts(StubPrivate, ms, ps), EveryFacts(StubMembers, ms, ps);
    var nested := Closed(AsyncScope(), AsyncStubMembers(ms, ps));
    MembersByPart(ms, ps);
    SelectConcat(Members, ctor, pub);
    SelectConcat(Members, ctor + pub, nested);
    SelectConcat(Members, ctor + pub + nested, Privately());
    SelectConcat(Members, ctor + pub + nested + Privately(), priv);
    SelectConcat(Members, ctor + pub + nested + Privately() + priv, data);
  }

  lemma MembersByPart(ms: seq<Method>, ps: Parameters)
    ensures Select(Members, DeclFacts(StubCtor(), map[])) == [] && Select(Members, Privately()) == [] &&
            Select(Members, Closed(AsyncScope(), AsyncStubMembers(ms, ps))) == []
    ensures Select(Members, EveryFacts(StubPublic, ms, ps)) == [] &&
            Select(Members, EveryFacts(StubPrivate, ms, ps)) == []
    ensures Select(Members, EveryFacts(StubMembers, ms, ps)) == EveryFacts(StubMembers, ms, ps)
  {
    hide RoundsFacts, Select, DeclFacts, AsyncStubMembers;
    FixedSigs();
    SelectNone(Members, DeclFacts(StubCtor(), map[]));
    SelectNone(Members, Privately());
    SelectNone(Members, Closed(AsyncScope(), AsyncStubMembers(ms, ps)));
    NoMembersIn(StubPublic, ms, ps, |ms|);
    NoMembersIn(StubPrivate, ms, ps, |ms|);
    DataFit(ms, ps, |ms|);
    SelectAll(Members, EveryFacts(StubMembers, ms, ps));
  }

  lemma {:induction false} NoMembersIn(pass: Pass, ms: seq<Method>, ps: Parameters, n: nat)
    requires pass in {StubPublic, StubPrivate} && n <= |ms|
    ensures Select(Members, RoundsFacts(pass, ms, ps, n)) == []
  {
    hide Is, RoundFacts;
    if n > 0 {
      NoMembersIn(pass, ms, ps, n - 1);
      NoMembersInPass(pass, ms[n - 1], n - 1, ps);
      SelectConcat(Members, RoundsFacts(pass, ms, ps, n - 1), RoundFacts(pass, ms[n - 1], n - 1, ps));
    }
  }

  lemma NoMembersInPass(pass: Pass, m: Method, i: nat, ps: Parameters)
    requires pass in {StubPublic, StubPrivate}
    ensures Select(Members, RoundFacts(pass, m, i, ps)) == []
  {
    hide Select, PublicFacts, PrivateFacts, StubPublicFacts, StubPrivateFacts;
    PublicPasses(m, ps);
    PrivatePasses(m, ps);
    NoMembersInRound(m, ps);
  }

  lemma NoMembersInRound(m: Method, ps: Parameters)
    ensures Select(Members, PublicFacts(m, ps, false)) == [] && Select(Members, PrivateFacts(m, ps, false)) == []
  {
    hide Select, SyncSig, RawSig, AsyncRawSig;
    SelectNone(Members, PublicFacts(m, ps, false));
    SelectNone(Members, PrivateFacts(m, ps, false));
  }

  lemma ServicePlains(ms: seq<Method>, ps: Parameters, i: nat)
    ensures |Sigs(Plainly, ServiceMembers(ms, ps))| == 2 + |ms|
    ensures i < |ms| ==> Sigs(Plainly, ServiceMembers(ms, ps))[2 + i] == ServiceSig(ms[i])
  {
    hide RoundsFacts, DeclFacts, ServiceSig, Sigs;
    FixedSigs();
    var ctor, dtor := DeclFacts(ServiceCtor(), map[]), DeclFacts(ServiceDtor(), map[]);
    SigsOne(Plainly, ctor[0]);
    SigsOne(Plainly, dtor[0]);
    SigsConcat(Plainly, ctor, dtor);
    SigsConcat(Plainly, ctor + dtor, EveryFacts(ServiceMethods, ms, ps));
    ServicePlainRounds(ms, ps, |ms|, i);
  }

  lemma {:induction false} ServicePlainRounds(ms: seq<Method>, ps: Parameters, n: nat, i: nat)
    requires n <= |ms|
    ensures |Sigs(Plainly, RoundsFacts(ServiceMethods, ms, ps, n))| == n
    ensures i < n ==> Sigs(Plainly, RoundsFacts(ServiceMethods, ms, ps, n))[i] == ServiceSig(ms[i])
  {
    hide ServiceSig, Sigs, RRefs, RTys;
    if n == 0 {
      SigsNothing();
    } else {
      ServicePlainRounds(ms, ps, n - 1, i);
      ServiceSyncIs(ms[n - 1], ps);
      SigsOne(Plainly, PlainDecl(ServiceSig(ms[n - 1]), ps.allowSyncServerApi));
      SigsConcat(Plainly, RoundsFacts(ServiceMethods, ms, ps, n - 1), RoundFacts(ServiceMethods, ms[n - 1], n - 1, ps));
    }
  }

  lemma SigsNothing()
    ensures Sigs(Plainly, []) == []
  {
  }

  // A function's parameters carry these two message types the way the kind
  // calls for: the request by pointer or as what is read, the response by
  // pointer or as what is written.
  predicate Carries(sig: Sig, k: Kind, types: seq<Ref>) {
    |types| == 2 &&
    match k
    case Unary => sig.params == [T0(ServerContextPtr), T1(ConstPtr, types[0]), T1(Ptr, types[1])]
    case ClientStreaming => sig.params == [T0(ServerContextPtr), T1(ServerReaderPtr, types[0]), T1(Ptr, types[1])]
    case ServerStreaming => sig.params == [T0(ServerContextPtr), T1(ConstPtr, types[0]), T1(ServerWriterPtr, types[1])]
    case BidiStreaming => sig.params == [T0(ServerContextPtr), T2(ServerReaderWriterPtr, types[1], types[0])]
  }

  // The declared member, its initializer and the registration of one method,
  // the function Service declares for it and the functions the source defines.
  predicate WiredUp(member: Fact, init: Fact, registration: Fact, declared: Sig, defined: seq<Placed>, table: seq<Ref>,
      m: Method, i: nat)
  {
    member.Member? && init.Init? && registration.Registered? &&
    init.member == member.member == MemberName(m) && init.table == registration.table == table &&
    init.idx == registration.idx && init.idx.S? && Number(init.idx.s) == i &&
    init.streaming == registration.streaming == S(StreamingType(m.Kind())) && registration.handler == m.Kind() &&
    registration.callee == declared.name == [S(m.name)] &&
    registration.types == [S(m.inputType), S(m.outputType)] && Carries(declared, m.Kind(), registration.types) &&
    Placed(Spelled(registration.service), declared) in defined
  }

  // One of each for every method; `declared` starts with Service's constructor
  // and destructor.
  predicate AllWiredUp(members: seq<Fact>, inits: seq<Fact>, registrations: seq<Fact>, declared: seq<Sig>,
      defined: seq<Placed>, table: seq<Ref>, ms: seq<Method>)
  {
    |members| == |ms| && |inits| == |ms| && |registrations| == |ms| && |declared| == 2 + |ms| &&
    forall i {:trigger inits[i]} :: 0 <= i < |ms| ==>
      WiredUp(members[i], inits[i], registrations[i], declared[2 + i], defined, table, ms[i], i)
  }

  // Whatever else is defined.
  lemma MoreDefined(members: seq<Fact>, inits: seq<Fact>, registrations: seq<Fact>, declared: seq<Sig>,
      defined: seq<Placed>, more: seq<Placed>, table: seq<Ref>, ms: seq<Method>)
    requires AllWiredUp(members, inits, registrations, declared, defined, table, ms)
    requires forall p :: p in defined ==> p in more
    ensures AllWiredUp(members, inits, registrations, declared, more, table, ms)
  {
    hide Number, MemberName, StreamingType, Carries, Spelled;
    forall i {:trigger inits[i]} | 0 <= i < |ms|
      ensures WiredUp(members[i], inits[i], registrations[i], declared[2 + i], more, table, ms[i], i)
    {
      assert WiredUp(members[i], inits[i], registrations[i], declared[2 + i], defined, table, ms[i], i);
    }
  }

  function ServiceScopeOf(svc: Service, ps: Parameters): string { ClassPath(NamespacePath(ps), svc) + "Service::" }

  lemma Wired(member: Fact, init: Fact, registration: Fact, declared: Sig, defined: seq<Placed>, svc: Service,
      ps: Parameters, m: Method, i: nat)
    requires member == Member(MemberName(m)) && InitFits(init, svc, ps, m, i) &&
             RegistrationFits(registration, svc, ps, m, i)
    requires declared == ServiceSig(m) && Placed(ServiceScopeOf(svc, ps), declared) in defined
    ensures WiredUp(member, init, registration, declared, defined, TableRefs(svc, ps), m, i)
  {
    hide Dec, Number, MemberName, TableRefs, StreamingType, Spelled, NamespacePath;
    NumberDec(i);
    ServiceRefsSpelled(svc, ps);
  }

  lemma ServiceRefsSpelled(svc: Service, ps: Parameters)
    ensures Spelled(ServiceRefs(svc, ps)) == ServiceScopeOf(svc, ps)
  {
    hide Spelled, NamespacePath;
    SpelledThree(NamespacePath(ps), svc.name, "::Service::");
    assert NamespacePath(ps) + svc.name + "::Service::" == NamespacePath(ps) + svc.name + "::" + "Service::";
  }

  // The source defines the Service function of every method.
  lemma {:induction false} ServiceSigsHave(ms: seq<Method>, n: nat, i: nat)
    requires i < n <= |ms|
    ensures |ServiceSigsOf(ms, n)| == n && ServiceSigsOf(ms, n)[i] == ServiceSig(ms[i])
  {
    hide ServiceSig;
    if n == 1 {
      assert ServiceSigsOf(ms, 0) == [];
    } else if i < n - 1 {
      ServiceSigsHave(ms, n - 1, i);
    } else {
      ServiceSigsHave(ms, n - 1, 0);
    }
  }

  lemma ServiceIsDefined(svc: Service, pkg: string, ps: Parameters, i: nat)
    requires i < |svc.methods|
    ensures Placed(ServiceScopeOf(svc, ps), ServiceSig(svc.methods[i])) in DefinedIn(Facts(SourceText(svc, pkg, ps)))
  {
    hide DefinedIn, SourceText, SourceServiceFacts, After, ForService, ClassPath, SourceEnv, NamespacePath, ServiceSig,
      ServiceSigsOf, RoundsSigs, StubNeeds;
    var outer, ms := SourceEnv(svc, pkg, ps.servicesNamespace), svc.methods;
    SourceTextRead(svc, pkg, ps);
    SourceEnvNames(svc, pkg, ps);
    SourceDefines(outer, ms, ps, NamespacePath(ps), svc);
    assert [] + SourceServiceFacts(outer, ms, ps) == SourceServiceFacts(outer, ms, ps);
    ServiceSigsHave(ms, |ms|, i);
    var placed := Place(ServiceScopeOf(svc, ps), ServiceSigsOf(ms, |ms|));
    assert placed[i] == Placed(ServiceScopeOf(svc, ps), ServiceSig(ms[i]));
    assert placed[i] in multiset(placed);
    assert placed[i] in multiset(DefinedIn(Facts(SourceText(svc, pkg, ps))));
  }

  lemma TableIs(svc: Service, pkg: string, ps: Parameters)
    ensures var outer := SourceEnv(svc, pkg, ps.servicesNamespace);
      var fs := TableFacts(outer, svc.methods, ps);
      if |svc.methods| == 0 then fs == [] else |fs| == 1 && TableFits(fs[0], svc, pkg, ps)
  {
    hide SourceRoundsFacts, EntryFits;
    EntriesFit(svc, pkg, ps, |svc.methods|);
    var outer := SourceEnv(svc, pkg, ps.servicesNamespace);
    assert RRefs(TableName(), outer) == TableRefs(svc, ps);
  }

  lemma AllWired(svc: Service, pkg: string, ps: Parameters)
    ensures var outer := SourceEnv(svc, pkg, ps.servicesNamespace);
      AllWiredUp(EveryFacts(StubMembers, svc.methods, ps), SourceEveryFacts(StubInits, outer, svc.methods, ps),
                 SourceEveryFacts(AddMethods, outer, svc.methods, ps), Sigs(Plainly, ServiceMembers(svc.methods, ps)),
                 DefinedIn(Facts(SourceText(svc, pkg, ps))), TableRefs(svc, ps), svc.methods)
  {
    hide Sigs, SourceRoundsFacts, RoundsFacts, SourceEnv, WiredUp, ServiceMembers, InitFits, RegistrationFits,
      TableRefs, DefinedIn, SourceText, Facts, ServiceScopeOf;
    var ms, outer := svc.methods, SourceEnv(svc, pkg, ps.servicesNamespace);
    var inits, adds := SourceEveryFacts(StubInits, outer, ms, ps), SourceEveryFacts(AddMethods, outer, ms, ps);
    var data, declared := EveryFacts(StubMembers, ms, ps), Sigs(Plainly, ServiceMembers(ms, ps));
    var defined := DefinedIn(Facts(SourceText(svc, pkg, ps)));
    DataFit(ms, ps, |ms|);
    InitsFit(svc, pkg, ps, |ms|);
    RegistrationsFit(svc, pkg, ps, |ms|);
    ServicePlains(ms, ps, 0);
    forall i {:trigger inits[i]} | 0 <= i < |ms|
      ensures WiredUp(data[i], inits[i], adds[i], declared[2 + i], defined, TableRefs(svc, ps), ms[i], i)
    {
      ServicePlains(ms, ps, i);
      ServiceIsDefined(svc, pkg, ps, i);
      assert InitFits(inits[i], svc, ps, ms[i], i) && RegistrationFits(adds[i], svc, ps, ms[i], i);
      assert data[i] == Member(MemberName(ms[i]));
      Wired(data[i], inits[i], adds[i], declared[2 + i], defined, svc, ps, ms[i], i);
    }
  }

  // For every method number i: the table's entry i is "/package.Service/Method";
  // the stub's member for the method, which the header declares at place i, is
  // bound to entry i; the service registers entry i with the same streaming
  // type and with the handler for the method's kind. The handler decodes the
  // method's request type and encodes its response type, which are those of the
  // parameters of the function it calls: the one that Service declares for the
  // method and the source defines under the class the handler is made for.
  // There is one of each per method, and no table without methods.
  lemma ClientAndServerAgree(svc: Service, pkg: string, ps: Parameters)
    ensures var tables := TablesOf(svc, pkg, ps);
      if |svc.methods| == 0 then tables == [] else |tables| == 1 && TableFits(tables[0], svc, pkg, ps)
    ensures AllWiredUp(Select(Members, StubClassOf(svc, pkg, ps)), InitsOf(svc, pkg, ps), RegistrationsOf(svc, pkg, ps),
                       Sigs(Plainly, ServiceBaseOf(svc, pkg, ps)), DefinedIn(Facts(SourceText(svc, pkg, ps))),
                       TableRefs(svc, ps), svc.methods)
  {
    hide DefinedIn, SourceText, Facts, TablesOf, InitsOf, RegistrationsOf, StubClassOf, ServiceBaseOf, Select, Sigs,
      SourceRoundsFacts, RoundsFacts, SourceEnv, TableFits, AllWiredUp, ServiceMembers, StubMembersFacts, TableFacts,
      TableRefs;
    SourceSelect(svc, pkg, ps);
    StubSelect(svc.methods, ps);
    ClassMembers(svc, pkg, ps);
    TableIs(svc, pkg, ps);
    AllWired(svc, pkg, ps);
  }

  // A table whose paths are built around a service's full name.
  predicate PathsAround(t: Fact, fullName: string, ms: seq<Method>) {
    t.TableOf? && |t.entries| == |ms| &&
    forall i :: 0 <= i < |ms| ==> t.entries[i].Entry? && Spelled(t.entries[i].path) == "/" + fullName + "/" + ms[i].name
  }

  lemma TableAround(t: Fact, svc: Service, pkg: string, ps: Parameters)
    requires TableFits(t, svc, pkg, ps)
    ensures PathsAround(t, pkg + svc.name, svc.methods)
  {
    hide Spelled, TableRefs;
    forall i | 0 <= i < |svc.methods|
      ensures t.entries[i].Entry? && Spelled(t.entries[i].path) == "/" + (pkg + svc.name) + "/" + svc.methods[i].name
    {
      assert EntryFits(t.entries[i], svc, pkg, svc.methods[i]);
      assert "/" + pkg + svc.name + "/" + svc.methods[i].name == "/" + (pkg + svc.name) + "/" + svc.methods[i].name;
    }
  }

  lemma TablesAround(svc: Service, pkg: string, ps: Parameters, t: Fact)
    requires t in TablesOf(svc, pkg, ps)
    ensures PathsAround(t, pkg + svc.name, svc.methods)
  {
    hide TablesOf, TableFacts, TableFits, PathsAround, SourceEnv;
    SourceSelect(svc, pkg, ps);
    TableIs(svc, pkg, ps);
    TableAround(t, svc, pkg, ps);
  }

  // service_full_name() returns what stands between the slashes of every path
  // in the table: the package and the service's name.
  lemma FullNameIsInPaths(svc: Service, pkg: string, ps: Parameters)
    ensures ClassOf(svc, pkg, ps) != [] && ClassOf(svc, pkg, ps)[0].FullName?
    ensures Spelled(ClassOf(svc, pkg, ps)[0].spelled) == pkg + svc.name
    ensures forall t :: t in TablesOf(svc, pkg, ps) ==>
      PathsAround(t, Spelled(ClassOf(svc, pkg, ps)[0].spelled), svc.methods)
  {
    hide ClassOf, ClientSideFacts, ServerSideFacts, Spelled, TablesOf, PathsAround;
    ServiceClassIs(svc, pkg, ps);
    SpelledPair(pkg, svc.name);
    forall t | t in TablesOf(svc, pkg, ps)
      ensures PathsAround(t, pkg + svc.name, svc.methods)
    {
      TablesAround(svc, pkg, ps, t);
    }
  }

  lemma SpelledPair(a: string, b: string)
    ensures Spelled([S(a), S(b)]) == a + b
  {
    assert [S(a), S(b)][..1] == [S(a)] && [S(a)][..0] == [];
    assert Spelled([S(a)]) == a;
  }
}
