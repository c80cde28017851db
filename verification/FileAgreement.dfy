// The agreements of a service's generated code, in whole files: any number of
// services, in the namespaces of the package and of the options.
module FileAgreement {
  import opened Schema
  import opened Emit
  import opened Structure
  import opened HeaderFacts
  import opened SourceTemplates
  import opened SourceFacts
  import opened MockFacts
  import opened Queries
  import opened HeaderService
  import opened HeaderClasses
  import opened HeaderDeclarations
  import opened MixinLists
  import opened ClientAgreement
  import opened MockAgreement
  import opened DefinitionAgreement
  import opened TableAgreement
  import opened ServerAgreement
  import opened MixinFamilies
  import opened TypedefAgreement
  import opened Outputs
  import opened FileStructure
  import FileDefinitions

  // ---- What stands inside the namespaces and guards of a text ----

  function Inside(fs: seq<Fact>): seq<Fact>
    decreases fs
  {
    if fs == [] then [] else Inside(fs[..|fs| - 1]) + InsideOf(fs[|fs| - 1])
  }

  function InsideOf(f: Fact): seq<Fact>
    decreases f
  {
    match f
    case NamespaceBody(_, members) => Inside(members)
    case GuardedText(_, members) => Inside(members)
    case _ => [f]
  }

  lemma InsideOne(f: Fact)
    ensures Inside([f]) == InsideOf(f) && Inside([]) == []
  {
    hide InsideOf;
    assert [f][..0] == [];
  }

  lemma InsideSnoc(fs: seq<Fact>, f: Fact)
    ensures Inside(fs + [f]) == Inside(fs) + InsideOf(f)
  {
    hide InsideOf;
    assert (fs + [f])[..|fs|] == fs;
  }

  lemma {:induction false} InsideAll(fs: seq<Fact>)
    requires FileDefinitions.NoScopes(fs)
    ensures Inside(fs) == fs
  {
    if fs != [] {
      var f := fs[|fs| - 1];
      assert f in fs && fs == fs[..|fs| - 1] + [f];
      InsideAll(fs[..|fs| - 1]);
    }
  }

  lemma {:induction false} InsideWrapped(parts: seq<string>, fs: seq<Fact>)
    ensures Inside(Wrapped(parts, fs)) == Inside(fs)
  {
    hide Inside;
    if parts != [] {
      var last := NamespaceBody(S(parts[|parts| - 1]), fs);
      InsideWrapped(parts[..|parts| - 1], [last]);
      InsideOne(last);
    }
  }

  lemma {:induction false} InsideWrappedFrom(parts: seq<string>, n: nat, fs: seq<Fact>)
    requires n <= |parts|
    ensures Inside(WrappedFrom(parts, n, fs)) == Inside(fs)
  {
    hide Inside;
    if n > 0 {
      InsideWrappedFrom(parts, n - 1, fs);
      InsideOne(WrappedFrom(parts, n, fs)[0]);
    }
  }

  lemma InsideNamed(ps: Parameters, fs: seq<Fact>)
    ensures Inside(Named(ps, fs)) == Inside(fs)
  {
    hide Inside;
    InsideOne(NamespaceBody(S(ps.servicesNamespace), fs));
  }

  lemma {:induction false} InsideConcat(a: seq<Fact>, b: seq<Fact>)
    ensures Inside(a + b) == Inside(a) + Inside(b)
  {
    if b == [] {
      assert a + b == a;
    } else {
      hide Inside, InsideOf;
      var c, f := b[..|b| - 1], b[|b| - 1];
      InsideConcat(a, c);
      InsideSnoc(c, f);
      InsideSnoc(a + c, f);
      LastOff(a, b);
      Regrouped(Inside(a), Inside(c), InsideOf(f));
    }
  }

  // Classes in the namespaces of a file, behind includes.
  lemma InsideBehind(includes: seq<Fact>, f: File, ps: Parameters, cs: seq<Fact>)
    requires Inside(includes) == includes && FileDefinitions.NoScopes(cs)
    ensures Inside(includes + Wrapped(NamespaceParts(f), Named(ps, cs))) == includes + cs
  {
    hide Inside, Wrapped, Named, NamespaceParts;
    InsideConcat(includes, Wrapped(NamespaceParts(f), Named(ps, cs)));
    InsideWrapped(NamespaceParts(f), Named(ps, cs));
    InsideNamed(ps, cs);
    InsideAll(cs);
  }

  lemma IncludesInside(f: File, ps: Parameters)
    ensures Inside([IncludedMessages(f, ps)]) == [IncludedMessages(f, ps)]
    ensures Inside(OwnHeaders(f, ps)) == OwnHeaders(f, ps)
  {
    InsideOne(IncludedMessages(f, ps));
    InsideAll(OwnHeaders(f, ps));
  }

  // ---- The header ----

  // The classes a header declares, one behind the other, behind the include of
  // the messages.
  function ServiceClasses(f: File, ps: Parameters): seq<Fact> {
    var fs := Inside(Facts(HeaderFile(f, ps)));
    if fs == [] then [] else fs[1..]
  }

  // Final, marked as deprecated if the option allows it and the service is, and
  // with the members of the service printed by itself.
  predicate IsServiceClass(c: Fact, svc: Service, pkg: string, ps: Parameters) {
    c.ClassBody? && c.name == [S(svc.name)] && c.base == [] && c.members == ClassOf(svc, pkg, ps) &&
    c.head == if ps.allowDeprecated && svc.deprecated then DeprecatedFinalClass else FinalClass
  }

  lemma OneServiceClass(svc: Service, pkg: string, ps: Parameters)
    ensures var fs := HeaderServiceFacts(svc, pkg, ps);
      |fs| == 1 && IsServiceClass(fs[0], svc, pkg, ps) && FileDefinitions.NoScopes(fs)
  {
    hide ServiceFacts, ClassOf;
    ServiceClassIs(svc, pkg, ps);
  }

  lemma {:induction false} ServicesAreClasses(f: File, ps: Parameters, n: nat)
    requires n <= |f.services|
    ensures var cs := HeaderServicesFacts(f, ps, n);
      |cs| == n && FileDefinitions.NoScopes(cs) &&
      forall i {:trigger cs[i]} :: 0 <= i < n ==> IsServiceClass(cs[i], f.services[i], PackagePrefix(f), ps)
  {
    hide HeaderServiceFacts, IsServiceClass, PackagePrefix;
    if n > 0 {
      ServicesAreClasses(f, ps, n - 1);
      OneServiceClass(f.services[n - 1], PackagePrefix(f), ps);
    }
  }

  // The header holds one class for each service, in order, and the members of
  // each are those of the service printed by itself.
  lemma ServiceClassesAre(f: File, ps: Parameters)
    ensures var cs := ServiceClasses(f, ps);
      |cs| == |f.services| &&
      forall i {:trigger cs[i]} :: 0 <= i < |cs| ==> IsServiceClass(cs[i], f.services[i], PackagePrefix(f), ps)
  {
    hide After, HeaderFile, HeaderServicesFacts, IsServiceClass, Wrapped, Named, NamespaceParts, GuardRefs, Inside,
      IncludedMessages;
    HeaderFileRead(f, ps);
    var cs := HeaderServicesFacts(f, ps, |f.services|);
    ServicesAreClasses(f, ps, |f.services|);
    InsideOne(GuardedText(GuardRefs("GRPC_", f), HeaderInner(f, ps)));
    IncludesInside(f, ps);
    InsideBehind([IncludedMessages(f, ps)], f, ps, cs);
    assert ([IncludedMessages(f, ps)] + cs)[1..] == cs;
  }

  // ---- The mock ----

  // The classes a mock declares, behind the includes of the two headers.
  function MockClasses(f: File, ps: Parameters): seq<Fact> {
    var fs := Inside(Facts(MockFile(f, ps)));
    if |fs| < 2 then [] else fs[2..]
  }

  predicate IsMockClass(c: Fact, svc: Service, ps: Parameters) {
    c == ClassBody(MockClass, [S("Mock"), S(svc.name), S("Stub")], [S(svc.name), S("::StubInterface")],
                   MockClassOf(svc, ps))
  }

  lemma OneMockClass(svc: Service, ps: Parameters)
    ensures var fs := MockServiceFacts(svc, ps);
      |fs| == 1 && IsMockClass(fs[0], svc, ps) && FileDefinitions.NoScopes(fs)
  {
    hide MockRoundsFacts, MockClassOf;
    MockClassIs(svc, ps);
  }

  lemma {:induction false} MocksAreClasses(f: File, ps: Parameters, n: nat)
    requires n <= |f.services|
    ensures var cs := MockServicesFacts(f, ps, n);
      |cs| == n && FileDefinitions.NoScopes(cs) &&
      forall i {:trigger cs[i]} :: 0 <= i < n ==> IsMockClass(cs[i], f.services[i], ps)
  {
    hide MockServiceFacts, IsMockClass;
    if n > 0 {
      MocksAreClasses(f, ps, n - 1);
      OneMockClass(f.services[n - 1], ps);
    }
  }

  lemma TwoHeaders(f: File, ps: Parameters)
    ensures |OwnHeaders(f, ps)| == 2
  {
  }

  lemma MockClassesAre(f: File, ps: Parameters)
    ensures var cs := MockClasses(f, ps);
      |cs| == |f.services| && forall i {:trigger cs[i]} :: 0 <= i < |cs| ==> IsMockClass(cs[i], f.services[i], ps)
  {
    hide After, MockFile, MockServicesFacts, IsMockClass, Wrapped, Named, NamespaceParts, GuardRefs, Inside,
      OwnHeaders;
    MockFileRead(f, ps);
    var cs := MockServicesFacts(f, ps, |f.services|);
    MocksAreClasses(f, ps, |f.services|);
    InsideOne(GuardedText(GuardRefs("GRPC_MOCK_", f), MockInner(f, ps)));
    IncludesInside(f, ps);
    InsideBehind(OwnHeaders(f, ps), f, ps, cs);
    assert |OwnHeaders(f, ps)| == 2 by { TwoHeaders(f, ps); }
    assert (OwnHeaders(f, ps) + cs)[2..] == cs;
  }

  // ---- Client, mock and server classes of whole files ----

  // Stub against StubInterface, Stub::async against async_interface, and each
  // wrapper against its private counterpart.
  predicate ClientAgrees(service: seq<Fact>) {
    var stub, pure := In(service, [S("Stub")]), In(service, [S("StubInterface")]);
    AllImplemented(Sigs(Overriding, stub)) == Sigs(Purely, pure) &&
    Sigs(Overriding, In(stub, [S("async")])) == Sigs(Purely, In(pure, [S("async_interface")])) &&
    WrappersAgree(pure, Purely) && WrappersAgree(stub, Overriding)
  }

  predicate WrappersAgree(fs: seq<Fact>, role: Role) {
    AllRawed(Sigs(Inlined, fs)) == Raws(Sigs(role, fs)) && Made(fs) == AllMeant(Sigs(Inlined, fs))
  }

  // The members of class i.
  function MembersAt(cs: seq<Fact>, i: nat): seq<Fact> { if i < |cs| && cs[i].ClassBody? then cs[i].members else [] }

  lemma OneClientAgrees(svc: Service, pkg: string, ps: Parameters)
    ensures ClientAgrees(ClassOf(svc, pkg, ps))
  {
    hide ClassOf, Sigs, AllImplemented, AllRawed, Raws, Made, AllMeant, In;
    StubImplementsInterface(svc, pkg, ps);
    WrappersMatchPrivates(svc, pkg, ps);
  }

  predicate MockAgreesWith(mock: seq<Fact>, service: seq<Fact>) {
    AllCountRight(mock) && multiset(Sigs(Mocking, mock)) == multiset(Sigs(Purely, In(service, [S("StubInterface")])))
  }

  lemma OneMockAgrees(svc: Service, pkg: string, ps: Parameters)
    ensures MockAgreesWith(MockClassOf(svc, ps), ClassOf(svc, pkg, ps))
  {
    hide ClassOf, MockClassOf, Sigs, AllCountRight, In;
    MockMocksInterface(svc, pkg, ps);
  }

  // The mixins of every family in order, and the typedefs that nest them.
  ghost predicate MixinsAgree(service: seq<Fact>, ms: seq<Method>, ps: Parameters) {
    (forall pass :: MixinPass(pass) ==>
      if Generated(pass, ps) then FitInOrder(Mixins(service, pass), Matching(pass, ms, |ms|), pass, ms, ps)
      else Mixins(service, pass) == []) &&
    (forall c, f :: c in service && c.ClassBody? && c.head == MixinClass && f in c.members && f.InlineOverrideDecl? ==>
      PlainDecl(f.sig, true) in In(service, [S("Service")]))
  }

  lemma OneServiceMixes(svc: Service, pkg: string, ps: Parameters)
    ensures MixinsAgree(ClassOf(svc, pkg, ps), svc.methods, ps)
  {
    hide ClassOf, In, Mixins, Matching, FitInOrder, Generated, MixinPass;
    var service := ClassOf(svc, pkg, ps);
    forall pass | MixinPass(pass)
      ensures if Generated(pass, ps)
              then FitInOrder(Mixins(service, pass), Matching(pass, svc.methods, |svc.methods|), pass, svc.methods, ps)
              else Mixins(service, pass) == []
    {
      MixinsFitInOrder(svc, pkg, ps, pass);
    }
    forall c, f | c in service && c.ClassBody? && c.head == MixinClass && f in c.members && f.InlineOverrideDecl?
      ensures PlainDecl(f.sig, true) in In(service, [S("Service")])
    {
      MixinsOverrideVirtuals(svc, pkg, ps, c, f);
    }
  }

  predicate TypedefsAgree(service: seq<Fact>, ms: seq<Method>, ps: Parameters) {
    Select(Aliases, service) ==
      (if ps.allowCqApi then [Alias("AsyncService", Nest(MixinNames(service, AsyncMixins)))] else []) +
      [Alias("CallbackService", Nest(MixinNames(service, CallbackMixins)))] +
      (if ps.allowSyncServerApi then
         [Alias("StreamedUnaryService", Nest(MixinNames(service, StreamedUnaryMixins)))] +
         [Alias("SplitStreamedService", Nest(MixinNames(service, SplitMixins)))] +
         [Alias("StreamedService", Nest(StreamedNames(ms, |ms|)))]
       else [])
  }

  lemma OneServiceNests(svc: Service, pkg: string, ps: Parameters)
    ensures TypedefsAgree(ClassOf(svc, pkg, ps), svc.methods, ps)
  {
    hide ClassOf, MixinNames, Nest, StreamedNames, Select;
    TypedefsNestDeclaredMixins(svc, pkg, ps);
  }

  // In the header and the mock of any .proto file, every service's classes
  // agree: the stub implements the interface, the mock mocks it, the mixins are
  // member for member those of the service's own methods, and the typedefs nest
  // them.
  lemma FilesAgree(f: File, ps: Parameters, i: nat)
    requires i < |f.services|
    ensures |ServiceClasses(f, ps)| == |MockClasses(f, ps)| == |f.services|
    ensures var service, mock := MembersAt(ServiceClasses(f, ps), i), MembersAt(MockClasses(f, ps), i);
      var ms := f.services[i].methods;
      ClientAgrees(service) && MockAgreesWith(mock, service) && MixinsAgree(service, ms, ps) &&
        TypedefsAgree(service, ms, ps)
  {
    hide ServiceClasses, MockClasses, ClassOf, MockClassOf, ClientAgrees, MockAgreesWith, MixinsAgree, TypedefsAgree;
    ServiceClassesAre(f, ps);
    MockClassesAre(f, ps);
    var svc, pkg := f.services[i], PackagePrefix(f);
    assert IsServiceClass(ServiceClasses(f, ps)[i], svc, pkg, ps) && IsMockClass(MockClasses(f, ps)[i], svc, ps);
    OneClientAgrees(svc, pkg, ps);
    OneMockAgrees(svc, pkg, ps);
    OneServiceMixes(svc, pkg, ps);
    OneServiceNests(svc, pkg, ps);
  }

  // ---- The tables of whole files ----

  function SourceFactsOf(f: File, ps: Parameters): seq<Fact> { Inside(Facts(SourceOfFile(f, ps))) }

  lemma {:induction false} SourceServicesHaveNoScopes(f: File, ps: Parameters, n: nat)
    requires n <= |f.services|
    ensures FileDefinitions.NoScopes(SourceServicesFacts(f, ps, n))
  {
    hide SourceServiceFacts, SourceEnv;
    if n > 0 {
      SourceServicesHaveNoScopes(f, ps, n - 1);
      FileDefinitions.SourceHasNoScopes(f.services[n - 1], PackagePrefix(f), ps);
    }
  }

  lemma SourceFactsAre(f: File, ps: Parameters)
    ensures SourceFactsOf(f, ps) == OwnHeaders(f, ps) + SourceServicesFacts(f, ps, |f.services|)
  {
    hide After, SourceOfFile, SourceServicesFacts, WrappedFrom, MirroredUpTo, OwnHeaders, PackageParts, Inside,
      FileDefinitions.NoScopes;
    SourceFileRead(f, ps);
    var fs := SourceServicesFacts(f, ps, |f.services|);
    SourceServicesHaveNoScopes(f, ps, |f.services|);
    InsideAll(fs);
    IncludesInside(f, ps);
    if f.package == "" {
      InsideConcat(OwnHeaders(f, ps), fs);
    } else {
      var parts := PackageParts(f);
      InsideConcat(OwnHeaders(f, ps), WrappedFrom(parts, |parts|, fs));
      InsideWrappedFrom(parts, |parts|, fs);
    }
  }

  // One sort of facts of the first n services, each printed by itself.
  function SelectedUpTo(sort: Sort, f: File, ps: Parameters, n: nat): seq<Fact>
    requires n <= |f.services|
  {
    if n == 0 then []
    else SelectedUpTo(sort, f, ps, n - 1) + Select(sort, Facts(SourceText(f.services[n - 1], PackagePrefix(f), ps)))
  }

  lemma SourceTextFacts(svc: Service, pkg: string, ps: Parameters)
    ensures Facts(SourceText(svc, pkg, ps)) ==
            SourceServiceFacts(SourceEnv(svc, pkg, ps.servicesNamespace), svc.methods, ps)
  {
    hide After, SourceText, SourceServiceFacts, SourceEnv;
    SourceTextRead(svc, pkg, ps);
    var all := SourceServiceFacts(SourceEnv(svc, pkg, ps.servicesNamespace), svc.methods, ps);
    assert [] + all == all;
  }

  lemma {:induction false} SelectedServices(sort: Sort, f: File, ps: Parameters, n: nat)
    requires n <= |f.services|
    ensures Select(sort, SourceServicesFacts(f, ps, n)) == SelectedUpTo(sort, f, ps, n)
  {
    hide SourceServiceFacts, SourceEnv, SourceText, Facts, Is;
    if n > 0 {
      SelectedServices(sort, f, ps, n - 1);
      var svc, pkg := f.services[n - 1], PackagePrefix(f);
      SourceTextFacts(svc, pkg, ps);
      SelectConcat(sort, SourceServicesFacts(f, ps, n - 1),
                   SourceServiceFacts(SourceEnv(svc, pkg, ps.servicesNamespace), svc.methods, ps));
    }
  }

  lemma OwnHeadersSelect(sort: Sort, f: File, ps: Parameters)
    ensures Select(sort, OwnHeaders(f, ps)) == []
  {
    SelectConcat(sort, [IncludedMessages(f, ps)], [IncludedService(f)]);
    SelectOne(sort, IncludedMessages(f, ps));
    SelectOne(sort, IncludedService(f));
    assert OwnHeaders(f, ps) == [IncludedMessages(f, ps)] + [IncludedService(f)];
  }

  // The tables, initializers and registrations of a whole source are those of
  // its services, one behind the other.
  lemma SourceSelected(sort: Sort, f: File, ps: Parameters)
    ensures Select(sort, SourceFactsOf(f, ps)) == SelectedUpTo(sort, f, ps, |f.services|)
  {
    hide SourceFactsOf, SourceServicesFacts, SelectedUpTo, Select, OwnHeaders;
    SourceFactsAre(f, ps);
    var fs := SourceServicesFacts(f, ps, |f.services|);
    SelectConcat(sort, OwnHeaders(f, ps), fs);
    OwnHeadersSelect(sort, f, ps);
    SelectedServices(sort, f, ps, |f.services|);
    assert [] + Select(sort, fs) == Select(sort, fs);
  }

  // The number of methods of the first n services.
  function MethodsBefore(f: File, n: nat): nat
    requires n <= |f.services|
  {
    if n == 0 then 0 else MethodsBefore(f, n - 1) + |f.services[n - 1].methods|
  }

  lemma OneLength(svc: Service, pkg: string, ps: Parameters)
    ensures |InitsOf(svc, pkg, ps)| == |RegistrationsOf(svc, pkg, ps)| == |svc.methods|
  {
    hide InitsOf, RegistrationsOf, StubClassOf, ServiceBaseOf, TablesOf, Sigs, Select, WiredUp, TableRefs;
    ClientAndServerAgree(svc, pkg, ps);
  }

  lemma {:induction false} SelectedPlaces(sort: Sort, f: File, ps: Parameters, n: nat, i: nat)
    requires sort in {Inits, Registrations} && i <= n <= |f.services|
    ensures |SelectedUpTo(sort, f, ps, n)| == MethodsBefore(f, n)
    ensures i < n ==> MethodsBefore(f, i + 1) <= MethodsBefore(f, n)
    ensures i < n ==> SelectedUpTo(sort, f, ps, n)[MethodsBefore(f, i)..MethodsBefore(f, i + 1)] ==
                      Select(sort, Facts(SourceText(f.services[i], PackagePrefix(f), ps)))
  {
    hide Select, SourceText, Facts;
    if n > 0 {
      OneLength(f.services[n - 1], PackagePrefix(f), ps);
      SelectedPlaces(sort, f, ps, n - 1, if i < n then i else n - 1);
    }
  }

  // The number of tables of the first n services: those without methods have
  // none.
  function TablesBefore(f: File, n: nat): nat
    requires n <= |f.services|
  {
    if n == 0 then 0 else TablesBefore(f, n - 1) + if f.services[n - 1].methods == [] then 0 else 1
  }

  lemma OneTable(svc: Service, pkg: string, ps: Parameters)
    ensures var tables := TablesOf(svc, pkg, ps);
      |tables| == (if svc.methods == [] then 0 else 1) && (svc.methods != [] ==> TableFits(tables[0], svc, pkg, ps))
  {
    hide TablesOf, InitsOf, RegistrationsOf, StubClassOf, ServiceBaseOf, Sigs, Select, AllWiredUp, TableRefs, TableFits;
    ClientAndServerAgree(svc, pkg, ps);
  }

  lemma NothingSelected(f: File, ps: Parameters)
    ensures SelectedUpTo(Tables, f, ps, 0) == []
  {
  }

  lemma TablesStep(f: File, ps: Parameters, n: nat)
    requires n < |f.services|
    ensures SelectedUpTo(Tables, f, ps, n + 1) ==
            SelectedUpTo(Tables, f, ps, n) + TablesOf(f.services[n], PackagePrefix(f), ps)
  {
    hide Select, SourceText, Facts;
  }

  lemma {:induction false} TablePlaces(f: File, ps: Parameters, n: nat, i: nat)
    requires i < |f.services| && n <= |f.services|
    ensures |SelectedUpTo(Tables, f, ps, n)| == TablesBefore(f, n)
    ensures i < n && f.services[i].methods != [] ==>
            TablesBefore(f, i) < TablesBefore(f, n) &&
            TableFits(SelectedUpTo(Tables, f, ps, n)[TablesBefore(f, i)], f.services[i], PackagePrefix(f), ps)
  {
    hide TablesOf, TableFits, SelectedUpTo, PackagePrefix;
    if n == 0 {
      NothingSelected(f, ps);
    } else {
      TablePlaces(f, ps, n - 1, i);
      OneTable(f.services[n - 1], PackagePrefix(f), ps);
      TablesStep(f, ps, n - 1);
    }
  }

  // What of a whole source belongs to service i.
  predicate TablesAgree(f: File, ps: Parameters, i: nat, service: seq<Fact>, tables: seq<Fact>, inits: seq<Fact>,
      registrations: seq<Fact>, defined: seq<Placed>)
    requires i < |f.services|
  {
    var svc, from, to := f.services[i], MethodsBefore(f, i), MethodsBefore(f, i + 1);
    to <= |inits| && to <= |registrations| &&
    (svc.methods != [] ==>
      TablesBefore(f, i) < |tables| &&
      TableFits(tables[TablesBefore(f, i)], svc, if f.package == "" then "" else f.package + ".", ps)) &&
    AllWiredUp(Select(Members, In(service, [S("Stub")])), inits[from..to], registrations[from..to],
               Sigs(Plainly, In(service, [S("Service")])), defined, TableRefs(svc, ps), svc.methods)
  }

  // In the source and the header of any .proto file: the tables, initializers
  // and registrations stand service by service, and those of each service are
  // wired up with each other, with its classes in the header and with the
  // functions the source defines, index by index.
  lemma FileTablesAgree(f: File, ps: Parameters, i: nat)
    requires i < |f.services|
    ensures var source := SourceFactsOf(f, ps);
      |Select(Inits, source)| == |Select(Registrations, source)| == MethodsBefore(f, |f.services|) &&
      |Select(Tables, source)| == TablesBefore(f, |f.services|) &&
      TablesAgree(f, ps, i, MembersAt(ServiceClasses(f, ps), i), Select(Tables, source), Select(Inits, source),
        Select(Registrations, source), DefinedIn(source))
  {
    hide ServiceClasses, SourceFactsOf, ClassOf, Select, TableFits, AllWiredUp, SourceText, Facts, SelectedUpTo,
      MethodsBefore, TablesBefore, In, Sigs, TableRefs, DefinedIn;
    var svc, pkg := f.services[i], PackagePrefix(f);
    ServiceClassesAre(f, ps);
    assert IsServiceClass(ServiceClasses(f, ps)[i], svc, pkg, ps);
    SourceSelected(Tables, f, ps);
    SourceSelected(Inits, f, ps);
    SourceSelected(Registrations, f, ps);
    SelectedPlaces(Inits, f, ps, |f.services|, i);
    SelectedPlaces(Registrations, f, ps, |f.services|, i);
    ClientAndServerAgree(svc, pkg, ps);
    TablePlaces(f, ps, |f.services|, i);
    FileDefines(f, ps, i);
    MoreDefined(Select(Members, StubClassOf(svc, pkg, ps)), InitsOf(svc, pkg, ps), RegistrationsOf(svc, pkg, ps),
      Sigs(Plainly, ServiceBaseOf(svc, pkg, ps)), DefinedIn(Facts(SourceText(svc, pkg, ps))),
      DefinedIn(SourceFactsOf(f, ps)), TableRefs(svc, ps), svc.methods);
  }

  lemma {:induction false} ServicesDefine(f: File, ps: Parameters, n: nat, i: nat)
    requires i < n <= |f.services|
    ensures forall p :: p in DefinedIn(Facts(SourceText(f.services[i], PackagePrefix(f), ps))) ==>
      p in DefinedIn(SourceServicesFacts(f, ps, n))
  {
    hide DefinedIn, SourceText, Facts, SourceServiceFacts, SourceEnv;
    var svc, pkg := f.services[n - 1], PackagePrefix(f);
    SourceTextFacts(svc, pkg, ps);
    DefinedConcat(SourceServicesFacts(f, ps, n - 1), Facts(SourceText(svc, pkg, ps)));
    if i < n - 1 {
      ServicesDefine(f, ps, n - 1, i);
    }
  }

  // What a service defines by itself, its file defines.
  lemma FileDefines(f: File, ps: Parameters, i: nat)
    requires i < |f.services|
    ensures forall p :: p in DefinedIn(Facts(SourceText(f.services[i], PackagePrefix(f), ps))) ==>
      p in DefinedIn(SourceFactsOf(f, ps))
  {
    hide DefinedIn, SourceText, Facts, SourceFactsOf, SourceServicesFacts, OwnHeaders;
    SourceFactsAre(f, ps);
    ServicesDefine(f, ps, |f.services|, i);
    DefinedConcat(OwnHeaders(f, ps), SourceServicesFacts(f, ps, |f.services|));
  }
}
