// Where the classes of a service's header text are found.
module HeaderClasses {
  import opened Schema
  import opened Emit
  import opened Structure
  import opened HeaderService
  import opened ClientPasses
  import opened ClientFacts
  import opened HeaderFacts
  import opened Signatures
  import opened Queries

  // The header text of a service, printed by itself.
  function HeaderText(svc: Service, pkg: string, ps: Parameters): seq<Item> { HeaderServiceOutput([], 0, svc, pkg, ps) }

  // The members of the service's class, as the reader finds them.
  function ClassOf(svc: Service, pkg: string, ps: Parameters): seq<Fact> {
    In(Facts(HeaderText(svc, pkg, ps)), [S(svc.name)])
  }

  function InterfaceClassOf(svc: Service, pkg: string, ps: Parameters): seq<Fact> {
    In(ClassOf(svc, pkg, ps), [S("StubInterface")])
  }

  function AsyncInterfaceOf(svc: Service, pkg: string, ps: Parameters): seq<Fact> {
    In(InterfaceClassOf(svc, pkg, ps), [S("async_interface")])
  }

  function StubClassOf(svc: Service, pkg: string, ps: Parameters): seq<Fact> { In(ClassOf(svc, pkg, ps), [S("Stub")]) }

  function AsyncStubOf(svc: Service, pkg: string, ps: Parameters): seq<Fact> {
    In(StubClassOf(svc, pkg, ps), [S("async")])
  }

  function ServiceBaseOf(svc: Service, pkg: string, ps: Parameters): seq<Fact> {
    In(ClassOf(svc, pkg, ps), [S("Service")])
  }

  lemma StartIsReady()
    ensures Ready(After([])) && After([]) == Start()
  {
  }

  lemma HeaderTextRead(svc: Service, pkg: string, ps: Parameters)
    ensures After(HeaderText(svc, pkg, ps)) == Plus(Start(), HeaderServiceFacts(svc, pkg, ps))
  {
    hide After, HeaderServiceOutput, HeaderServiceFacts;
    StartIsReady();
    HeaderServiceRead([], 0, svc, pkg, ps);
  }

  lemma ServiceClassIs(svc: Service, pkg: string, ps: Parameters)
    ensures Has(Facts(HeaderText(svc, pkg, ps)), [S(svc.name)])
    ensures ClassOf(svc, pkg, ps) == ServiceFacts(svc, pkg, ps)
  {
    hide After, HeaderText, ServiceFacts, ServiceHeadKind;
    HeaderTextRead(svc, pkg, ps);
    var fs := HeaderServiceFacts(svc, pkg, ps);
    assert [] + fs == fs;
    FindHere(fs[0], [], [S(svc.name)]);
    assert [fs[0]] + [] == fs;
  }

  lemma FirstClass(f: Fact, g: Fact, rest: seq<Fact>)
    requires !f.ClassBody? && g.ClassBody?
    ensures FindClass([f] + ([g] + rest), g.name) == TheClass(g.members)
  {
    FindHere(f, [g] + rest, g.name);
    FindHere(g, rest, g.name);
  }

  // FullName, StubInterface, Stub, NewStub and Service lead a service's class.
  lemma ClassesOf(svc: Service, pkg: string, ps: Parameters)
    ensures var fs := ServiceFacts(svc, pkg, ps);
      FindClass(fs, [S("StubInterface")]) == TheClass(InterfaceMembers(svc.methods, ps)) &&
      FindClass(fs, [S("Stub")]) == TheClass(StubMembersFacts(svc.methods, ps)) &&
      FindClass(fs, [S("Service")]) == TheClass(ServiceMembers(svc.methods, ps))
  {
    hide InterfaceMembers, StubMembersFacts, ServiceMembers, AsyncApiFacts, CallbackApiFacts, RawApiFacts,
      StreamedApiFacts, FindClass;
    var ms := svc.methods;
    var name := FullName([S(pkg), S(svc.name)]);
    var i := ClassBody(PlainClass, [S("StubInterface")], [], InterfaceMembers(ms, ps));
    var s := ClassBody(StubClass, [S("Stub")], [S("StubInterface")], StubMembersFacts(ms, ps));
    var n := DeclFacts(NewStub(), map[])[0];
    var v := ClassBody(ServiceClass, [S("Service")], [S("::grpc::Service")], ServiceMembers(ms, ps));
    var rest := AsyncApiFacts(ms, ps) + CallbackApiFacts(ms, ps) + RawApiFacts(ms, ps) + StreamedApiFacts(ms, ps);
    NewStubIsDeclared(n);
    Regroup(name, i, s, n, v, AsyncApiFacts(ms, ps), CallbackApiFacts(ms, ps), RawApiFacts(ms, ps),
      StreamedApiFacts(ms, ps));
    var r1 := [v] + rest;
    var r2 := [n] + r1;
    var r3 := [s] + r2;
    FirstClass(name, i, r3);
    NamesDiffer();
    FindHere(name, [i] + r3, [S("Stub")]);
    FindHere(i, r3, [S("Stub")]);
    FindHere(s, r2, [S("Stub")]);
    FindHere(name, [i] + r3, [S("Service")]);
    FindHere(i, r3, [S("Service")]);
    FindHere(s, r2, [S("Service")]);
    FindHere(n, r1, [S("Service")]);
    FindHere(v, rest, [S("Service")]);
  }

  lemma NewStubIsDeclared(n: Fact)
    requires n == DeclFacts(NewStub(), map[])[0]
    ensures !n.ClassBody? && DeclFacts(NewStub(), map[]) == [n]
  {
  }

  lemma NamesDiffer()
    ensures [S("StubInterface")] != [S("Stub")] && [S("StubInterface")] != [S("Service")] &&
            [S("Stub")] != [S("Service")]
  {
    assert |"StubInterface"| == 13 && |"Stub"| == 4 && |"Service"| == 7;
    assert [S("StubInterface")][0] != [S("Stub")][0] && [S("StubInterface")][0] != [S("Service")][0];
    assert [S("Stub")][0] != [S("Service")][0];
  }

  lemma Regroup(a: Fact, b: Fact, c: Fact, d: Fact, e: Fact, p: seq<Fact>, q: seq<Fact>, r: seq<Fact>, s: seq<Fact>)
    ensures [a] + ([b] + ([c] + [d])) + ([e] + p + q + r + s) == [a] + ([b] + ([c] + ([d] + ([e] + (p + q + r + s)))))
  {
  }

  // ---- Nested classes ----

  // No scopes and no access labels inside.
  predicate Flat(fs: seq<Fact>) {
    forall f :: f in fs ==> !f.ClassBody? && !f.NamespaceBody? && !f.GuardedText? && !f.Said?
  }

  lemma {:induction false} FlatRounds(pass: Pass, ms: seq<Method>, ps: Parameters, n: nat)
    requires ClientPass(pass) && n <= |ms|
    ensures Flat(RoundsFacts(pass, ms, ps, n))
  {
    hide RoundFacts;
    if n > 0 {
      FlatRounds(pass, ms, ps, n - 1);
      FlatRound(pass, ms[n - 1], n - 1, ps);
    }
  }

  lemma FlatConcat(a: seq<Fact>, b: seq<Fact>)
    requires Flat(a) && Flat(b)
    ensures Flat(a + b)
  {
  }

  lemma FlatPair(m: Method, i: nat, isInterface: bool)
    ensures Flat(WrapperPair(m, isInterface)) && Flat(AsyncWrapperPair(m, i, isInterface))
  {
  }

  lemma FlatPublic(m: Method, ps: Parameters, isInterface: bool)
    ensures Flat(PublicFacts(m, ps, isInterface))
  {
    hide Flat, WrapperPair, AsyncWrapperPair;
    FlatPair(m, 0, isInterface);
    FlatPair(m, 1, isInterface);
    FlatConcat(AsyncWrapperPair(m, 0, isInterface), AsyncWrapperPair(m, 1, isInterface));
    var first := if m.Kind() == Unary then DeclaredAs(isInterface, SyncSig(m)) else WrapperPair(m, isInterface);
    assert Flat(DeclaredAs(isInterface, SyncSig(m))) by { FlatDeclared(isInterface, SyncSig(m)); }
    FlatConcat(first, AsyncWrapperPair(m, 0, isInterface) + AsyncWrapperPair(m, 1, isInterface));
    assert first + [] == first;
  }

  lemma FlatDeclared(isInterface: bool, sig: Sig)
    ensures Flat(DeclaredAs(isInterface, sig)) && Flat([])
  {
  }

  lemma FlatPrivate(m: Method, ps: Parameters, isInterface: bool)
    ensures Flat(PrivateFacts(m, ps, isInterface)) && Flat(CallbackFacts(m, isInterface))
  {
    hide Flat, DeclaredAs, CallbackSig, ReactorSig, RawSig, AsyncRawSig;
    FlatDeclared(isInterface, RawSig(m, isInterface));
    FlatDeclared(isInterface, AsyncRawSig(m, 0, isInterface));
    FlatDeclared(isInterface, AsyncRawSig(m, 1, isInterface));
    FlatDeclared(isInterface, CallbackSig(m));
    FlatDeclared(isInterface, ReactorSig(m));
    var first := if m.Kind() == Unary then [] else DeclaredAs(isInterface, RawSig(m, isInterface));
    var a, b := DeclaredAs(isInterface, AsyncRawSig(m, 0, isInterface)),
      DeclaredAs(isInterface, AsyncRawSig(m, 1, isInterface));
    FlatConcat(a, b);
    FlatConcat(first, a + b);
    FlatConcat(first, []);
    FlatConcat(DeclaredAs(isInterface, CallbackSig(m)), DeclaredAs(isInterface, ReactorSig(m)));
    FlatConcat(DeclaredAs(isInterface, CallbackSig(m)), []);
  }

  lemma FlatRound(pass: Pass, m: Method, i: nat, ps: Parameters)
    requires ClientPass(pass)
    ensures Flat(RoundFacts(pass, m, i, ps))
  {
    hide InterfacePublicFacts, StubPublicFacts, InterfacePrivateFacts, StubPrivateFacts, CallbackInterfaceFacts,
      CallbackStubFacts, PublicFacts, PrivateFacts, CallbackFacts, RRefs;
    PublicPasses(m, ps);
    PrivatePasses(m, ps);
    CallbackPasses(m);
    var isInterface := pass == InterfacePublic || pass == InterfacePrivate || pass == CallbackInterfaces;
    FlatPublic(m, ps, isInterface);
    FlatPrivate(m, ps, isInterface);
  }

  lemma NestedClasses(ms: seq<Method>, ps: Parameters)
    ensures FindClass(InterfaceMembers(ms, ps), [S("async_interface")]) == TheClass(AsyncInterfaceMembers(ms, ps))
    ensures FindClass(StubMembersFacts(ms, ps), [S("async")]) == TheClass(AsyncStubMembers(ms, ps))
  {
    hide RoundsFacts, FindClass, AsyncInterfaceMembers, AsyncStubMembers;
    var a := ClassBody(PlainClass, [S("async_interface")], [], AsyncInterfaceMembers(ms, ps));
    var behindA := Privately() + EveryFacts(InterfacePrivate, ms, ps);
    FlatRounds(InterfacePublic, ms, ps, |ms|);
    FindBehind(EveryFacts(InterfacePublic, ms, ps), [a] + behindA, a.name);
    FindHere(a, behindA, a.name);
    assert InterfaceMembers(ms, ps) == EveryFacts(InterfacePublic, ms, ps) + ([a] + behindA);
    var b := ClassBody(AsyncClass, [S("async")], [], AsyncStubMembers(ms, ps));
    FlatRounds(StubPublic, ms, ps, |ms|);
    StubCtorIsDeclared();
    var before := DeclFacts(StubCtor(), map[]) + EveryFacts(StubPublic, ms, ps);
    var behindB := Privately() + EveryFacts(StubPrivate, ms, ps) + EveryFacts(StubMembers, ms, ps);
    FindBehind(before, [b] + behindB, b.name);
    FindHere(b, behindB, b.name);
    assert StubMembersFacts(ms, ps) == before + ([b] + behindB);
  }

  lemma StubCtorIsDeclared()
    ensures DeclFacts(StubCtor(), map[]) == [PlainDecl(SigOf(Render(StubCtor(), map[])), false)]
  {
  }

  // The classes asked for are there, and hold what their passes print.
  lemma ClassMembers(svc: Service, pkg: string, ps: Parameters)
    ensures InterfaceClassOf(svc, pkg, ps) == InterfaceMembers(svc.methods, ps)
    ensures AsyncInterfaceOf(svc, pkg, ps) == AsyncInterfaceMembers(svc.methods, ps)
    ensures StubClassOf(svc, pkg, ps) == StubMembersFacts(svc.methods, ps)
    ensures AsyncStubOf(svc, pkg, ps) == AsyncStubMembers(svc.methods, ps)
    ensures ServiceBaseOf(svc, pkg, ps) == ServiceMembers(svc.methods, ps)
    ensures Has(ClassOf(svc, pkg, ps), [S("StubInterface")]) && Has(ClassOf(svc, pkg, ps), [S("Stub")])
    ensures Has(InterfaceClassOf(svc, pkg, ps), [S("async_interface")]) && Has(StubClassOf(svc, pkg, ps), [S("async")])
    ensures Has(ClassOf(svc, pkg, ps), [S("Service")])
  {
    hide FindClass, ServiceFacts, InterfaceMembers, StubMembersFacts, ServiceMembers, EveryFacts, HeaderText, Facts,
      AsyncInterfaceMembers, AsyncStubMembers;
    ServiceClassIs(svc, pkg, ps);
    ClassesOf(svc, pkg, ps);
    NestedClasses(svc.methods, ps);
  }
}
