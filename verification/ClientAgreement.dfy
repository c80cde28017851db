// The client half of the generated code agrees with itself: what StubInterface
// declares is what Stub overrides and what the mock mocks, and every inline
// wrapper forwards to its own private counterpart.
module ClientAgreement {
  import opened Schema
  import opened Emit
  import opened Structure
  import opened HeaderService
  import opened ClientFacts
  import opened HeaderFacts
  import opened Signatures
  import opened Queries
  import opened ClientPasses
  import opened HeaderClasses

  // ---- Comparing signatures ----

  // ::grpc::ClientX< ... > as the interface type it implements.
  function AsInterface(t: Ty): Ty {
    match t
    case T0(_) => t
    case T1(c, a) => if c.Client? then T1(c.(isInterface := true), a) else t
    case T2(c, a, b) => if c.Client? then T2(c.(isInterface := true), a, b) else t
  }

  function Implemented(s: Sig): Sig { s.(ret := AsInterface(s.ret)) }

  function AllImplemented(ss: seq<Sig>): seq<Sig> { seq(|ss|, i requires 0 <= i < |ss| => Implemented(ss[i])) }

  lemma AllImplementedConcat(a: seq<Sig>, b: seq<Sig>)
    ensures AllImplemented(a + b) == AllImplemented(a) + AllImplemented(b)
  {
  }

  // std::unique_ptr< X> as X*
  function Released(t: Ty): Ty {
    match t
    case T0(_) => t
    case T1(c, a) => if c.Client? then T1(c.(unique := false), a) else t
    case T2(c, a, b) => if c.Client? then T2(c.(unique := false), a, b) else t
  }

  // The private counterpart a wrapper is written for: MethodRaw, with the same
  // parameters.
  function Rawed(s: Sig): Sig { Sig(Released(s.ret), s.name + [S("Raw")], s.params, s.extra) }

  function AllRawed(ss: seq<Sig>): seq<Sig> { seq(|ss|, i requires 0 <= i < |ss| => Rawed(ss[i])) }

  lemma AllRawedConcat(a: seq<Sig>, b: seq<Sig>)
    ensures AllRawed(a + b) == AllRawed(a) + AllRawed(b)
  {
  }

  predicate IsRaw(s: Sig) { |s.name| >= 2 && s.name[|s.name| - 1] == S("Raw") }

  function Raws(ss: seq<Sig>): seq<Sig> {
    if ss == [] then [] else Raws(ss[..|ss| - 1]) + if IsRaw(ss[|ss| - 1]) then [ss[|ss| - 1]] else []
  }

  lemma RawsSnoc(fs: seq<Sig>, f: Sig)
    ensures Raws(fs + [f]) == Raws(fs) + (if IsRaw(f) then [f] else [])
  {
    hide IsRaw;
    assert (fs + [f])[..|fs|] == fs;
  }

  lemma {:induction false} RawsConcat(a: seq<Sig>, b: seq<Sig>)
    ensures Raws(a + b) == Raws(a) + Raws(b)
  {
    if b == [] {
      assert a + b == a;
    } else {
      hide Raws, IsRaw;
      var c, f := b[..|b| - 1], b[|b| - 1];
      RawsConcat(a, c);
      RawsSnoc(c, f);
      RawsSnoc(a + c, f);
      LastOff(a, b);
      Regrouped(Raws(a), Raws(c), if IsRaw(f) then [f] else []);
    }
  }

  // Commas in the text behind the last parameter or argument.
  function Commas(s: string): nat { if s == "" then 0 else Commas(s[1..]) + if s[0] == ',' then 1 else 0 }

  function Arity(s: Sig): nat { |s.params| + Commas(Spelled(s.extra)) }

  // ---- Rounds of two passes, side by side ----

  lemma DirectsAreImplemented(m: Method)
    ensures AllImplemented(DirectSigs(m)) == DirectSigs(m)
  {
  }

  lemma RawsAreImplemented(m: Method, ps: Parameters)
    ensures AllImplemented(RawSigs(m, ps, false)) == RawSigs(m, ps, true)
  {
    hide Prefix;
    var first := if m.Kind() == Unary then [] else [RawSig(m, false)];
    AllImplementedConcat(first, if ps.allowCqApi then [AsyncRawSig(m, 0, false)] + [AsyncRawSig(m, 1, false)] else []);
  }

  lemma {:induction false} RoundsAreImplemented(ms: seq<Method>, ps: Parameters, n: nat)
    requires n <= |ms|
    ensures AllImplemented(RoundsSigs(StubPublic, Overriding, ms, ps, n)) ==
            RoundsSigs(InterfacePublic, Purely, ms, ps, n)
    ensures AllImplemented(RoundsSigs(StubPrivate, Overriding, ms, ps, n)) ==
            RoundsSigs(InterfacePrivate, Purely, ms, ps, n)
    ensures RoundsSigs(Callbacks, Overriding, ms, ps, n) == RoundsSigs(CallbackInterfaces, Purely, ms, ps, n)
  {
    hide AllImplemented, DirectSigs, RawSigs, CallbackSigsOf;
    if n == 0 {
      assert AllImplemented([]) == [] by { DirectsOfNothing(); }
    } else {
      RoundsAreImplemented(ms, ps, n - 1);
      DirectsAreImplemented(ms[n - 1]);
      RawsAreImplemented(ms[n - 1], ps);
      AllImplementedConcat(RoundsSigs(StubPublic, Overriding, ms, ps, n - 1), DirectSigs(ms[n - 1]));
      AllImplementedConcat(RoundsSigs(StubPrivate, Overriding, ms, ps, n - 1), RawSigs(ms[n - 1], ps, false));
    }
  }

  lemma DirectsOfNothing()
    ensures AllImplemented([]) == [] && AllRawed([]) == [] && Raws([]) == []
  {
  }

  // What the two classes declare in a role, found pass by pass.
  lemma InterfaceRole(role: Role, ms: seq<Method>, ps: Parameters)
    ensures Sigs(role, InterfaceMembers(ms, ps)) ==
            RoundsSigs(InterfacePublic, role, ms, ps, |ms|) + RoundsSigs(InterfacePrivate, role, ms, ps, |ms|)
  {
    hide RoundsFacts, RoundsSigs, SigIn, Sigs, AsyncInterfaceMembers;
    var pub, nested := EveryFacts(InterfacePublic, ms, ps),
      Closed(AsyncInterfaceScope(), AsyncInterfaceMembers(ms, ps));
    RoundsSigsFound(InterfacePublic, role, ms, ps, |ms|);
    RoundsSigsFound(InterfacePrivate, role, ms, ps, |ms|);
    SigsConcat(role, pub, nested);
    SigsConcat(role, pub + nested, Privately());
    SigsConcat(role, pub + nested + Privately(), EveryFacts(InterfacePrivate, ms, ps));
    HasNoSigs(role, nested[0]);
    HasNoSigs(role, Privately()[0]);
    assert nested == [nested[0]];
  }

  lemma HasNoSigs(role: Role, f: Fact)
    requires f.ClassBody? || f.Said?
    ensures Sigs(role, [f]) == []
  {
    SigsOne(role, f);
  }

  lemma StubRole(role: Role, ms: seq<Method>, ps: Parameters)
    requires role != Plainly
    ensures Sigs(role, StubMembersFacts(ms, ps)) ==
            RoundsSigs(StubPublic, role, ms, ps, |ms|) + RoundsSigs(StubPrivate, role, ms, ps, |ms|)
  {
    hide RoundsFacts, RoundsSigs, Sigs, DeclFacts, AsyncStubMembers;
    var nested, priv := Closed(AsyncScope(), AsyncStubMembers(ms, ps)), EveryFacts(StubPrivate, ms, ps);
    RoundsSigsFound(StubPublic, role, ms, ps, |ms|);
    RoundsSigsFound(StubPrivate, role, ms, ps, |ms|);
    RoundsSigsFound(StubMembers, role, ms, ps, |ms|);
    NothingInData(role, ms, ps, |ms|);
    var ctor := DeclFacts(StubCtor(), map[]);
    StubCtorIsDeclared();
    SigsOne(role, ctor[0]);
    SigsConcat(role, ctor, EveryFacts(StubPublic, ms, ps));
    var before := ctor + EveryFacts(StubPublic, ms, ps);
    SigsConcat(role, before, nested);
    SigsConcat(role, before + nested, Privately());
    SigsConcat(role, before + nested + Privately(), priv);
    SigsConcat(role, before + nested + Privately() + priv, EveryFacts(StubMembers, ms, ps));
    HasNoSigs(role, nested[0]);
    HasNoSigs(role, Privately()[0]);
    assert nested == [nested[0]];
  }

  // The callback functions, between the labels of their class.
  lemma CallbackRole(role: Role, ms: seq<Method>, ps: Parameters)
    ensures Sigs(role, AsyncInterfaceMembers(ms, ps)) == RoundsSigs(CallbackInterfaces, role, ms, ps, |ms|)
    ensures Sigs(role, AsyncStubMembers(ms, ps)) == RoundsSigs(Callbacks, role, ms, ps, |ms|)
  {
    hide RoundsFacts, RoundsSigs, Sigs;
    RoundsSigsFound(CallbackInterfaces, role, ms, ps, |ms|);
    RoundsSigsFound(Callbacks, role, ms, ps, |ms|);
    HasNoSigs(role, Publicly()[0]);
    HasNoSigs(role, Privately()[0]);
    SigsConcat(role, Publicly(), EveryFacts(CallbackInterfaces, ms, ps));
    SigsConcat(role, Publicly(), EveryFacts(Callbacks, ms, ps));
    SigsConcat(role, Publicly() + EveryFacts(Callbacks, ms, ps), Privately());
  }

  lemma {:induction false} NothingInData(role: Role, ms: seq<Method>, ps: Parameters, n: nat)
    requires n <= |ms|
    ensures RoundsSigs(StubMembers, role, ms, ps, n) == []
  {
    if n > 0 {
      NothingInData(role, ms, ps, n - 1);
    }
  }

  // Stub overrides exactly the pure virtual functions of StubInterface, in the
  // same order, with the same names and parameters and with the concrete type
  // of each result; and Stub::async those of the callback interface.
  lemma StubImplementsInterface(svc: Service, pkg: string, ps: Parameters)
    ensures AllImplemented(Sigs(Overriding, StubClassOf(svc, pkg, ps))) == Sigs(Purely, InterfaceClassOf(svc, pkg, ps))
    ensures Sigs(Overriding, AsyncStubOf(svc, pkg, ps)) == Sigs(Purely, AsyncInterfaceOf(svc, pkg, ps))
  {
    hide RoundsSigs, AllImplemented, Sigs, InterfaceMembers, StubMembersFacts, RoundsFacts, ClassOf, InterfaceClassOf,
      StubClassOf, AsyncStubOf, AsyncInterfaceOf, AsyncInterfaceMembers, AsyncStubMembers;
    var ms := svc.methods;
    ClassMembers(svc, pkg, ps);
    InterfaceRole(Purely, ms, ps);
    StubRole(Overriding, ms, ps);
    RoundsAreImplemented(ms, ps, |ms|);
    AllImplementedConcat(RoundsSigs(StubPublic, Overriding, ms, ps, |ms|),
      RoundsSigs(StubPrivate, Overriding, ms, ps, |ms|));
    CallbackRole(Overriding, ms, ps);
    CallbackRole(Purely, ms, ps);
  }

  // ---- Wrappers ----

  lemma {:induction false} NoCommas(s: string)
    requires ',' !in s
    ensures Commas(s) == 0
  {
    if s != "" {
      assert s[0] in s;
      NoCommas(s[1..]);
    }
  }

  lemma OneComma(s: string)
    requires ',' !in s
    ensures Commas("," + s) == 1
  {
    assert ("," + s)[1..] == s;
    NoCommas(s);
  }

  // The extra parameter of an entry is one parameter, or none, and the extra
  // argument follows it.
  lemma ExtraParams(i: nat)
    ensures Commas(Prefix(i).methodParams) == (if i == 0 then 1 else 0)
    ensures Commas(Prefix(i).rawArgs) == (if i == 0 then 1 else 0)
    ensures PassedOn(Prefix(i).methodParams) == Prefix(i).rawArgs
  {
    hide Commas;
    OneComma(" void* tag");
    OneComma(" tag");
    NoCommas("");
    assert ", void* tag" == "," + " void* tag";
    assert ", tag" == "," + " tag";
  }

  // A forwarding call, and the text behind its arguments.
  datatype Forwarding = Forwarding(ret: Ty, callee: seq<Ref>, argc: nat, extra: string)

  // A tag is passed on under its own name.
  function PassedOn(extra: string): string { if extra == ", void* tag" then ", tag" else "" }

  // The call a wrapper with this signature is meant to make.
  function Meant(s: Sig): Forwarding { Forwarding(s.ret, Rawed(s).name, Arity(s), PassedOn(Spelled(s.extra))) }

  function AllMeant(ss: seq<Sig>): seq<Forwarding> { seq(|ss|, i requires 0 <= i < |ss| => Meant(ss[i])) }

  lemma AllMeantConcat(a: seq<Sig>, b: seq<Sig>)
    ensures AllMeant(a + b) == AllMeant(a) + AllMeant(b)
  {
  }

  function MadeIn(f: Fact): seq<Forwarding> {
    if f.Call? then [Forwarding(f.ret, f.callee, f.argc + Commas(Spelled(f.extra)), Spelled(f.extra))] else []
  }

  // The forwarding calls a class makes, in order.
  function Made(fs: seq<Fact>): seq<Forwarding> { if fs == [] then [] else Made(fs[..|fs| - 1]) + MadeIn(fs[|fs| - 1]) }

  lemma MadeSnoc(fs: seq<Fact>, f: Fact)
    ensures Made(fs + [f]) == Made(fs) + MadeIn(f)
  {
    hide MadeIn;
    assert (fs + [f])[..|fs|] == fs;
  }

  lemma {:induction false} MadeConcat(a: seq<Fact>, b: seq<Fact>)
    ensures Made(a + b) == Made(a) + Made(b)
  {
    if b == [] {
      assert a + b == a;
    } else {
      hide Made, MadeIn;
      var c, f := b[..|b| - 1], b[|b| - 1];
      MadeConcat(a, c);
      MadeSnoc(c, f);
      MadeSnoc(a + c, f);
      LastOff(a, b);
      Regrouped(Made(a), Made(c), MadeIn(f));
    }
  }

  lemma MadeOne(f: Fact)
    ensures Made([f]) == MadeIn(f)
  {
    hide MadeIn;
    assert [f][..0] == [];
  }

  lemma PairMade(a: Sig, call: Fact)
    requires call.Call? && MadeIn(call) == [Meant(a)]
    ensures Made([InlineDecl(a)] + [call]) == [Meant(a)]
  {
    MadeConcat([InlineDecl(a)], [call]);
    MadeOne(InlineDecl(a));
    MadeOne(call);
  }

  lemma RawNames(m: Method, i: nat)
    ensures [S(m.name)] + [S("Raw")] == [S(m.name), S("Raw")]
    ensures [S(Prefix(i).prefix), S(m.name)] + [S("Raw")] == [S(Prefix(i).prefix), S(m.name), S("Raw")]
  {
  }

  lemma NothingPassedOn()
    ensures PassedOn("") == "" && Spelled([]) == ""
  {
  }

  lemma PairsMade(m: Method, i: nat, isInterface: bool)
    ensures m.Kind() != Unary ==> Made(WrapperPair(m, isInterface)) == [Meant(WrapperSig(m, isInterface))]
    ensures Made(AsyncWrapperPair(m, i, isInterface)) == [Meant(AsyncWrapperSig(m, i, isInterface))]
  {
    hide Prefix, Made, Commas, Spelled, PassedOn;
    ExtraParams(i);
    NothingPassedOn();
    SpelledOne(Prefix(i).methodParams);
    SpelledOne(Prefix(i).rawArgs);
    NoCommas("");
    RawNames(m, i);
    PairMade(AsyncWrapperSig(m, i, isInterface), AsyncWrapperCall(m, i, isInterface));
    if m.Kind() != Unary {
      PairMade(WrapperSig(m, isInterface), WrapperCall(m, isInterface));
    }
  }

  lemma DeclaredMakesNothing(isInterface: bool, sig: Sig)
    ensures Made(DeclaredAs(isInterface, sig)) == [] && Made([]) == []
  {
    MadeOne(DeclaredAs(isInterface, sig)[0]);
  }

  lemma PublicMade(m: Method, ps: Parameters, isInterface: bool)
    ensures Made(PublicFacts(m, ps, isInterface)) == AllMeant(WrapperSigs(m, ps, isInterface))
  {
    hide Made, DeclaredAs, WrapperPair, AsyncWrapperPair, WrapperSig, AsyncWrapperSig, Meant;
    var first := if m.Kind() == Unary then DeclaredAs(isInterface, SyncSig(m)) else WrapperPair(m, isInterface);
    DeclaredMakesNothing(isInterface, SyncSig(m));
    PairsMade(m, 0, isInterface);
    PairsMade(m, 1, isInterface);
    MadeConcat(AsyncWrapperPair(m, 0, isInterface), AsyncWrapperPair(m, 1, isInterface));
    MadeConcat(first, AsyncWrapperPair(m, 0, isInterface) + AsyncWrapperPair(m, 1, isInterface));
    assert first + [] == first;
  }

  lemma PrivateMade(m: Method, ps: Parameters, isInterface: bool)
    ensures Made(PrivateFacts(m, ps, isInterface)) == []
  {
    hide Made, DeclaredAs, RawSig, AsyncRawSig;
    var first := if m.Kind() == Unary then [] else DeclaredAs(isInterface, RawSig(m, isInterface));
    var a, b := DeclaredAs(isInterface, AsyncRawSig(m, 0, isInterface)),
      DeclaredAs(isInterface, AsyncRawSig(m, 1, isInterface));
    DeclaredMakesNothing(isInterface, RawSig(m, isInterface));
    DeclaredMakesNothing(isInterface, AsyncRawSig(m, 0, isInterface));
    DeclaredMakesNothing(isInterface, AsyncRawSig(m, 1, isInterface));
    MadeConcat(a, b);
    MadeConcat(first, a + b);
    assert first + [] == first;
  }

  lemma CallbackMade(m: Method, isInterface: bool)
    ensures Made(CallbackFacts(m, isInterface)) == []
  {
    hide Made, DeclaredAs, CallbackSig, ReactorSig;
    DeclaredMakesNothing(isInterface, CallbackSig(m));
    DeclaredMakesNothing(isInterface, ReactorSig(m));
    MadeConcat(DeclaredAs(isInterface, CallbackSig(m)), DeclaredAs(isInterface, ReactorSig(m)));
    MadeConcat(DeclaredAs(isInterface, CallbackSig(m)), []);
  }

  lemma RoundMade(pass: Pass, m: Method, i: nat, ps: Parameters)
    requires ClientPass(pass)
    ensures Made(RoundFacts(pass, m, i, ps)) == AllMeant(RoundSigs(pass, Inlined, m, ps))
  {
    hide Made, Meant, WrapperSigs, PublicFacts, PrivateFacts, CallbackFacts, InterfacePublicFacts,
      InterfacePrivateFacts, StubPublicFacts, StubPrivateFacts, CallbackInterfaceFacts, CallbackStubFacts, RRefs;
    PublicPasses(m, ps);
    PrivatePasses(m, ps);
    CallbackPasses(m);
    var isInterface := pass == InterfacePublic || pass == InterfacePrivate || pass == CallbackInterfaces;
    PublicMade(m, ps, isInterface);
    PrivateMade(m, ps, isInterface);
    CallbackMade(m, isInterface);
    MadeOne(StubDataFacts(m)[0]);
  }

  lemma {:induction false} RoundsMade(pass: Pass, ms: seq<Method>, ps: Parameters, n: nat)
    requires n <= |ms| && ClientPass(pass)
    ensures Made(RoundsFacts(pass, ms, ps, n)) == AllMeant(RoundsSigs(pass, Inlined, ms, ps, n))
  {
    hide MadeIn, Meant, RoundFacts, RoundSigs;
    if n > 0 {
      RoundsMade(pass, ms, ps, n - 1);
      RoundMade(pass, ms[n - 1], n - 1, ps);
      MadeConcat(RoundsFacts(pass, ms, ps, n - 1), RoundFacts(pass, ms[n - 1], n - 1, ps));
      AllMeantConcat(RoundsSigs(pass, Inlined, ms, ps, n - 1), RoundSigs(pass, Inlined, ms[n - 1], ps));
    }
  }

  lemma WrappersRawed(m: Method, ps: Parameters, isInterface: bool)
    ensures AllRawed(WrapperSigs(m, ps, isInterface)) == RawSigs(m, ps, isInterface)
  {
    hide Prefix;
    RawNames(m, 0);
    RawNames(m, 1);
    var first := if m.Kind() == Unary then [] else [WrapperSig(m, isInterface)];
    AllRawedConcat(first, if ps.allowCqApi
      then [AsyncWrapperSig(m, 0, isInterface)] + [AsyncWrapperSig(m, 1, isInterface)] else []);
  }

  lemma RawsOne(s: Sig)
    ensures Raws([s]) == if IsRaw(s) then [s] else []
  {
    hide IsRaw;
    assert [s][..0] == [];
  }

  lemma RawsAreRaw(m: Method, ps: Parameters, isInterface: bool)
    ensures Raws(RawSigs(m, ps, isInterface)) == RawSigs(m, ps, isInterface) && Raws(DirectSigs(m)) == []
  {
    hide Raws, Prefix;
    DirectsOfNothing();
    var first := if m.Kind() == Unary then [] else [RawSig(m, isInterface)];
    RawsOne(SyncSig(m));
    RawsOne(RawSig(m, isInterface));
    RawsOne(AsyncRawSig(m, 0, isInterface));
    RawsOne(AsyncRawSig(m, 1, isInterface));
    RawsConcat([AsyncRawSig(m, 0, isInterface)], [AsyncRawSig(m, 1, isInterface)]);
    RawsConcat(first, [AsyncRawSig(m, 0, isInterface)] + [AsyncRawSig(m, 1, isInterface)]);
    RawsConcat(first, []);
  }

  lemma {:induction false} RoundsRawed(ms: seq<Method>, ps: Parameters, n: nat)
    requires n <= |ms|
    ensures AllRawed(RoundsSigs(InterfacePublic, Inlined, ms, ps, n)) == RoundsSigs(InterfacePrivate, Purely, ms, ps, n)
    ensures AllRawed(RoundsSigs(StubPublic, Inlined, ms, ps, n)) == RoundsSigs(StubPrivate, Overriding, ms, ps, n)
    ensures Raws(RoundsSigs(InterfacePrivate, Purely, ms, ps, n)) == RoundsSigs(InterfacePrivate, Purely, ms, ps, n)
    ensures Raws(RoundsSigs(StubPrivate, Overriding, ms, ps, n)) == RoundsSigs(StubPrivate, Overriding, ms, ps, n)
    ensures Raws(RoundsSigs(InterfacePublic, Purely, ms, ps, n)) == []
    ensures Raws(RoundsSigs(StubPublic, Overriding, ms, ps, n)) == []
  {
    hide Raws, AllRawed, WrapperSigs, RawSigs, DirectSigs;
    DirectsOfNothing();
    if n > 0 {
      var m := ms[n - 1];
      RoundsRawed(ms, ps, n - 1);
      WrappersRawed(m, ps, true);
      WrappersRawed(m, ps, false);
      RawsAreRaw(m, ps, true);
      RawsAreRaw(m, ps, false);
      AllRawedConcat(RoundsSigs(InterfacePublic, Inlined, ms, ps, n - 1), WrapperSigs(m, ps, true));
      AllRawedConcat(RoundsSigs(StubPublic, Inlined, ms, ps, n - 1), WrapperSigs(m, ps, false));
      RawsConcat(RoundsSigs(InterfacePrivate, Purely, ms, ps, n - 1), RawSigs(m, ps, true));
      RawsConcat(RoundsSigs(StubPrivate, Overriding, ms, ps, n - 1), RawSigs(m, ps, false));
      RawsConcat(RoundsSigs(InterfacePublic, Purely, ms, ps, n - 1), DirectSigs(m));
      RawsConcat(RoundsSigs(StubPublic, Overriding, ms, ps, n - 1), DirectSigs(m));
    }
  }

  lemma {:induction false} NothingInlinedPrivately(ms: seq<Method>, ps: Parameters, n: nat)
    requires n <= |ms|
    ensures RoundsSigs(InterfacePrivate, Inlined, ms, ps, n) == [] && RoundsSigs(StubPrivate, Inlined, ms, ps, n) == []
  {
    if n > 0 {
      NothingInlinedPrivately(ms, ps, n - 1);
    }
  }

  // What the calls and the inline functions of StubInterface and Stub add up to.
  lemma MeantNothing()
    ensures AllMeant([]) == []
  {
  }

  lemma InterfaceMade(ms: seq<Method>, ps: Parameters)
    ensures Made(InterfaceMembers(ms, ps)) == AllMeant(RoundsSigs(InterfacePublic, Inlined, ms, ps, |ms|))
  {
    hide RoundsFacts, RoundsSigs, Made, AllMeant, AsyncInterfaceMembers;
    var pub, nested := EveryFacts(InterfacePublic, ms, ps),
      Closed(AsyncInterfaceScope(), AsyncInterfaceMembers(ms, ps));
    RoundsMade(InterfacePublic, ms, ps, |ms|);
    RoundsMade(InterfacePrivate, ms, ps, |ms|);
    NothingInlinedPrivately(ms, ps, |ms|);
    MeantNothing();
    MadeConcat(pub, nested);
    MadeConcat(pub + nested, Privately());
    MadeConcat(pub + nested + Privately(), EveryFacts(InterfacePrivate, ms, ps));
    MadeOne(nested[0]);
    MadeOne(Privately()[0]);
    assert nested == [nested[0]];
  }

  lemma StubMade(ms: seq<Method>, ps: Parameters)
    ensures Made(StubMembersFacts(ms, ps)) == AllMeant(RoundsSigs(StubPublic, Inlined, ms, ps, |ms|))
  {
    hide RoundsFacts, RoundsSigs, Made, AllMeant, DeclFacts, AsyncStubMembers;
    var nested, priv := Closed(AsyncScope(), AsyncStubMembers(ms, ps)), EveryFacts(StubPrivate, ms, ps);
    var ctor := DeclFacts(StubCtor(), map[]);
    RoundsMade(StubPublic, ms, ps, |ms|);
    RoundsMade(StubPrivate, ms, ps, |ms|);
    RoundsMade(StubMembers, ms, ps, |ms|);
    NothingInlinedPrivately(ms, ps, |ms|);
    NothingInData(Inlined, ms, ps, |ms|);
    MeantNothing();
    StubCtorIsDeclared();
    MadeOne(ctor[0]);
    MadeConcat(ctor, EveryFacts(StubPublic, ms, ps));
    var before := ctor + EveryFacts(StubPublic, ms, ps);
    MadeConcat(before, nested);
    MadeConcat(before + nested, Privately());
    MadeConcat(before + nested + Privately(), priv);
    MadeConcat(before + nested + Privately() + priv, EveryFacts(StubMembers, ms, ps));
    MadeOne(nested[0]);
    MadeOne(Privately()[0]);
    assert nested == [nested[0]];
  }

  // The inline functions of StubInterface and Stub are wrappers for exactly the
  // private functions declared behind them, and each calls its own with as many
  // arguments as it has parameters, the tag under its own name.
  lemma WrappersMatchPrivates(svc: Service, pkg: string, ps: Parameters)
    ensures var i := InterfaceClassOf(svc, pkg, ps);
      AllRawed(Sigs(Inlined, i)) == Raws(Sigs(Purely, i)) && Made(i) == AllMeant(Sigs(Inlined, i))
    ensures var s := StubClassOf(svc, pkg, ps);
      AllRawed(Sigs(Inlined, s)) == Raws(Sigs(Overriding, s)) && Made(s) == AllMeant(Sigs(Inlined, s))
  {
    hide RoundsSigs, AllRawed, Raws, Made, AllMeant, Sigs, InterfaceMembers, StubMembersFacts, RoundsFacts, ClassOf,
      InterfaceClassOf, StubClassOf;
    var ms := svc.methods;
    ClassMembers(svc, pkg, ps);
    InterfaceRole(Purely, ms, ps);
    InterfaceRole(Inlined, ms, ps);
    StubRole(Overriding, ms, ps);
    StubRole(Inlined, ms, ps);
    NothingInlinedPrivately(ms, ps, |ms|);
    assert RoundsSigs(InterfacePublic, Inlined, ms, ps, |ms|) + [] ==
      RoundsSigs(InterfacePublic, Inlined, ms, ps, |ms|);
    assert RoundsSigs(StubPublic, Inlined, ms, ps, |ms|) + [] == RoundsSigs(StubPublic, Inlined, ms, ps, |ms|);
    RoundsRawed(ms, ps, |ms|);
    RawsConcat(RoundsSigs(InterfacePublic, Purely, ms, ps, |ms|), RoundsSigs(InterfacePrivate, Purely, ms, ps, |ms|));
    RawsConcat(RoundsSigs(StubPublic, Overriding, ms, ps, |ms|), RoundsSigs(StubPrivate, Overriding, ms, ps, |ms|));
    InterfaceMade(ms, ps);
    StubMade(ms, ps);
  }

  // ---- What is private ----

  // The members behind an access label.
  function Behind(fs: seq<Fact>, access: Text): seq<Fact> {
    if fs == [] then [] else if fs[0] == Said(access, []) then fs[1..] else Behind(fs[1..], access)
  }

  lemma {:induction false} BehindLabel(before: seq<Fact>, access: Text, rest: seq<Fact>)
    requires forall f :: f in before ==> !f.Said?
    ensures Behind(before + [Said(access, [])] + rest, access) == rest
  {
    var fs := before + [Said(access, [])] + rest;
    if before == [] {
      assert fs[1..] == rest;
    } else {
      assert fs[0] == before[0];
      assert fs[1..] == before[1..] + [Said(access, [])] + rest;
      BehindLabel(before[1..], access, rest);
    }
  }

  lemma BehindPrivate(ms: seq<Method>, ps: Parameters)
    ensures Behind(InterfaceMembers(ms, ps), PrivateLabel) == EveryFacts(InterfacePrivate, ms, ps)
    ensures Behind(StubMembersFacts(ms, ps), PrivateLabel) ==
            EveryFacts(StubPrivate, ms, ps) + EveryFacts(StubMembers, ms, ps)
  {
    hide RoundsFacts, Behind, AsyncInterfaceMembers, AsyncStubMembers;
    FlatRounds(InterfacePublic, ms, ps, |ms|);
    FlatRounds(StubPublic, ms, ps, |ms|);
    StubCtorIsDeclared();
    var i := EveryFacts(InterfacePublic, ms, ps) + Closed(AsyncInterfaceScope(), AsyncInterfaceMembers(ms, ps));
    BehindLabel(i, PrivateLabel, EveryFacts(InterfacePrivate, ms, ps));
    var s := DeclFacts(StubCtor(), map[]) + EveryFacts(StubPublic, ms, ps) +
      Closed(AsyncScope(), AsyncStubMembers(ms, ps));
    var rest := EveryFacts(StubPrivate, ms, ps) + EveryFacts(StubMembers, ms, ps);
    BehindLabel(s, PrivateLabel, rest);
    assert StubMembersFacts(ms, ps) == s + Privately() + rest;
  }

  lemma PrivateRole(role: Role, ms: seq<Method>, ps: Parameters)
    ensures Sigs(role, Behind(InterfaceMembers(ms, ps), PrivateLabel)) ==
            RoundsSigs(InterfacePrivate, role, ms, ps, |ms|)
    ensures Sigs(role, Behind(StubMembersFacts(ms, ps), PrivateLabel)) == RoundsSigs(StubPrivate, role, ms, ps, |ms|)
  {
    hide RoundsFacts, RoundsSigs, Sigs, Behind, InterfaceMembers, StubMembersFacts;
    BehindPrivate(ms, ps);
    RoundsSigsFound(InterfacePrivate, role, ms, ps, |ms|);
    RoundsSigsFound(StubPrivate, role, ms, ps, |ms|);
    RoundsSigsFound(StubMembers, role, ms, ps, |ms|);
    NothingInData(role, ms, ps, |ms|);
    SigsConcat(role, EveryFacts(StubPrivate, ms, ps), EveryFacts(StubMembers, ms, ps));
  }

  // Private are exactly the Raw functions, of StubInterface and of Stub: a
  // caller reaches them through the wrappers alone, of which none is private.
  lemma PrivatesAreRaw(svc: Service, pkg: string, ps: Parameters)
    ensures var i := InterfaceClassOf(svc, pkg, ps);
      Sigs(Purely, Behind(i, PrivateLabel)) == Raws(Sigs(Purely, i)) && Sigs(Inlined, Behind(i, PrivateLabel)) == []
    ensures var s := StubClassOf(svc, pkg, ps);
      Sigs(Overriding, Behind(s, PrivateLabel)) == Raws(Sigs(Overriding, s)) &&
      Sigs(Inlined, Behind(s, PrivateLabel)) == []
  {
    hide RoundsSigs, Raws, Sigs, Behind, InterfaceMembers, StubMembersFacts, ClassOf, InterfaceClassOf, StubClassOf;
    var ms := svc.methods;
    ClassMembers(svc, pkg, ps);
    InterfaceRole(Purely, ms, ps);
    StubRole(Overriding, ms, ps);
    PrivateRole(Purely, ms, ps);
    PrivateRole(Overriding, ms, ps);
    PrivateRole(Inlined, ms, ps);
    NothingInlinedPrivately(ms, ps, |ms|);
    RoundsRawed(ms, ps, |ms|);
    RawsConcat(RoundsSigs(InterfacePublic, Purely, ms, ps, |ms|), RoundsSigs(InterfacePrivate, Purely, ms, ps, |ms|));
    RawsConcat(RoundsSigs(StubPublic, Overriding, ms, ps, |ms|), RoundsSigs(StubPrivate, Overriding, ms, ps, |ms|));
  }
}
