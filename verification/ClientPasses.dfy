// The client passes in terms of the signatures each method calls for: which
// signatures a pass declares pure, overrides or defines inline.
module ClientPasses {
  import opened Schema
  import opened Emit
  import opened Structure
  import opened ClientTemplates
  import opened HeaderService
  import opened ClientFacts
  import opened HeaderFacts
  import opened Signatures
  import opened Queries

  // ---- The passes in terms of signatures ----

  function DeclaredAs(isInterface: bool, sig: Sig): seq<Fact> {
    [if isInterface then PureDecl(sig) else OverrideDecl(sig)]
  }

  function WrapperPair(m: Method, isInterface: bool): seq<Fact> {
    [InlineDecl(WrapperSig(m, isInterface))] + [WrapperCall(m, isInterface)]
  }

  function AsyncWrapperPair(m: Method, i: nat, isInterface: bool): seq<Fact> {
    [InlineDecl(AsyncWrapperSig(m, i, isInterface))] + [AsyncWrapperCall(m, i, isInterface)]
  }

  function PublicFacts(m: Method, ps: Parameters, isInterface: bool): seq<Fact> {
    (if m.Kind() == Unary then DeclaredAs(isInterface, SyncSig(m)) else WrapperPair(m, isInterface)) +
    (if ps.allowCqApi then AsyncWrapperPair(m, 0, isInterface) + AsyncWrapperPair(m, 1, isInterface) else [])
  }

  function PrivateFacts(m: Method, ps: Parameters, isInterface: bool): seq<Fact> {
    (if m.Kind() == Unary then [] else DeclaredAs(isInterface, RawSig(m, isInterface))) +
    (if ps.allowCqApi
     then DeclaredAs(isInterface, AsyncRawSig(m, 0, isInterface)) +
       DeclaredAs(isInterface, AsyncRawSig(m, 1, isInterface))
     else [])
  }

  function CallbackFacts(m: Method, isInterface: bool): seq<Fact> {
    DeclaredAs(isInterface, CallbackSig(m)) + (if m.Kind() == Unary then DeclaredAs(isInterface, ReactorSig(m)) else [])
  }

  lemma EnvsFit(m: Method, i: nat)
    ensures ForMethod(MethodEnv(m), m)
    ensures ForAsyncCall(AsyncEnv(m, Prefix(i), AsyncVarsOf(m.Kind())), m, i)
    ensures ForAsync(AsyncEnv(m, Prefix(i), RawVarsOf(m.Kind())), m, i)
  {
    hide Prefix;
  }

  lemma WrapperCalls(m: Method, i: nat, env: Env)
    requires ForAsyncCall(env, m, i)
    ensures CallOf(Render(InterfaceAsyncForward(m.Kind()), env)) == AsyncWrapperCall(m, i, true)
    ensures CallOf(Render(StubAsyncForward(m.Kind()), env)) == AsyncWrapperCall(m, i, false)
  {
    RenderedRefs();
    RenderedTys();
    hide RRefs, RTys, Prefix;
  }

  lemma SyncWrapperCalls(m: Method, env: Env)
    requires ForMethod(env, m) && m.Kind() != Unary
    ensures CallOf(Render(InterfaceSyncForward(m.Kind()), env)) == WrapperCall(m, true)
    ensures CallOf(Render(StubSyncForward(m.Kind()), env)) == WrapperCall(m, false)
  {
    RenderedRefs();
    RenderedTys();
    hide RRefs, RTys;
  }

  lemma AsyncPairs(m: Method)
    ensures AsyncBlocksFacts(m, AsyncVarsOf(m.Kind()), InterfaceAsync(m.Kind()), InterfaceAsyncForward(m.Kind()), 2) ==
            AsyncWrapperPair(m, 0, true) + AsyncWrapperPair(m, 1, true)
    ensures AsyncBlocksFacts(m, AsyncVarsOf(m.Kind()), StubAsync(m.Kind()), StubAsyncForward(m.Kind()), 2) ==
            AsyncWrapperPair(m, 0, false) + AsyncWrapperPair(m, 1, false)
  {
    hide RRefs, RTys, RTy, AsyncEnv, AsyncWrapperSig, AsyncWrapperCall, ForAsync, ForAsyncCall, Prefix;
    var av := AsyncVarsOf(m.Kind());
    AsyncPair(m, 0);
    AsyncPair(m, 1);
    AsyncBlocksTwice(m, av, InterfaceAsync(m.Kind()), InterfaceAsyncForward(m.Kind()));
    AsyncBlocksTwice(m, av, StubAsync(m.Kind()), StubAsyncForward(m.Kind()));
  }

  lemma AsyncBlocksTwice(m: Method, av: AsyncVars, decl: Form, body: Form)
    requires IsWrapper(decl, body)
    ensures AsyncBlocksFacts(m, av, decl, body, 2) ==
            WrapperFacts(decl, body, AsyncEnv(m, Prefix(0), av)) + WrapperFacts(decl, body, AsyncEnv(m, Prefix(1), av))
  {
    hide WrapperFacts, Prefix, AsyncEnv;
    assert AsyncBlocksFacts(m, av, decl, body, 1) == WrapperFacts(decl, body, AsyncEnv(m, Prefix(0), av));
  }

  lemma AsyncPair(m: Method, i: nat)
    ensures var env := AsyncEnv(m, Prefix(i), AsyncVarsOf(m.Kind()));
      WrapperFacts(InterfaceAsync(m.Kind()), InterfaceAsyncForward(m.Kind()), env) == AsyncWrapperPair(m, i, true) &&
      WrapperFacts(StubAsync(m.Kind()), StubAsyncForward(m.Kind()), env) == AsyncWrapperPair(m, i, false)
  {
    hide RRefs, RTys, RTy, AsyncEnv, AsyncWrapperSig, AsyncWrapperCall, Prefix;
    var env := AsyncEnv(m, Prefix(i), AsyncVarsOf(m.Kind()));
    EnvsFit(m, i);
    InterfaceAsyncSigs(m, i, env);
    StubAsyncSigs(m, i, env);
    WrapperCalls(m, i, env);
    InlineShapes(m, env);
  }

  // A wrapper's head is noted as an inline declaration.
  lemma InlineShapes(m: Method, env: Env)
    ensures Noted(Render(InterfaceAsync(m.Kind()), env), false) ==
            [InlineDecl(SigOf(Render(InterfaceAsync(m.Kind()), env)))]
    ensures Noted(Render(StubAsync(m.Kind()), env), false) == [InlineDecl(SigOf(Render(StubAsync(m.Kind()), env)))]
    ensures Noted(Render(InterfaceSync(m.Kind()), env), false) ==
            [if m.Kind() == Unary then PureDecl(SigOf(Render(InterfaceSync(m.Kind()), env)))
             else InlineDecl(SigOf(Render(InterfaceSync(m.Kind()), env)))]
    ensures Noted(Render(StubSync(m.Kind()), env), false) ==
            [if m.Kind() == Unary then OverrideDecl(SigOf(Render(StubSync(m.Kind()), env)))
             else InlineDecl(SigOf(Render(StubSync(m.Kind()), env)))]
  {
    RenderedRefs();
    hide RRefs, RTys, RTy;
  }

  lemma PublicPasses(m: Method, ps: Parameters)
    ensures InterfacePublicFacts(m, ps) == PublicFacts(m, ps, true)
    ensures StubPublicFacts(m, ps) == PublicFacts(m, ps, false)
  {
    hide RRefs, RTys, RTy, MethodEnv, AsyncBlocksFacts, AsyncWrapperPair, SyncSig, WrapperSig, WrapperCall,
      InterfaceAsync, StubAsync, InterfaceAsyncForward, StubAsyncForward;
    EnvsFit(m, 0);
    AsyncPairs(m);
    InterfaceSigs(m, MethodEnv(m));
    StubSigs(m, MethodEnv(m));
    InlineShapes(m, MethodEnv(m));
    if m.Kind() != Unary {
      SyncWrapperCalls(m, MethodEnv(m));
    }
  }

  lemma RawShapes(m: Method, env: Env)
    ensures m.Kind() != Unary ==>
      Noted(Render(InterfaceRaw(m.Kind()), env), false) == [PureDecl(SigOf(Render(InterfaceRaw(m.Kind()), env)))] &&
      Noted(Render(StubRaw(m.Kind()), env), false) == [OverrideDecl(SigOf(Render(StubRaw(m.Kind()), env)))]
    ensures Noted(Render(InterfaceAsyncRaw(m.Kind()), env), false) ==
            [PureDecl(SigOf(Render(InterfaceAsyncRaw(m.Kind()), env)))]
    ensures Noted(Render(StubAsyncRaw(m.Kind()), env), false) ==
            [OverrideDecl(SigOf(Render(StubAsyncRaw(m.Kind()), env)))]
  {
    hide RRefs, RTys, RTy;
  }

  lemma AsyncLinesTwice(m: Method, av: AsyncVars, f: Form)
    requires f.Decl?
    ensures AsyncLinesFacts(m, av, f, 2) ==
            DeclFacts(f, AsyncEnv(m, Prefix(0), av)) + DeclFacts(f, AsyncEnv(m, Prefix(1), av))
  {
    hide DeclFacts, Prefix, AsyncEnv;
    assert AsyncLinesFacts(m, av, f, 1) == DeclFacts(f, AsyncEnv(m, Prefix(0), av));
  }

  lemma AsyncRawLine(m: Method, i: nat)
    ensures DeclFacts(InterfaceAsyncRaw(m.Kind()), AsyncEnv(m, Prefix(i), RawVarsOf(m.Kind()))) ==
            DeclaredAs(true, AsyncRawSig(m, i, true))
    ensures DeclFacts(StubAsyncRaw(m.Kind()), AsyncEnv(m, Prefix(i), AsyncVarsOf(m.Kind()))) ==
            DeclaredAs(false, AsyncRawSig(m, i, false))
  {
    hide Noted, Render, AsyncEnv, AsyncRawSig, Prefix, InterfaceAsyncRaw, StubAsyncRaw;
    EnvsFit(m, i);
    InterfaceAsyncSigs(m, i, AsyncEnv(m, Prefix(i), RawVarsOf(m.Kind())));
    StubAsyncSigs(m, i, AsyncEnv(m, Prefix(i), AsyncVarsOf(m.Kind())));
    RawShapes(m, AsyncEnv(m, Prefix(i), RawVarsOf(m.Kind())));
    RawShapes(m, AsyncEnv(m, Prefix(i), AsyncVarsOf(m.Kind())));
  }

  lemma PrivatePasses(m: Method, ps: Parameters)
    ensures InterfacePrivateFacts(m, ps) == PrivateFacts(m, ps, true)
    ensures StubPrivateFacts(m, ps) == PrivateFacts(m, ps, false)
  {
    hide RRefs, RTys, RTy, MethodEnv, AsyncLinesFacts, AsyncRawSig, RawSig, Prefix;
    EnvsFit(m, 0);
    AsyncRawLine(m, 0);
    AsyncRawLine(m, 1);
    AsyncLinesTwice(m, RawVarsOf(m.Kind()), InterfaceAsyncRaw(m.Kind()));
    AsyncLinesTwice(m, AsyncVarsOf(m.Kind()), StubAsyncRaw(m.Kind()));
    InterfaceSigs(m, MethodEnv(m));
    StubSigs(m, MethodEnv(m));
    RawShapes(m, MethodEnv(m));
  }

  lemma CallbackShapes(m: Method, env: Env)
    ensures Noted(Render(CallbackInterface(m.Kind()), env), false) ==
            [PureDecl(SigOf(Render(CallbackInterface(m.Kind()), env)))]
    ensures Noted(Render(CallbackStub(m.Kind()), env), false) ==
            [OverrideDecl(SigOf(Render(CallbackStub(m.Kind()), env)))]
    ensures Noted(Render(CallbackInterfaceReactor(), env), false) ==
            [PureDecl(SigOf(Render(CallbackInterfaceReactor(), env)))]
    ensures Noted(Render(CallbackStubReactor(), env), false) ==
            [OverrideDecl(SigOf(Render(CallbackStubReactor(), env)))]
  {
    hide RRefs, RTys, RTy;
  }

  lemma CallbackPasses(m: Method)
    ensures CallbackInterfaceFacts(m) == CallbackFacts(m, true)
    ensures CallbackStubFacts(m) == CallbackFacts(m, false)
  {
    hide Noted, Render, MethodEnv, CallbackSig, ReactorSig, CallbackInterface, CallbackStub, CallbackInterfaceReactor,
      CallbackStubReactor;
    EnvsFit(m, 0);
    CallbackSigs(m, MethodEnv(m));
    CallbackShapes(m, MethodEnv(m));
  }

  // ---- Signatures by role ----

  function OwnRole(isInterface: bool): Role { if isInterface then Purely else Overriding }

  function DirectSigs(m: Method): seq<Sig> { if m.Kind() == Unary then [SyncSig(m)] else [] }

  function RawSigs(m: Method, ps: Parameters, isInterface: bool): seq<Sig> {
    (if m.Kind() == Unary then [] else [RawSig(m, isInterface)]) +
    (if ps.allowCqApi then [AsyncRawSig(m, 0, isInterface)] + [AsyncRawSig(m, 1, isInterface)] else [])
  }

  function WrapperSigs(m: Method, ps: Parameters, isInterface: bool): seq<Sig> {
    (if m.Kind() == Unary then [] else [WrapperSig(m, isInterface)]) +
    (if ps.allowCqApi then [AsyncWrapperSig(m, 0, isInterface)] + [AsyncWrapperSig(m, 1, isInterface)] else [])
  }

  function CallbackSigsOf(m: Method): seq<Sig> { [CallbackSig(m)] + if m.Kind() == Unary then [ReactorSig(m)] else [] }

  lemma PairSigs(role: Role, a: Sig, call: Fact)
    requires call.Call?
    ensures Sigs(role, [InlineDecl(a)] + [call]) == if role == Inlined then [a] else []
  {
    SigsConcat(role, [InlineDecl(a)], [call]);
    SigsOne(role, InlineDecl(a));
    SigsOne(role, call);
  }

  lemma OwnSig(role: Role, isInterface: bool, a: Sig)
    ensures Sigs(role, DeclaredAs(isInterface, a)) == if role == OwnRole(isInterface) then [a] else []
  {
    SigsOne(role, DeclaredAs(isInterface, a)[0]);
  }

  lemma PublicSigs(role: Role, m: Method, ps: Parameters, isInterface: bool)
    ensures Sigs(role, PublicFacts(m, ps, isInterface)) ==
            if role == OwnRole(isInterface) then DirectSigs(m)
            else if role == Inlined then WrapperSigs(m, ps, isInterface) else []
  {
    hide Sigs, DeclaredAs, SyncSig, WrapperSig, AsyncWrapperSig;
    var first := if m.Kind() == Unary then DeclaredAs(isInterface, SyncSig(m)) else WrapperPair(m, isInterface);
    OwnSig(role, isInterface, SyncSig(m));
    PairSigs(role, WrapperSig(m, isInterface), WrapperCall(m, isInterface));
    PairSigs(role, AsyncWrapperSig(m, 0, isInterface), AsyncWrapperCall(m, 0, isInterface));
    PairSigs(role, AsyncWrapperSig(m, 1, isInterface), AsyncWrapperCall(m, 1, isInterface));
    SigsConcat(role, AsyncWrapperPair(m, 0, isInterface), AsyncWrapperPair(m, 1, isInterface));
    SigsConcat(role, first, AsyncWrapperPair(m, 0, isInterface) + AsyncWrapperPair(m, 1, isInterface));
    assert first + [] == first;
  }

  lemma PrivateSigs(role: Role, m: Method, ps: Parameters, isInterface: bool)
    ensures Sigs(role, PrivateFacts(m, ps, isInterface)) ==
            if role == OwnRole(isInterface) then RawSigs(m, ps, isInterface) else []
  {
    hide DeclaredAs, RawSig, AsyncRawSig;
    var first := if m.Kind() == Unary then [] else DeclaredAs(isInterface, RawSig(m, isInterface));
    var a, b := DeclaredAs(isInterface, AsyncRawSig(m, 0, isInterface)),
      DeclaredAs(isInterface, AsyncRawSig(m, 1, isInterface));
    OwnSig(role, isInterface, RawSig(m, isInterface));
    OwnSig(role, isInterface, AsyncRawSig(m, 0, isInterface));
    OwnSig(role, isInterface, AsyncRawSig(m, 1, isInterface));
    SigsConcat(role, a, b);
    SigsConcat(role, first, a + b);
    assert first + [] == first;
  }

  lemma CallbackRoleSigs(role: Role, m: Method, isInterface: bool)
    ensures Sigs(role, CallbackFacts(m, isInterface)) == if role == OwnRole(isInterface) then CallbackSigsOf(m) else []
  {
    hide DeclaredAs, CallbackSig, ReactorSig;
    var first := DeclaredAs(isInterface, CallbackSig(m));
    OwnSig(role, isInterface, CallbackSig(m));
    OwnSig(role, isInterface, ReactorSig(m));
    SigsConcat(role, first, DeclaredAs(isInterface, ReactorSig(m)));
    assert first + [] == first;
  }

  // What one round of a client pass declares in each role.
  function RoundSigs(pass: Pass, role: Role, m: Method, ps: Parameters): seq<Sig> {
    match pass
    case InterfacePublic => if role == Purely then DirectSigs(m) else if role == Inlined then WrapperSigs(m, ps, true)
      else []
    case StubPublic => if role == Overriding then DirectSigs(m) else if role == Inlined then WrapperSigs(m, ps, false)
      else []
    case InterfacePrivate => if role == Purely then RawSigs(m, ps, true) else []
    case StubPrivate => if role == Overriding then RawSigs(m, ps, false) else []
    case CallbackInterfaces => if role == Purely then CallbackSigsOf(m) else []
    case Callbacks => if role == Overriding then CallbackSigsOf(m) else []
    case _ => []
  }

  predicate ClientPass(pass: Pass) {
    pass in {InterfacePublic, StubPublic, InterfacePrivate, StubPrivate, CallbackInterfaces, Callbacks, StubMembers}
  }

  function RoundsSigs(pass: Pass, role: Role, ms: seq<Method>, ps: Parameters, n: nat): seq<Sig>
    requires n <= |ms|
  {
    if n == 0 then [] else RoundsSigs(pass, role, ms, ps, n - 1) + RoundSigs(pass, role, ms[n - 1], ps)
  }

  lemma RoundSigsFound(pass: Pass, role: Role, m: Method, i: nat, ps: Parameters)
    requires ClientPass(pass)
    ensures Sigs(role, RoundFacts(pass, m, i, ps)) == RoundSigs(pass, role, m, ps)
  {
    hide Sigs, InterfacePublicFacts, StubPublicFacts, InterfacePrivateFacts, StubPrivateFacts, CallbackInterfaceFacts,
      CallbackStubFacts, PublicFacts, PrivateFacts, CallbackFacts, DirectSigs, RawSigs, WrapperSigs, CallbackSigsOf,
      RRefs;
    PublicPasses(m, ps);
    PrivatePasses(m, ps);
    CallbackPasses(m);
    var isInterface := pass == InterfacePublic || pass == InterfacePrivate || pass == CallbackInterfaces;
    PublicSigs(role, m, ps, isInterface);
    PrivateSigs(role, m, ps, isInterface);
    CallbackRoleSigs(role, m, isInterface);
    SigsOne(role, StubDataFacts(m)[0]);
  }

  lemma {:induction false} RoundsSigsFound(pass: Pass, role: Role, ms: seq<Method>, ps: Parameters, n: nat)
    requires ClientPass(pass) && n <= |ms|
    ensures Sigs(role, RoundsFacts(pass, ms, ps, n)) == RoundsSigs(pass, role, ms, ps, n)
  {
    hide RoundFacts, RoundSigs, SigIn;
    if n > 0 {
      RoundsSigsFound(pass, role, ms, ps, n - 1);
      RoundSigsFound(pass, role, ms[n - 1], n - 1, ps);
      SigsConcat(role, RoundsFacts(pass, ms, ps, n - 1), RoundFacts(pass, ms[n - 1], n - 1, ps));
    }
  }
}
