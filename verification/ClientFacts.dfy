// What the reader finds in the client half of a header, pass by pass.
module ClientFacts {
  import opened Schema
  import opened Emit
  import opened Structure
  import opened ClientTemplates
  import opened ClientHeader

  function CallOf(f: Form): Fact
    requires f.Forward?
  {
    Call(f.ret, f.callee, f.argc, f.extra)
  }

  // An inline function that forwards to another one.
  predicate IsWrapper(decl: Form, body: Form) { decl.Decl? && decl.tail == Open && decl.qual == [] && body.Forward? }

  function WrapperFacts(decl: Form, body: Form, env: Env): seq<Fact>
    requires IsWrapper(decl, body)
  {
    Noted(Render(decl, env), false) + [CallOf(Render(body, env))]
  }

  function AsyncBlocksFacts(m: Method, av: AsyncVars, decl: Form, body: Form, n: nat): seq<Fact>
    requires IsWrapper(decl, body)
  {
    if n == 0 then []
    else AsyncBlocksFacts(m, av, decl, body, n - 1) + WrapperFacts(decl, body, AsyncEnv(m, Prefix(n - 1), av))
  }

  function AsyncLinesFacts(m: Method, av: AsyncVars, f: Form, n: nat): seq<Fact>
    requires f.Decl?
  {
    if n == 0 then [] else AsyncLinesFacts(m, av, f, n - 1) + DeclFacts(f, AsyncEnv(m, Prefix(n - 1), av))
  }

  function InterfacePublicFacts(m: Method, ps: Parameters): seq<Fact> {
    var k := m.Kind();
    (if k == Unary then DeclFacts(InterfaceSync(k), MethodEnv(m))
     else WrapperFacts(InterfaceSync(k), InterfaceSyncForward(k), MethodEnv(m))) +
    (if ps.allowCqApi then AsyncBlocksFacts(m, AsyncVarsOf(k), InterfaceAsync(k), InterfaceAsyncForward(k), 2) else [])
  }

  function InterfacePrivateFacts(m: Method, ps: Parameters): seq<Fact> {
    var k := m.Kind();
    (if k == Unary then [] else DeclFacts(InterfaceRaw(k), MethodEnv(m))) +
    (if ps.allowCqApi then AsyncLinesFacts(m, RawVarsOf(k), InterfaceAsyncRaw(k), 2) else [])
  }

  function StubPublicFacts(m: Method, ps: Parameters): seq<Fact> {
    var k := m.Kind();
    (if k == Unary then DeclFacts(StubSync(k), MethodEnv(m))
     else WrapperFacts(StubSync(k), StubSyncForward(k), MethodEnv(m))) +
    (if ps.allowCqApi then AsyncBlocksFacts(m, AsyncVarsOf(k), StubAsync(k), StubAsyncForward(k), 2) else [])
  }

  function StubPrivateFacts(m: Method, ps: Parameters): seq<Fact> {
    var k := m.Kind();
    (if k == Unary then [] else DeclFacts(StubRaw(k), MethodEnv(m))) +
    (if ps.allowCqApi then AsyncLinesFacts(m, AsyncVarsOf(k), StubAsyncRaw(k), 2) else [])
  }

  function CallbackInterfaceFacts(m: Method): seq<Fact> {
    DeclFacts(CallbackInterface(m.Kind()), MethodEnv(m)) +
    (if m.Kind() == Unary then DeclFacts(CallbackInterfaceReactor(), MethodEnv(m)) else [])
  }

  function CallbackStubFacts(m: Method): seq<Fact> {
    DeclFacts(CallbackStub(m.Kind()), MethodEnv(m)) +
    (if m.Kind() == Unary then DeclFacts(CallbackStubReactor(), MethodEnv(m)) else [])
  }

  function StubDataFacts(m: Method): seq<Fact> { [Member(RRefs([S("rpcmethod_"), V(VMethod), S("_")], DataEnv(m)))] }

  // ---- The reader finds them. ----

  lemma WrapperRead(o: seq<Item>, ind: nat, decl: Form, body: Form, env: Env)
    requires Ready(After(o)) && IsWrapper(decl, body)
    ensures After(PutBlock(o, ind, decl, body, env)) == Plus(After(o), WrapperFacts(decl, body, env))
  {
    hide After, Put, RRefs, RTys, RTy;
    AfterDecl(o, ind, decl, env);
    var o1 := Put(o, ind, decl, env);
    AfterPut(o1, ind + 1, body, env);
    var o2 := Put(o1, ind + 1, body, env);
    AfterText(o2, ind, CloseBrace);
    PlusPlus(After(o), Noted(Render(decl, env), false), [CallOf(Render(body, env))]);
    LeaveBlock(Plus(After(o), Noted(Render(decl, env), false)), [CallOf(Render(body, env))]);
  }

  lemma AsyncBlocksRead(o: seq<Item>, ind: nat, m: Method, av: AsyncVars, decl: Form, body: Form, n: nat)
    requires Ready(After(o)) && IsWrapper(decl, body)
    ensures After(AsyncBlocks(o, ind, m, av, decl, body, n)) == Plus(After(o), AsyncBlocksFacts(m, av, decl, body, n))
  {
    hide After, PutBlock, WrapperFacts, IsWrapper;
    if n == 0 {
      PlusNothing(After(o));
    } else {
      AsyncBlocksRead(o, ind, m, av, decl, body, n - 1);
      var env := AsyncEnv(m, Prefix(n - 1), av);
      WrapperRead(AsyncBlocks(o, ind, m, av, decl, body, n - 1), ind, decl, body, env);
      PlusPlus(After(o), AsyncBlocksFacts(m, av, decl, body, n - 1), WrapperFacts(decl, body, env));
    }
  }

  lemma AsyncLinesRead(o: seq<Item>, ind: nat, m: Method, av: AsyncVars, f: Form, n: nat)
    requires Ready(After(o)) && f.Decl? && f.tail != Open
    ensures After(AsyncLines(o, ind, m, av, f, n)) == Plus(After(o), AsyncLinesFacts(m, av, f, n))
  {
    hide After, Put, DeclFacts;
    if n == 0 {
      PlusNothing(After(o));
    } else {
      AsyncLinesRead(o, ind, m, av, f, n - 1);
      var env := AsyncEnv(m, Prefix(n - 1), av);
      DeclRead(AsyncLines(o, ind, m, av, f, n - 1), ind, f, env);
      PlusPlus(After(o), AsyncLinesFacts(m, av, f, n - 1), DeclFacts(f, env));
    }
  }

  lemma InterfacePublicRead(o: seq<Item>, ind: nat, m: Method, ps: Parameters)
    requires Ready(After(o))
    ensures After(InterfaceOutput(o, ind, m, ps, true)) == Plus(After(o), InterfacePublicFacts(m, ps))
  {
    hide After, Put, PutBlock, AsyncBlocks, AsyncBlocksFacts, WrapperFacts, DeclFacts;
    var k := m.Kind();
    if k == Unary {
      DeclRead(o, ind, InterfaceSync(k), MethodEnv(m));
    } else {
      WrapperRead(o, ind, InterfaceSync(k), InterfaceSyncForward(k), MethodEnv(m));
    }
    var o1 := InterfaceSyncOutput(o, ind, m);
    var fs := if k == Unary then DeclFacts(InterfaceSync(k), MethodEnv(m))
              else WrapperFacts(InterfaceSync(k), InterfaceSyncForward(k), MethodEnv(m));
    if ps.allowCqApi {
      AsyncBlocksRead(o1, ind, m, AsyncVarsOf(k), InterfaceAsync(k), InterfaceAsyncForward(k), 2);
      PlusPlus(After(o), fs, AsyncBlocksFacts(m, AsyncVarsOf(k), InterfaceAsync(k), InterfaceAsyncForward(k), 2));
    } else {
      assert fs + [] == fs;
    }
  }

  lemma InterfacePrivateRead(o: seq<Item>, ind: nat, m: Method, ps: Parameters)
    requires Ready(After(o))
    ensures After(InterfaceOutput(o, ind, m, ps, false)) == Plus(After(o), InterfacePrivateFacts(m, ps))
  {
    hide After, Put, AsyncLines, AsyncLinesFacts, DeclFacts;
    var k := m.Kind();
    if k == Unary {
      PlusNothing(After(o));
    } else {
      DeclRead(o, ind, InterfaceRaw(k), MethodEnv(m));
    }
    var o1 := InterfaceRawOutput(o, ind, m);
    var fs := if k == Unary then [] else DeclFacts(InterfaceRaw(k), MethodEnv(m));
    if ps.allowCqApi {
      AsyncLinesRead(o1, ind, m, RawVarsOf(k), InterfaceAsyncRaw(k), 2);
      PlusPlus(After(o), fs, AsyncLinesFacts(m, RawVarsOf(k), InterfaceAsyncRaw(k), 2));
    } else {
      assert fs + [] == fs;
    }
  }

  lemma StubPublicRead(o: seq<Item>, ind: nat, m: Method, ps: Parameters)
    requires Ready(After(o))
    ensures After(StubOutput(o, ind, m, ps, true)) == Plus(After(o), StubPublicFacts(m, ps))
  {
    hide After, Put, PutBlock, AsyncBlocks, AsyncBlocksFacts, WrapperFacts, DeclFacts;
    var k := m.Kind();
    if k == Unary {
      DeclRead(o, ind, StubSync(k), MethodEnv(m));
    } else {
      WrapperRead(o, ind, StubSync(k), StubSyncForward(k), MethodEnv(m));
    }
    var o1 := StubSyncOutput(o, ind, m);
    var fs := if k == Unary then DeclFacts(StubSync(k), MethodEnv(m))
              else WrapperFacts(StubSync(k), StubSyncForward(k), MethodEnv(m));
    if ps.allowCqApi {
      AsyncBlocksRead(o1, ind, m, AsyncVarsOf(k), StubAsync(k), StubAsyncForward(k), 2);
      PlusPlus(After(o), fs, AsyncBlocksFacts(m, AsyncVarsOf(k), StubAsync(k), StubAsyncForward(k), 2));
    } else {
      assert fs + [] == fs;
    }
  }

  lemma StubPrivateRead(o: seq<Item>, ind: nat, m: Method, ps: Parameters)
    requires Ready(After(o))
    ensures After(StubOutput(o, ind, m, ps, false)) == Plus(After(o), StubPrivateFacts(m, ps))
  {
    hide After, Put, AsyncLines, AsyncLinesFacts, DeclFacts;
    var k := m.Kind();
    if k == Unary {
      PlusNothing(After(o));
    } else {
      DeclRead(o, ind, StubRaw(k), MethodEnv(m));
    }
    var o1 := StubRawOutput(o, ind, m);
    var fs := if k == Unary then [] else DeclFacts(StubRaw(k), MethodEnv(m));
    if ps.allowCqApi {
      AsyncLinesRead(o1, ind, m, AsyncVarsOf(k), StubAsyncRaw(k), 2);
      PlusPlus(After(o), fs, AsyncLinesFacts(m, AsyncVarsOf(k), StubAsyncRaw(k), 2));
    } else {
      assert fs + [] == fs;
    }
  }

  lemma CallbackInterfaceRead(o: seq<Item>, ind: nat, m: Method)
    requires Ready(After(o))
    ensures After(CallbackInterfaceOutput(o, ind, m)) == Plus(After(o), CallbackInterfaceFacts(m))
  {
    hide After, Put, DeclFacts;
    var fs := DeclFacts(CallbackInterface(m.Kind()), MethodEnv(m));
    DeclRead(o, ind, CallbackInterface(m.Kind()), MethodEnv(m));
    if m.Kind() == Unary {
      DeclRead(Put(o, ind, CallbackInterface(m.Kind()), MethodEnv(m)), ind, CallbackInterfaceReactor(), MethodEnv(m));
      PlusPlus(After(o), fs, DeclFacts(CallbackInterfaceReactor(), MethodEnv(m)));
    } else {
      assert fs + [] == fs;
    }
  }

  lemma CallbackStubRead(o: seq<Item>, ind: nat, m: Method)
    requires Ready(After(o))
    ensures After(CallbackStubOutput(o, ind, m)) == Plus(After(o), CallbackStubFacts(m))
  {
    hide After, Put, DeclFacts;
    var fs := DeclFacts(CallbackStub(m.Kind()), MethodEnv(m));
    DeclRead(o, ind, CallbackStub(m.Kind()), MethodEnv(m));
    if m.Kind() == Unary {
      DeclRead(Put(o, ind, CallbackStub(m.Kind()), MethodEnv(m)), ind, CallbackStubReactor(), MethodEnv(m));
      PlusPlus(After(o), fs, DeclFacts(CallbackStubReactor(), MethodEnv(m)));
    } else {
      assert fs + [] == fs;
    }
  }

  lemma StubDataRead(o: seq<Item>, ind: nat, m: Method)
    requires Ready(After(o))
    ensures After(StubDataOutput(o, ind, m)) == Plus(After(o), StubDataFacts(m))
  {
    hide After, Put, RRefs;
    AfterPut(o, ind, StubData(), DataEnv(m));
  }
}
