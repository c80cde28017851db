// The passes that emit the client half of a header. For each pass there is a
// function giving the output it adds, from the method alone, and the emitter: a
// method on the shared printer and the shared variable map.
module ClientHeader {
  import opened Schema
  import opened Emit
  import opened ClientTemplates

  // ---- Output of the passes ----

  // A declaration, an indented body line and a closing brace.
  function PutBlock(o: seq<Item>, ind: nat, decl: Form, body: Form, env: Env): seq<Item> {
    PutText(Put(Put(o, ind, decl, env), ind + 1, body, env), ind, CloseBrace)
  }

  // The first n rounds of a loop over async_prefixes.
  function AsyncBlocks(o: seq<Item>, ind: nat, m: Method, av: AsyncVars, decl: Form, body: Form, n: nat): seq<Item> {
    if n == 0 then o
    else PutBlock(AsyncBlocks(o, ind, m, av, decl, body, n - 1), ind, decl, body, AsyncEnv(m, Prefix(n - 1), av))
  }

  function AsyncLines(o: seq<Item>, ind: nat, m: Method, av: AsyncVars, f: Form, n: nat): seq<Item> {
    if n == 0 then o
    else Put(AsyncLines(o, ind, m, av, f, n - 1), ind, f, AsyncEnv(m, Prefix(n - 1), av))
  }

  lemma AsyncBlocksStep(o: seq<Item>, ind: nat, m: Method, av: AsyncVars, decl: Form, body: Form, i: nat)
    ensures AsyncBlocks(o, ind, m, av, decl, body, 0) == o
    ensures AsyncBlocks(o, ind, m, av, decl, body, i + 1) ==
            PutBlock(AsyncBlocks(o, ind, m, av, decl, body, i), ind, decl, body, AsyncEnv(m, Prefix(i), av))
  {
  }

  function InterfaceSyncOutput(o: seq<Item>, ind: nat, m: Method): seq<Item> {
    var k := m.Kind();
    if k == Unary then Put(o, ind, InterfaceSync(k), MethodEnv(m))
    else PutBlock(o, ind, InterfaceSync(k), InterfaceSyncForward(k), MethodEnv(m))
  }

  function InterfaceRawOutput(o: seq<Item>, ind: nat, m: Method): seq<Item> {
    var k := m.Kind();
    if k == Unary then o else Put(o, ind, InterfaceRaw(k), MethodEnv(m))
  }

  function InterfaceOutput(o: seq<Item>, ind: nat, m: Method, ps: Parameters, isPublic: bool): seq<Item> {
    var k := m.Kind();
    if isPublic then
      var o1 := InterfaceSyncOutput(o, ind, m);
      if ps.allowCqApi
      then AsyncBlocks(o1, ind, m, AsyncVarsOf(k), InterfaceAsync(k), InterfaceAsyncForward(k), 2) else o1
    else
      var o1 := InterfaceRawOutput(o, ind, m);
      if ps.allowCqApi then AsyncLines(o1, ind, m, RawVarsOf(k), InterfaceAsyncRaw(k), 2) else o1
  }

  function StubSyncOutput(o: seq<Item>, ind: nat, m: Method): seq<Item> {
    var k := m.Kind();
    if k == Unary then Put(o, ind, StubSync(k), MethodEnv(m))
    else PutBlock(o, ind, StubSync(k), StubSyncForward(k), MethodEnv(m))
  }

  function StubRawOutput(o: seq<Item>, ind: nat, m: Method): seq<Item> {
    var k := m.Kind();
    if k == Unary then o else Put(o, ind, StubRaw(k), MethodEnv(m))
  }

  function StubOutput(o: seq<Item>, ind: nat, m: Method, ps: Parameters, isPublic: bool): seq<Item> {
    var k := m.Kind();
    if isPublic then
      var o1 := StubSyncOutput(o, ind, m);
      if ps.allowCqApi then AsyncBlocks(o1, ind, m, AsyncVarsOf(k), StubAsync(k), StubAsyncForward(k), 2) else o1
    else
      var o1 := StubRawOutput(o, ind, m);
      if ps.allowCqApi then AsyncLines(o1, ind, m, AsyncVarsOf(k), StubAsyncRaw(k), 2) else o1
  }

  function CallbackInterfaceOutput(o: seq<Item>, ind: nat, m: Method): seq<Item> {
    var k := m.Kind();
    var o1 := Put(o, ind, CallbackInterface(k), MethodEnv(m));
    if k == Unary then Put(o1, ind, CallbackInterfaceReactor(), MethodEnv(m)) else o1
  }

  function CallbackStubOutput(o: seq<Item>, ind: nat, m: Method): seq<Item> {
    var k := m.Kind();
    var o1 := Put(o, ind, CallbackStub(k), MethodEnv(m));
    if k == Unary then Put(o1, ind, CallbackStubReactor(), MethodEnv(m)) else o1
  }

  function StubDataOutput(o: seq<Item>, ind: nat, m: Method): seq<Item> { Put(o, ind, StubData(), DataEnv(m)) }

  // ---- Emitters ----

  method PrintBlock(p: Printer, vars: Vars, decl: Form, body: Form, ghost env: Env)
    requires Agrees(vars.m, env) && Bound(decl, env) && Bound(body, env)
    modifies p
    ensures p.out == PutBlock(old(p.out), old(p.indent), decl, body, env) && p.indent == old(p.indent)
  {
    hide Put, Agrees;
    p.Print(vars, decl, env);
    p.Indent();
    p.Print(vars, body, env);
    p.Outdent();
    p.PrintText(CloseBrace);
  }

  method PrintAsyncBlocks(p: Printer, m: Method, vars: Vars, av: AsyncVars, decl: Form, body: Form)
    requires Agrees(vars.m, MethodEnv(m)) && AsyncBound(decl, m, av) && AsyncBound(body, m, av)
    modifies p, vars
    ensures p.out == AsyncBlocks(old(p.out), old(p.indent), m, av, decl, body, 2) && p.indent == old(p.indent)
    ensures OnlyLocals(old(vars.m), vars.m)
  {
    hide Put, PutBlock, AsyncBlocks, Agrees, Bound, AsyncBound, OnlyLocals, MethodEnv, AsyncEnv, Prefix;
    AsyncBlocksStep(p.out, p.indent, m, av, decl, body, 0);
    NothingSet(vars.m);
    for i := 0 to 2
      invariant p.out == AsyncBlocks(old(p.out), old(p.indent), m, av, decl, body, i) && p.indent == old(p.indent)
      invariant Agrees(vars.m, MethodEnv(m)) && OnlyLocals(old(vars.m), vars.m)
    {
      ghost var before := vars.m;
      SetAsyncPrefix(vars, m, Prefix(i), av);
      OnlyLocalsTrans(old(vars.m), before, vars.m);
      AsyncBlocksStep(old(p.out), p.indent, m, av, decl, body, i);
      AsyncBoundAt(decl, m, av, i);
      AsyncBoundAt(body, m, av, i);
      PrintBlock(p, vars, decl, body, AsyncEnv(m, Prefix(i), av));
    }
  }

  method PrintAsyncLines(p: Printer, m: Method, vars: Vars, av: AsyncVars, f: Form)
    requires Agrees(vars.m, MethodEnv(m)) && AsyncBound(f, m, av)
    modifies p, vars
    ensures p.out == AsyncLines(old(p.out), old(p.indent), m, av, f, 2) && p.indent == old(p.indent)
    ensures OnlyLocals(old(vars.m), vars.m)
  {
    hide Put, Agrees, Bound, AsyncBound, Local, MethodEnv, AsyncEnv, Prefix;
    for i := 0 to 2
      invariant p.out == AsyncLines(old(p.out), old(p.indent), m, av, f, i) && p.indent == old(p.indent)
      invariant Agrees(vars.m, MethodEnv(m))
      invariant OnlyLocals(old(vars.m), vars.m)
    {
      SetAsyncPrefix(vars, m, Prefix(i), av);
      AsyncBoundAt(f, m, av, i);
      p.Print(vars, f, AsyncEnv(m, Prefix(i), av));
    }
  }

  method PrintHeaderClientMethodInterfaces(p: Printer, m: Method, ps: Parameters, vars: Vars, isPublic: bool)
    modifies p, vars
    ensures p.out == InterfaceOutput(old(p.out), old(p.indent), m, ps, isPublic) && p.indent == old(p.indent)
    ensures OnlyLocals(old(vars.m), vars.m)
  {
    hide Put, PutBlock, AsyncBlocks, AsyncLines, Agrees, Bound, Local, MethodEnv, AsyncEnv, AsyncBound,
      InterfaceSync, InterfaceSyncForward, InterfaceAsync, InterfaceAsyncForward, InterfaceRaw, InterfaceAsyncRaw;
    SetMethod(vars, m);
    ghost var env := MethodEnv(m);
    InterfaceBound(m.Kind(), m);
    InterfaceAsyncBound(m.Kind(), m);
    InterfaceAsyncRawBound(m.Kind(), m);
    if isPublic {
      if m.NoStreaming() {
        p.Print(vars, InterfaceSync(Unary), env);
        if ps.allowCqApi {
          PrintAsyncBlocks(p, m, vars, PrefixOnly, InterfaceAsync(Unary), InterfaceAsyncForward(Unary));
        }
      } else if m.ClientOnlyStreaming() {
        PrintBlock(p, vars, InterfaceSync(ClientStreaming), InterfaceSyncForward(ClientStreaming), env);
        if ps.allowCqApi {
          PrintAsyncBlocks(p, m, vars, AllAsyncVars, InterfaceAsync(ClientStreaming),
            InterfaceAsyncForward(ClientStreaming));
        }
      } else if m.ServerOnlyStreaming() {
        PrintBlock(p, vars, InterfaceSync(ServerStreaming), InterfaceSyncForward(ServerStreaming), env);
        if ps.allowCqApi {
          PrintAsyncBlocks(p, m, vars, AllAsyncVars, InterfaceAsync(ServerStreaming),
            InterfaceAsyncForward(ServerStreaming));
        }
      } else if m.IsBidiStreaming() {
        PrintBlock(p, vars, InterfaceSync(BidiStreaming), InterfaceSyncForward(BidiStreaming), env);
        if ps.allowCqApi {
          PrintAsyncBlocks(p, m, vars, AllAsyncVars, InterfaceAsync(BidiStreaming),
            InterfaceAsyncForward(BidiStreaming));
        }
      }
    } else {
      if m.NoStreaming() {
        if ps.allowCqApi {
          PrintAsyncLines(p, m, vars, PrefixOnly, InterfaceAsyncRaw(Unary));
        }
      } else if m.ClientOnlyStreaming() {
        p.Print(vars, InterfaceRaw(ClientStreaming), env);
        if ps.allowCqApi {
          PrintAsyncLines(p, m, vars, PrefixAndParams, InterfaceAsyncRaw(ClientStreaming));
        }
      } else if m.ServerOnlyStreaming() {
        p.Print(vars, InterfaceRaw(ServerStreaming), env);
        if ps.allowCqApi {
          PrintAsyncLines(p, m, vars, PrefixAndParams, InterfaceAsyncRaw(ServerStreaming));
        }
      } else if m.IsBidiStreaming() {
        p.Print(vars, InterfaceRaw(BidiStreaming), env);
        if ps.allowCqApi {
          PrintAsyncLines(p, m, vars, PrefixAndParams, InterfaceAsyncRaw(BidiStreaming));
        }
      }
    }
  }

  method PrintHeaderClientMethod(p: Printer, m: Method, ps: Parameters, vars: Vars, isPublic: bool)
    modifies p, vars
    ensures p.out == StubOutput(old(p.out), old(p.indent), m, ps, isPublic) && p.indent == old(p.indent)
    ensures OnlyLocals(old(vars.m), vars.m)
  {
    hide Put, PutBlock, AsyncBlocks, AsyncLines, Agrees, Bound, Local, MethodEnv, AsyncEnv, AsyncBound,
      StubSync, StubSyncForward, StubAsync, StubAsyncForward, StubRaw, StubAsyncRaw;
    SetMethod(vars, m);
    ghost var env := MethodEnv(m);
    StubBound(m.Kind(), m);
    StubAsyncBound(m.Kind(), m);
    StubAsyncRawBound(m.Kind(), m);
    if isPublic {
      if m.NoStreaming() {
        p.Print(vars, StubSync(Unary), env);
        if ps.allowCqApi {
          PrintAsyncBlocks(p, m, vars, PrefixOnly, StubAsync(Unary), StubAsyncForward(Unary));
        }
      } else if m.ClientOnlyStreaming() {
        PrintBlock(p, vars, StubSync(ClientStreaming), StubSyncForward(ClientStreaming), env);
        if ps.allowCqApi {
          PrintAsyncBlocks(p, m, vars, AllAsyncVars, StubAsync(ClientStreaming), StubAsyncForward(ClientStreaming));
        }
      } else if m.ServerOnlyStreaming() {
        PrintBlock(p, vars, StubSync(ServerStreaming), StubSyncForward(ServerStreaming), env);
        if ps.allowCqApi {
          PrintAsyncBlocks(p, m, vars, AllAsyncVars, StubAsync(ServerStreaming), StubAsyncForward(ServerStreaming));
        }
      } else if m.IsBidiStreaming() {
        PrintBlock(p, vars, StubSync(BidiStreaming), StubSyncForward(BidiStreaming), env);
        if ps.allowCqApi {
          PrintAsyncBlocks(p, m, vars, AllAsyncVars, StubAsync(BidiStreaming), StubAsyncForward(BidiStreaming));
        }
      }
    } else {
      if m.NoStreaming() {
        if ps.allowCqApi {
          PrintAsyncLines(p, m, vars, PrefixOnly, StubAsyncRaw(Unary));
        }
      } else if m.ClientOnlyStreaming() {
        p.Print(vars, StubRaw(ClientStreaming), env);
        if ps.allowCqApi {
          PrintAsyncLines(p, m, vars, AllAsyncVars, StubAsyncRaw(ClientStreaming));
        }
      } else if m.ServerOnlyStreaming() {
        p.Print(vars, StubRaw(ServerStreaming), env);
        if ps.allowCqApi {
          PrintAsyncLines(p, m, vars, AllAsyncVars, StubAsyncRaw(ServerStreaming));
        }
      } else if m.IsBidiStreaming() {
        p.Print(vars, StubRaw(BidiStreaming), env);
        if ps.allowCqApi {
          PrintAsyncLines(p, m, vars, AllAsyncVars, StubAsyncRaw(BidiStreaming));
        }
      }
    }
  }

  method PrintHeaderClientMethodCallbackInterfaces(p: Printer, m: Method, vars: Vars)
    modifies p, vars
    ensures p.out == CallbackInterfaceOutput(old(p.out), old(p.indent), m) && p.indent == old(p.indent)
    ensures OnlyLocals(old(vars.m), vars.m)
  {
    hide Put, Agrees, Bound, Local, MethodEnv, CallbackInterface, CallbackInterfaceReactor;
    SetMethod(vars, m);
    CallbackBound(m.Kind(), m);
    if m.NoStreaming() {
      p.Print(vars, CallbackInterface(Unary), MethodEnv(m));
      p.Print(vars, CallbackInterfaceReactor(), MethodEnv(m));
    } else if m.ClientOnlyStreaming() {
      p.Print(vars, CallbackInterface(ClientStreaming), MethodEnv(m));
    } else if m.ServerOnlyStreaming() {
      p.Print(vars, CallbackInterface(ServerStreaming), MethodEnv(m));
    } else if m.IsBidiStreaming() {
      p.Print(vars, CallbackInterface(BidiStreaming), MethodEnv(m));
    }
  }

  method PrintHeaderClientMethodCallback(p: Printer, m: Method, vars: Vars)
    modifies p, vars
    ensures p.out == CallbackStubOutput(old(p.out), old(p.indent), m) && p.indent == old(p.indent)
    ensures OnlyLocals(old(vars.m), vars.m)
  {
    hide Put, Agrees, Bound, Local, MethodEnv, CallbackStub, CallbackStubReactor;
    SetMethod(vars, m);
    CallbackBound(m.Kind(), m);
    if m.NoStreaming() {
      p.Print(vars, CallbackStub(Unary), MethodEnv(m));
      p.Print(vars, CallbackStubReactor(), MethodEnv(m));
    } else if m.ClientOnlyStreaming() {
      p.Print(vars, CallbackStub(ClientStreaming), MethodEnv(m));
    } else if m.ServerOnlyStreaming() {
      p.Print(vars, CallbackStub(ServerStreaming), MethodEnv(m));
    } else if m.IsBidiStreaming() {
      p.Print(vars, CallbackStub(BidiStreaming), MethodEnv(m));
    }
  }

  method PrintHeaderClientMethodData(p: Printer, m: Method, vars: Vars)
    modifies p, vars
    ensures p.out == StubDataOutput(old(p.out), old(p.indent), m) && p.indent == old(p.indent)
    ensures vars.m == old(vars.m)[VMethod := m.name] && OnlyLocals(old(vars.m), vars.m)
  {
    hide Put, Bound, MethodEnv, StubData;
    vars.m := vars.m[VMethod := m.name];
    CallbackBound(m.Kind(), m);
    p.Print(vars, StubData(), DataEnv(m));
  }

  // ---- The fixed text around the callback passes ----

  function CallbackInterfacesStart(o: seq<Item>, ind: nat): seq<Item> {
    PutText(PutText(Put(o, ind, Class(PlainClass, [S("async_interface")], []), map[]), ind, PublicLabel),
            ind + 1, AsyncInterfaceDtor)
  }

  method PrintHeaderClientMethodCallbackInterfacesStart(p: Printer)
    modifies p
    ensures p.out == CallbackInterfacesStart(old(p.out), old(p.indent)) && p.indent == old(p.indent) + 1
  {
    p.PrintForm(Class(PlainClass, [S("async_interface")], []));
    hide Put;
    p.PrintText(PublicLabel);
    p.Indent();
    p.PrintText(AsyncInterfaceDtor);
  }

  function CallbackInterfacesEnd(o: seq<Item>, ind: nat): seq<Item> {
    PutText(PutText(PutText(PutText(o, ind, CloseClass), ind, ExperimentalAsyncTypedef), ind, AsyncAccessor),
            ind, ExperimentalAsyncAccessor)
  }

  method PrintHeaderClientMethodCallbackInterfacesEnd(p: Printer)
    requires p.indent > 0
    modifies p
    ensures p.out == CallbackInterfacesEnd(old(p.out), old(p.indent) - 1) && p.indent == old(p.indent) - 1
  {
    hide Put;
    p.Outdent();
    p.PrintText(CloseClass);
    p.PrintText(ExperimentalAsyncTypedef);
    p.PrintText(AsyncAccessor);
    p.PrintText(ExperimentalAsyncAccessor);
  }

  function CallbackStart(o: seq<Item>, ind: nat): seq<Item> {
    PutText(PutText(Put(o, ind, Class(AsyncClass, [S("async")], []), map[]), ind, AsyncBase), ind, PublicLabel)
  }

  method PrintHeaderClientMethodCallbackStart(p: Printer)
    modifies p
    ensures p.out == CallbackStart(old(p.out), old(p.indent)) && p.indent == old(p.indent) + 1
  {
    p.PrintForm(Class(AsyncClass, [S("async")], []));
    hide Put;
    p.PrintText(AsyncBase);
    p.PrintText(PublicLabel);
    p.Indent();
  }

  function CallbackEnd(o: seq<Item>, ind: nat): seq<Item> {
    var o1 := PutText(o, ind, PrivateLabel);
    var o2 := PutText(PutText(PutText(PutText(o1, ind + 1, FriendStub), ind + 1, AsyncCtor), ind + 1, StubAccessor),
                      ind + 1, StubField);
    PutText(PutText(o2, ind, CloseClass), ind, StubAsyncAccessor)
  }

  method PrintHeaderClientMethodCallbackEnd(p: Printer)
    requires p.indent > 0
    modifies p
    ensures p.out == CallbackEnd(old(p.out), old(p.indent) - 1) && p.indent == old(p.indent) - 1
  {
    hide Put;
    p.Outdent();
    p.PrintText(PrivateLabel);
    p.Indent();
    p.PrintText(FriendStub);
    p.PrintText(AsyncCtor);
    p.PrintText(StubAccessor);
    p.PrintText(StubField);
    p.Outdent();
    p.PrintText(CloseClass);
    p.PrintText(StubAsyncAccessor);
  }
}
