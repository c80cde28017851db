// PrintSourceService and the passes it runs: what each adds to the output, and
// the emitters on the shared printer and variable map.
module SourceService {
  import opened Schema
  import opened Emit
  import opened SourceTemplates
  import opened Decimal

  // ---- Output ----

  // The head of a definition and the print that holds its body.
  function PutDefinition(o: seq<Item>, ind: nat, decl: Form, body: Form, env: Env): seq<Item> {
    Put(Put(o, ind, decl, env), ind, body, env)
  }

  function AsyncDefinitions(o: seq<Item>, ind: nat, outer: Env, m: Method, n: nat): seq<Item>
    requires m.Kind() != Unary
  {
    if n == 0 then o
    else
      PutDefinition(AsyncDefinitions(o, ind, outer, m, n - 1), ind, AsyncDefinition(m.Kind()), AsyncBody(m.Kind()),
                    AsyncDefinitionEnv(outer, m, SourcePrefixAt(n - 1)))
  }

  function CallbackDefinitions(o: seq<Item>, ind: nat, outer: Env, m: Method): seq<Item> {
    var env := outer + MethodEnv(m);
    var o1 := PutDefinition(o, ind, CallbackDefinition(m.Kind()), CallbackBody(m.Kind()), env);
    if m.Kind() == Unary then PutDefinition(o1, ind, ReactorDefinition(), ReactorBody(), env) else o1
  }

  function CqDefinitions(o: seq<Item>, ind: nat, outer: Env, m: Method): seq<Item> {
    if m.Kind() == Unary then
      var env := outer + MethodEnv(m);
      var o1 := PutDefinition(o, ind, UnaryAsyncDefinition("PrepareAsync"), PrepareBody(), env);
      PutDefinition(o1, ind, UnaryAsyncDefinition("Async"), StartBody(), env)
    else AsyncDefinitions(o, ind, outer, m, 2)
  }

  function ClientDefinitions(o: seq<Item>, ind: nat, outer: Env, m: Method, ps: Parameters): seq<Item> {
    var o1 := PutDefinition(o, ind, SyncDefinition(m.Kind()), SyncBody(m.Kind()), outer + MethodEnv(m));
    var o2 := CallbackDefinitions(o1, ind, outer, m);
    if ps.allowCqApi then CqDefinitions(o2, ind, outer, m) else o2
  }

  function Voided(o: seq<Item>, ind: nat, param: string): seq<Item> {
    Put(o, ind, Stmt(VoidParameter, [S(param)]), map[])
  }

  function ServerMethodHead(o: seq<Item>, ind: nat, outer: Env, m: Method, ps: Parameters): seq<Item> {
    var o1 := Put(o, ind, ServerDefinition(m.Kind()), outer + MethodEnv(m));
    Voided(if ps.allowSyncServerApi then o1 else PutText(o1, ind, Abort), ind, "context")
  }

  function ServerMethodEnd(o: seq<Item>, ind: nat): seq<Item> {
    PutText(PutText(o, ind, ReturnUnimplemented), ind, CloseBraceBlank)
  }

  function ServerMethod(o: seq<Item>, ind: nat, outer: Env, m: Method, ps: Parameters): seq<Item> {
    var o1 := ServerMethodHead(o, ind, outer, m, ps);
    var o2 := match m.Kind()
      case Unary => Voided(Voided(o1, ind, "request"), ind, "response")
      case ClientStreaming => Voided(Voided(o1, ind, "reader"), ind, "response")
      case ServerStreaming => Voided(Voided(o1, ind, "request"), ind, "writer")
      case BidiStreaming => Voided(o1, ind, "stream");
    ServerMethodEnd(o2, ind)
  }

  // The loops over a service's methods in the source generator.
  datatype SourcePass = TableEntries | StubInits | ClientMethods | AddMethods | ServerMethods

  function SourceRound(pass: SourcePass, o: seq<Item>, ind: nat, outer: Env, m: Method, i: nat,
      ps: Parameters): seq<Item> {
    match pass
    case TableEntries => Put(o, ind, EntryForm(), EntryEnv(outer, m))
    case StubInits => Put(o, ind, InitForm(), InitEnv(outer, m, Dec(i)))
    case ClientMethods => ClientDefinitions(o, ind, outer, m, ps)
    case AddMethods => Put(o, ind, AddMethodForm(m.Kind()), AddEnv(outer, m, Dec(i)))
    case ServerMethods => ServerMethod(o, ind, outer, m, ps)
  }

  function SourceRounds(pass: SourcePass, o: seq<Item>, ind: nat, outer: Env, ms: seq<Method>, ps: Parameters,
      n: nat): seq<Item>
    requires n <= |ms|
  {
    if n == 0 then o
    else SourceRound(pass, SourceRounds(pass, o, ind, outer, ms, ps, n - 1), ind, outer, ms[n - 1], n - 1, ps)
  }

  function SourceEvery(pass: SourcePass, o: seq<Item>, ind: nat, outer: Env, ms: seq<Method>,
      ps: Parameters): seq<Item> {
    SourceRounds(pass, o, ind, outer, ms, ps, |ms|)
  }

  function Table(o: seq<Item>, ind: nat, outer: Env, ms: seq<Method>, ps: Parameters): seq<Item> {
    if |ms| > 0
    then PutText(SourceEvery(TableEntries, Put(o, ind, TableHead(), outer), ind, outer, ms, ps), ind, CloseTable)
    else o
  }

  function StubCreation(o: seq<Item>, ind: nat, outer: Env, ms: seq<Method>, ps: Parameters): seq<Item> {
    var o1 := Put(Put(o, ind, NewStubDefinition(), outer), ind, StubCtorDefinition(), outer);
    PutText(SourceEvery(StubInits, PutText(o1, ind + 1, ChannelInit), ind + 1, outer, ms, ps), ind + 1, EmptyBody)
  }

  function ServiceCreation(o: seq<Item>, ind: nat, outer: Env, ms: seq<Method>, ps: Parameters): seq<Item> {
    var o1 := SourceEvery(AddMethods, Put(o, ind, ServiceCtorDefinition(), outer), ind + 1, outer, ms, ps);
    Put(PutText(o1, ind, CloseBraceBlank), ind, ServiceDtorDefinition(), outer)
  }

  function SourceServiceOutput(o: seq<Item>, ind: nat, outer: Env, ms: seq<Method>, ps: Parameters): seq<Item> {
    var o1 := StubCreation(Table(o, ind, outer, ms, ps), ind, outer, ms, ps);
    var o2 := ServiceCreation(SourceEvery(ClientMethods, o1, ind, outer, ms, ps), ind, outer, ms, ps);
    SourceEvery(ServerMethods, o2, ind, outer, ms, ps)
  }

  // ---- Emitters ----

  lemma AgreesBoth(m: Env, a: Env, b: Env)
    requires Agrees(m, a) && Agrees(m, b)
    ensures Agrees(m, a + b)
  {
  }

  // (*vars)["Method"], ["Request"] and ["Response"]; the service's variables stay.
  method SetSourceMethod(vars: Vars, m: Method, ghost outer: Env)
    requires Agrees(vars.m, outer) && HasOuter(outer)
    modifies vars
    ensures Agrees(vars.m, outer + MethodEnv(m)) && Agrees(vars.m, outer) && OnlyLocals(old(vars.m), vars.m)
  {
    SetMethod(vars, m);
    OuterKept(old(vars.m), vars.m, outer);
    AgreesBoth(vars.m, outer, MethodEnv(m));
  }

  method SetSourcePrefix(vars: Vars, ghost m: Method, a: SourcePrefix, ghost outer: Env)
    requires Agrees(vars.m, outer + MethodEnv(m)) && HasOuter(outer)
    modifies vars
    ensures Agrees(vars.m, AsyncDefinitionEnv(outer, m, a)) && Agrees(vars.m, outer + MethodEnv(m))
    ensures OnlyLocals(old(vars.m), vars.m)
  {
    vars.m := vars.m[VAsyncPrefix := a.prefix];
    vars.m := vars.m[VAsyncStart := a.start];
    vars.m := vars.m[VAsyncMethodParams := a.methodParams];
    vars.m := vars.m[VAsyncCreateArgs := a.createArgs];
  }

  method PrintDefinition(p: Printer, vars: Vars, decl: Form, body: Form, ghost env: Env)
    requires Agrees(vars.m, env) && Bound(decl, env) && Bound(body, env)
    modifies p
    ensures p.out == PutDefinition(old(p.out), old(p.indent), decl, body, env) && p.indent == old(p.indent)
  {
    hide Put, Agrees, Bound;
    p.Print(vars, decl, env);
    p.Print(vars, body, env);
  }

  method PrintAsyncDefinitions(p: Printer, m: Method, vars: Vars, ghost outer: Env, decl: Form, body: Form)
    requires m.Kind() != Unary && decl == AsyncDefinition(m.Kind()) && body == AsyncBody(m.Kind())
    requires Agrees(vars.m, outer + MethodEnv(m)) && HasOuter(outer)
    modifies p, vars
    ensures p.out == AsyncDefinitions(old(p.out), old(p.indent), outer, m, 2) && p.indent == old(p.indent)
    ensures OnlyLocals(old(vars.m), vars.m)
  {
    hide Put, PutDefinition, Agrees, Bound, OnlyLocals, HasOuter, MethodEnv, AsyncDefinition, AsyncBody,
      AsyncDefinitionEnv, SourcePrefixAt;
    NothingSet(vars.m);
    for i := 0 to 2
      invariant p.out == AsyncDefinitions(old(p.out), old(p.indent), outer, m, i) && p.indent == old(p.indent)
      invariant Agrees(vars.m, outer + MethodEnv(m)) && OnlyLocals(old(vars.m), vars.m)
    {
      ghost var before := vars.m;
      SetSourcePrefix(vars, m, SourcePrefixAt(i), outer);
      OnlyLocalsTrans(old(vars.m), before, vars.m);
      AsyncDefinitionBound(m.Kind(), outer, m, SourcePrefixAt(i));
      PrintDefinition(p, vars, decl, body, AsyncDefinitionEnv(outer, m, SourcePrefixAt(i)));
    }
  }

  method PrintSourceClientMethod(p: Printer, m: Method, ps: Parameters, vars: Vars, ghost outer: Env)
    requires Agrees(vars.m, outer) && HasOuter(outer)
    modifies p, vars
    ensures p.out == ClientDefinitions(old(p.out), old(p.indent), outer, m, ps) && p.indent == old(p.indent)
    ensures OnlyLocals(old(vars.m), vars.m)
  {
    hide Put, PutDefinition, AsyncDefinitions, Agrees, Bound, OnlyLocals, HasOuter, MethodEnv, SyncDefinition, SyncBody,
      CallbackDefinition, CallbackBody, ReactorDefinition, ReactorBody, UnaryAsyncDefinition, PrepareBody, StartBody,
      AsyncDefinition, AsyncBody;
    SetSourceMethod(vars, m, outer);
    ghost var env := outer + MethodEnv(m);
    ghost var before := vars.m;
    SyncDefinitionBound(m.Kind(), outer, m);
    CallbackDefinitionBound(m.Kind(), outer, m);
    if m.NoStreaming() {
      ReactorDefinitionBound(outer, m);
      PrintDefinition(p, vars, SyncDefinition(Unary), SyncBody(Unary), env);
      PrintDefinition(p, vars, CallbackDefinition(Unary), CallbackBody(Unary), env);
      PrintDefinition(p, vars, ReactorDefinition(), ReactorBody(), env);
      if ps.allowCqApi {
        UnaryAsyncBound("PrepareAsync", outer, m);
        UnaryAsyncBound("Async", outer, m);
        PrintDefinition(p, vars, UnaryAsyncDefinition("PrepareAsync"), PrepareBody(), env);
        PrintDefinition(p, vars, UnaryAsyncDefinition("Async"), StartBody(), env);
      }
    } else if m.ClientOnlyStreaming() {
      PrintDefinition(p, vars, SyncDefinition(ClientStreaming), SyncBody(ClientStreaming), env);
      PrintDefinition(p, vars, CallbackDefinition(ClientStreaming), CallbackBody(ClientStreaming), env);
      if ps.allowCqApi {
        PrintAsyncDefinitions(p, m, vars, outer, AsyncDefinition(ClientStreaming), AsyncBody(ClientStreaming));
        OnlyLocalsTrans(old(vars.m), before, vars.m);
      }
    } else if m.ServerOnlyStreaming() {
      PrintDefinition(p, vars, SyncDefinition(ServerStreaming), SyncBody(ServerStreaming), env);
      PrintDefinition(p, vars, CallbackDefinition(ServerStreaming), CallbackBody(ServerStreaming), env);
      if ps.allowCqApi {
        PrintAsyncDefinitions(p, m, vars, outer, AsyncDefinition(ServerStreaming), AsyncBody(ServerStreaming));
        OnlyLocalsTrans(old(vars.m), before, vars.m);
      }
    } else if m.IsBidiStreaming() {
      PrintDefinition(p, vars, SyncDefinition(BidiStreaming), SyncBody(BidiStreaming), env);
      PrintDefinition(p, vars, CallbackDefinition(BidiStreaming), CallbackBody(BidiStreaming), env);
      if ps.allowCqApi {
        PrintAsyncDefinitions(p, m, vars, outer, AsyncDefinition(BidiStreaming), AsyncBody(BidiStreaming));
        OnlyLocalsTrans(old(vars.m), before, vars.m);
      }
    }
  }

  method PrintVoided(p: Printer, param: string)
    modifies p
    ensures p.out == Voided(old(p.out), old(p.indent), param) && p.indent == old(p.indent)
  {
    p.PrintForm(Stmt(VoidParameter, [S(param)]));
  }

  method PrintServerMethodHead(p: Printer, m: Method, f: Form, ps: Parameters, vars: Vars, ghost outer: Env)
    requires f == ServerDefinition(m.Kind()) && Agrees(vars.m, outer + MethodEnv(m)) && HasOuter(outer)
    modifies p
    ensures p.out == ServerMethodHead(old(p.out), old(p.indent), outer, m, ps) && p.indent == old(p.indent)
  {
    hide Put, PutText, Voided, Agrees, Bound, HasOuter, MethodEnv, ServerDefinition;
    ServerDefinitionBound(m.Kind(), outer, m);
    p.Print(vars, f, outer + MethodEnv(m));
    if !ps.allowSyncServerApi {
      p.PrintText(Abort);
    }
    PrintVoided(p, "context");
  }

  method PrintServerMethodEnd(p: Printer)
    modifies p
    ensures p.out == ServerMethodEnd(old(p.out), old(p.indent)) && p.indent == old(p.indent)
  {
    hide PutText;
    p.PrintText(ReturnUnimplemented);
    p.PrintText(CloseBraceBlank);
  }

  method PrintSourceServerMethod(p: Printer, m: Method, ps: Parameters, vars: Vars, ghost outer: Env)
    requires Agrees(vars.m, outer) && HasOuter(outer)
    modifies p, vars
    ensures p.out == ServerMethod(old(p.out), old(p.indent), outer, m, ps) && p.indent == old(p.indent)
    ensures OnlyLocals(old(vars.m), vars.m)
  {
    hide Voided, ServerMethodHead, ServerMethodEnd, Agrees, OnlyLocals, HasOuter, MethodEnv, ServerDefinition;
    SetSourceMethod(vars, m, outer);
    if m.NoStreaming() {
      PrintServerMethodHead(p, m, ServerDefinition(Unary), ps, vars, outer);
      PrintVoided(p, "request");
      PrintVoided(p, "response");
      PrintServerMethodEnd(p);
    } else if m.ClientOnlyStreaming() {
      PrintServerMethodHead(p, m, ServerDefinition(ClientStreaming), ps, vars, outer);
      PrintVoided(p, "reader");
      PrintVoided(p, "response");
      PrintServerMethodEnd(p);
    } else if m.ServerOnlyStreaming() {
      PrintServerMethodHead(p, m, ServerDefinition(ServerStreaming), ps, vars, outer);
      PrintVoided(p, "request");
      PrintVoided(p, "writer");
      PrintServerMethodEnd(p);
    } else if m.IsBidiStreaming() {
      PrintServerMethodHead(p, m, ServerDefinition(BidiStreaming), ps, vars, outer);
      PrintVoided(p, "stream");
      PrintServerMethodEnd(p);
    }
  }

  method SetEntry(vars: Vars, m: Method, ghost outer: Env)
    requires Agrees(vars.m, outer) && HasOuter(outer)
    modifies vars
    ensures Agrees(vars.m, EntryEnv(outer, m)) && OnlyLocals(old(vars.m), vars.m)
  {
    vars.m := vars.m[VMethod := m.name];
  }

  method SetInit(vars: Vars, m: Method, i: nat, ghost outer: Env)
    requires Agrees(vars.m, outer) && HasOuter(outer)
    modifies vars
    ensures Agrees(vars.m, InitEnv(outer, m, Dec(i))) && OnlyLocals(old(vars.m), vars.m)
  {
    hide Dec;
    vars.m := vars.m[VMethod := m.name];
    vars.m := vars.m[VIdx := Dec(i)];
    vars.m := vars.m[VStreamingType :=
      if m.NoStreaming() then StreamingType(Unary)
      else if m.ClientOnlyStreaming() then StreamingType(ClientStreaming)
      else if m.ServerOnlyStreaming() then StreamingType(ServerStreaming)
      else StreamingType(BidiStreaming)];
  }

  method SetSourceIdx(vars: Vars, i: nat, ghost outer: Env)
    requires Agrees(vars.m, outer) && HasOuter(outer)
    modifies vars
    ensures Agrees(vars.m, outer) && OnlyLocals(old(vars.m), vars.m)
  {
    vars.m := vars.m[VIdx := Dec(i)];
  }

  method SetAdd(vars: Vars, m: Method, i: nat, ghost outer: Env)
    requires Agrees(vars.m, outer) && HasOuter(outer)
    modifies vars
    ensures Agrees(vars.m, AddEnv(outer, m, Dec(i))) && OnlyLocals(old(vars.m), vars.m)
  {
    hide Dec;
    vars.m := vars.m[VIdx := Dec(i)];
    SetMethod(vars, m);
  }

  // The body of the loop that runs `pass`.
  method PrintSourceRound(p: Printer, pass: SourcePass, m: Method, i: nat, ps: Parameters, vars: Vars, ghost outer: Env)
    requires Agrees(vars.m, outer) && HasOuter(outer)
    modifies p, vars
    ensures p.out == SourceRound(pass, old(p.out), old(p.indent), outer, m, i, ps) && p.indent == old(p.indent)
    ensures OnlyLocals(old(vars.m), vars.m)
  {
    hide Put, ClientDefinitions, ServerMethod, Agrees, Bound, OnlyLocals, HasOuter, EntryEnv, InitEnv, AddEnv,
      EntryForm, InitForm, AddMethodForm, Dec;
    match pass
    case TableEntries =>
      SetEntry(vars, m, outer);
      TableBound(outer, m, Dec(i));
      p.Print(vars, EntryForm(), EntryEnv(outer, m));
    case StubInits =>
      SetInit(vars, m, i, outer);
      TableBound(outer, m, Dec(i));
      p.Print(vars, InitForm(), InitEnv(outer, m, Dec(i)));
    case ClientMethods =>
      SetSourceIdx(vars, i, outer);
      ghost var before := vars.m;
      PrintSourceClientMethod(p, m, ps, vars, outer);
      OnlyLocalsTrans(old(vars.m), before, vars.m);
    case AddMethods =>
      SetAdd(vars, m, i, outer);
      AddMethodBound(m.Kind(), outer, m, Dec(i));
      if m.NoStreaming() {
        p.Print(vars, AddMethodForm(Unary), AddEnv(outer, m, Dec(i)));
      } else if m.ClientOnlyStreaming() {
        p.Print(vars, AddMethodForm(ClientStreaming), AddEnv(outer, m, Dec(i)));
      } else if m.ServerOnlyStreaming() {
        p.Print(vars, AddMethodForm(ServerStreaming), AddEnv(outer, m, Dec(i)));
      } else if m.IsBidiStreaming() {
        p.Print(vars, AddMethodForm(BidiStreaming), AddEnv(outer, m, Dec(i)));
      }
    case ServerMethods =>
      SetSourceIdx(vars, i, outer);
      ghost var before := vars.m;
      PrintSourceServerMethod(p, m, ps, vars, outer);
      OnlyLocalsTrans(old(vars.m), before, vars.m);
  }

  lemma SourceRoundsStep(pass: SourcePass, o: seq<Item>, ind: nat, outer: Env, ms: seq<Method>, ps: Parameters, i: nat)
    requires i < |ms|
    ensures SourceRounds(pass, o, ind, outer, ms, ps, 0) == o
    ensures SourceRounds(pass, o, ind, outer, ms, ps, i + 1) ==
            SourceRound(pass, SourceRounds(pass, o, ind, outer, ms, ps, i), ind, outer, ms[i], i, ps)
  {
  }

  lemma StillOuter(m: Env, m': Env, outer: Env)
    requires OnlyLocals(m, m') && Agrees(m, outer) && HasOuter(outer)
    ensures Agrees(m', outer)
  {
  }

  // for (int i = 0; i < service->method_count(); ++i)
  method PrintSourceEvery(p: Printer, pass: SourcePass, ms: seq<Method>, ps: Parameters, vars: Vars, ghost outer: Env)
    requires Agrees(vars.m, outer) && HasOuter(outer)
    modifies p, vars
    ensures p.out == SourceEvery(pass, old(p.out), old(p.indent), outer, ms, ps) && p.indent == old(p.indent)
    ensures Agrees(vars.m, outer) && OnlyLocals(old(vars.m), vars.m)
  {
    hide SourceRound, OnlyLocals, Agrees, HasOuter;
    NothingSet(vars.m);
    for i := 0 to |ms|
      invariant p.out == SourceRounds(pass, old(p.out), old(p.indent), outer, ms, ps, i) && p.indent == old(p.indent)
      invariant Agrees(vars.m, outer) && OnlyLocals(old(vars.m), vars.m)
    {
      ghost var before := vars.m;
      SourceRoundsStep(pass, old(p.out), old(p.indent), outer, ms, ps, i);
      PrintSourceRound(p, pass, ms[i], i, ps, vars, outer);
      StillOuter(before, vars.m, outer);
      OnlyLocalsTrans(old(vars.m), before, vars.m);
    }
  }

  method PrintTable(p: Printer, ms: seq<Method>, ps: Parameters, vars: Vars, ghost outer: Env)
    requires Agrees(vars.m, outer) && HasOuter(outer)
    modifies p, vars
    ensures p.out == Table(old(p.out), old(p.indent), outer, ms, ps) && p.indent == old(p.indent)
    ensures Agrees(vars.m, outer) && OnlyLocals(old(vars.m), vars.m)
  {
    hide Put, PutText, SourceEvery, OnlyLocals, Agrees, HasOuter, Bound, TableHead;
    NothingSet(vars.m);
    if |ms| > 0 {
      TableBound(outer, ms[0], "");
      p.Print(vars, TableHead(), outer);
      PrintSourceEvery(p, TableEntries, ms, ps, vars, outer);
      p.PrintText(CloseTable);
    }
  }

  method PrintStubCreation(p: Printer, ms: seq<Method>, ps: Parameters, vars: Vars, ghost outer: Env)
    requires Agrees(vars.m, outer) && HasOuter(outer)
    modifies p, vars
    ensures p.out == StubCreation(old(p.out), old(p.indent), outer, ms, ps) && p.indent == old(p.indent)
    ensures Agrees(vars.m, outer) && OnlyLocals(old(vars.m), vars.m)
  {
    hide Put, PutText, SourceEvery, OnlyLocals, Agrees, HasOuter, Bound, NewStubDefinition, StubCtorDefinition;
    OuterDefinitionsBound(outer);
    p.Print(vars, NewStubDefinition(), outer);
    p.Print(vars, StubCtorDefinition(), outer);
    p.Indent();
    p.PrintText(ChannelInit);
    PrintSourceEvery(p, StubInits, ms, ps, vars, outer);
    p.PrintText(EmptyBody);
    p.Outdent();
  }

  method PrintServiceCreation(p: Printer, ms: seq<Method>, ps: Parameters, vars: Vars, ghost outer: Env)
    requires Agrees(vars.m, outer) && HasOuter(outer)
    modifies p, vars
    ensures p.out == ServiceCreation(old(p.out), old(p.indent), outer, ms, ps) && p.indent == old(p.indent)
    ensures Agrees(vars.m, outer) && OnlyLocals(old(vars.m), vars.m)
  {
    hide Put, PutText, SourceEvery, OnlyLocals, Agrees, HasOuter, Bound, ServiceCtorDefinition, ServiceDtorDefinition;
    OuterDefinitionsBound(outer);
    p.Print(vars, ServiceCtorDefinition(), outer);
    p.Indent();
    PrintSourceEvery(p, AddMethods, ms, ps, vars, outer);
    p.Outdent();
    p.PrintText(CloseBraceBlank);
    p.Print(vars, ServiceDtorDefinition(), outer);
  }

  // The passes after (*vars)["Service"] is set.
  method PrintSourceMethods(p: Printer, ms: seq<Method>, ps: Parameters, vars: Vars, ghost outer: Env)
    requires Agrees(vars.m, outer) && HasOuter(outer)
    modifies p, vars
    ensures p.out == SourceServiceOutput(old(p.out), old(p.indent), outer, ms, ps) && p.indent == old(p.indent)
    ensures OnlyLocals(old(vars.m), vars.m)
  {
    hide Table, StubCreation, ServiceCreation, SourceEvery, OnlyLocals, Agrees, HasOuter;
    PrintTable(p, ms, ps, vars, outer);
    ghost var b := vars.m;
    PrintStubCreation(p, ms, ps, vars, outer);
    OnlyLocalsTrans(old(vars.m), b, vars.m);
    ghost var c := vars.m;
    PrintSourceEvery(p, ClientMethods, ms, ps, vars, outer);
    OnlyLocalsTrans(old(vars.m), c, vars.m);
    ghost var d := vars.m;
    PrintServiceCreation(p, ms, ps, vars, outer);
    OnlyLocalsTrans(old(vars.m), d, vars.m);
    ghost var e := vars.m;
    PrintSourceEvery(p, ServerMethods, ms, ps, vars, outer);
    OnlyLocalsTrans(old(vars.m), e, vars.m);
  }

  // What GetSourceServices sets before the first service.
  function FileEnv(pkg: string, sn: string): Env {
    map[VPackage := pkg, VNs := if sn != "" then sn + "::" else "", VPrefix := sn]
  }

  method SetService(vars: Vars, svc: Service, ghost pkg: string, ghost sn: string)
    requires Agrees(vars.m, FileEnv(pkg, sn))
    modifies vars
    ensures Agrees(vars.m, SourceEnv(svc, pkg, sn)) && OnlyService(old(vars.m), vars.m)
  {
    vars.m := vars.m[VService := svc.name];
  }

  method PrintSourceService(p: Printer, svc: Service, ps: Parameters, vars: Vars, ghost pkg: string, ghost sn: string)
    requires Agrees(vars.m, FileEnv(pkg, sn))
    modifies p, vars
    ensures p.out == SourceServiceOutput(old(p.out), old(p.indent), SourceEnv(svc, pkg, sn), svc.methods, ps)
    ensures p.indent == old(p.indent) && OnlyService(old(vars.m), vars.m)
  {
    hide Agrees, HasOuter, OnlyService, OnlyLocals, SourceServiceOutput, SourceEnv, FileEnv;
    SetService(vars, svc, pkg, sn);
    SourceEnvIsOuter(svc, pkg, sn);
    ghost var before := vars.m;
    PrintSourceMethods(p, svc.methods, ps, vars, SourceEnv(svc, pkg, sn));
    OnlyServiceThen(old(vars.m), before, vars.m);
  }
}
