// What the reader finds in the source text of a service.
module SourceFacts {
  import opened Schema
  import opened Emit
  import opened Structure
  import opened SourceTemplates
  import opened SourceService
  import opened Decimal

  // The head of a definition, and the print that holds its body and closes it.
  predicate IsDefinition(decl: Form, body: Form) { decl.Decl? && decl.tail == Open && body.ClientBody? }

  function BodyFact(f: Form): Fact
    requires f.ClientBody?
  {
    BodyOf(f.body, f.member, f.types, f.extra)
  }

  function DefinitionFacts(decl: Form, body: Form, env: Env): seq<Fact>
    requires IsDefinition(decl, body)
  {
    DeclFacts(decl, env) + [BodyFact(Render(body, env))]
  }

  function AsyncDefinitionsFacts(outer: Env, m: Method, n: nat): seq<Fact>
    requires m.Kind() != Unary
  {
    if n == 0 then []
    else
      AsyncDefinitionsFacts(outer, m, n - 1) +
      DefinitionFacts(AsyncDefinition(m.Kind()), AsyncBody(m.Kind()),
        AsyncDefinitionEnv(outer, m, SourcePrefixAt(n - 1)))
  }

  function SyncDefinitionFacts(outer: Env, m: Method): seq<Fact> {
    DefinitionFacts(SyncDefinition(m.Kind()), SyncBody(m.Kind()), outer + MethodEnv(m))
  }

  function CallbackDefinitionsFacts(outer: Env, m: Method): seq<Fact> {
    var env := outer + MethodEnv(m);
    DefinitionFacts(CallbackDefinition(m.Kind()), CallbackBody(m.Kind()), env) +
    (if m.Kind() == Unary then DefinitionFacts(ReactorDefinition(), ReactorBody(), env) else [])
  }

  function CqDefinitionsFacts(outer: Env, m: Method): seq<Fact> {
    if m.Kind() == Unary then
      DefinitionFacts(UnaryAsyncDefinition("PrepareAsync"), PrepareBody(), outer + MethodEnv(m)) +
      DefinitionFacts(UnaryAsyncDefinition("Async"), StartBody(), outer + MethodEnv(m))
    else AsyncDefinitionsFacts(outer, m, 2)
  }

  function ClientDefinitionsFacts(outer: Env, m: Method, ps: Parameters): seq<Fact> {
    SyncDefinitionFacts(outer, m) + CallbackDefinitionsFacts(outer, m) +
    (if ps.allowCqApi then CqDefinitionsFacts(outer, m) else [])
  }

  function EntryFact(f: Form): Fact
    requires f.TableEntry? || f.StubInit? || f.AddMethod?
  {
    match f
    case TableEntry(path) => Entry(path)
    case StubInit(member, table, idx, streaming) => Init(member, table, idx, streaming)
    case AddMethod(table, idx, streaming, handler, service, types, callee) =>
      Registered(table, idx, streaming, handler, service, types, callee)
  }

  function VoidedFact(param: string): seq<Fact> { [Said(VoidParameter, [S(param)])] }

  function FirstParameter(k: Kind): string {
    match k
    case ClientStreaming => "reader"
    case BidiStreaming => "stream"
    case _ => "request"
  }

  // What the default of a Service function does.
  function DefaultFacts(m: Method, ps: Parameters): seq<Fact> {
    (if ps.allowSyncServerApi then [] else [Said(Abort, [])]) + VoidedFact("context") +
    VoidedFact(FirstParameter(m.Kind())) +
    (if m.Kind() == BidiStreaming then []
     else VoidedFact(if m.Kind() == ServerStreaming then "writer" else "response")) +
    [Said(ReturnUnimplemented, [])]
  }

  function SourceRoundFacts(pass: SourcePass, outer: Env, m: Method, i: nat, ps: Parameters): seq<Fact> {
    match pass
    case TableEntries => [EntryFact(Render(EntryForm(), EntryEnv(outer, m)))]
    case StubInits => [EntryFact(Render(InitForm(), InitEnv(outer, m, Dec(i))))]
    case ClientMethods => ClientDefinitionsFacts(outer, m, ps)
    case AddMethods => [EntryFact(Render(AddMethodForm(m.Kind()), AddEnv(outer, m, Dec(i))))]
    case ServerMethods => DeclFacts(ServerDefinition(m.Kind()), outer + MethodEnv(m)) + DefaultFacts(m, ps)
  }

  function SourceRoundsFacts(pass: SourcePass, outer: Env, ms: seq<Method>, ps: Parameters, n: nat): seq<Fact>
    requires n <= |ms|
  {
    if n == 0 then []
    else SourceRoundsFacts(pass, outer, ms, ps, n - 1) + SourceRoundFacts(pass, outer, ms[n - 1], n - 1, ps)
  }

  function SourceEveryFacts(pass: SourcePass, outer: Env, ms: seq<Method>, ps: Parameters): seq<Fact> {
    SourceRoundsFacts(pass, outer, ms, ps, |ms|)
  }

  function TableFacts(outer: Env, ms: seq<Method>, ps: Parameters): seq<Fact> {
    if |ms| > 0 then Closed(TableScope(RRefs(TableName(), outer)), SourceEveryFacts(TableEntries, outer, ms, ps))
    else []
  }

  function StubCreationFacts(outer: Env, ms: seq<Method>, ps: Parameters): seq<Fact> {
    DeclFacts(NewStubDefinition(), outer) + DeclFacts(StubCtorDefinition(), outer) +
      SourceEveryFacts(StubInits, outer, ms, ps)
  }

  function ServiceCreationFacts(outer: Env, ms: seq<Method>, ps: Parameters): seq<Fact> {
    DeclFacts(ServiceCtorDefinition(), outer) + SourceEveryFacts(AddMethods, outer, ms, ps) +
    DeclFacts(ServiceDtorDefinition(), outer)
  }

  function SourceServiceFacts(outer: Env, ms: seq<Method>, ps: Parameters): seq<Fact> {
    TableFacts(outer, ms, ps) + StubCreationFacts(outer, ms, ps) + SourceEveryFacts(ClientMethods, outer, ms, ps) +
    ServiceCreationFacts(outer, ms, ps) + SourceEveryFacts(ServerMethods, outer, ms, ps)
  }

  // ---- The reader finds them. ----

  lemma DefinitionRead(o: seq<Item>, ind: nat, decl: Form, body: Form, env: Env)
    requires Ready(After(o)) && IsDefinition(decl, body)
    ensures After(PutDefinition(o, ind, decl, body, env)) == Plus(After(o), DefinitionFacts(decl, body, env))
  {
    hide After, Put, RRefs, RTys, RTy, Noted;
    AfterDecl(o, ind, decl, env);
    AfterPut(Put(o, ind, decl, env), ind, body, env);
    var t := Plus(After(o), DeclFacts(decl, env));
    LeaveBlock(t, [BodyFact(Render(body, env))]);
    PlusPlus(After(o), DeclFacts(decl, env), [BodyFact(Render(body, env))]);
  }

  // One definition after others.
  lemma DefinitionThen(o: seq<Item>, ind: nat, decl: Form, body: Form, env: Env, t: State, before: seq<Fact>)
    requires Ready(t) && After(o) == Plus(t, before) && IsDefinition(decl, body)
    ensures After(PutDefinition(o, ind, decl, body, env)) == Plus(t, before + DefinitionFacts(decl, body, env))
  {
    hide After, PutDefinition, DefinitionFacts, IsDefinition;
    DefinitionRead(o, ind, decl, body, env);
    PlusPlus(t, before, DefinitionFacts(decl, body, env));
  }

  lemma AsyncDefinitionsRead(o: seq<Item>, ind: nat, outer: Env, m: Method, n: nat)
    requires Ready(After(o)) && m.Kind() != Unary
    ensures After(AsyncDefinitions(o, ind, outer, m, n)) == Plus(After(o), AsyncDefinitionsFacts(outer, m, n))
  {
    hide After, PutDefinition, DefinitionFacts;
    if n == 0 {
      PlusNothing(After(o));
    } else {
      AsyncDefinitionsRead(o, ind, outer, m, n - 1);
      DefinitionThen(AsyncDefinitions(o, ind, outer, m, n - 1), ind, AsyncDefinition(m.Kind()), AsyncBody(m.Kind()),
                     AsyncDefinitionEnv(outer, m, SourcePrefixAt(n - 1)), After(o),
                     AsyncDefinitionsFacts(outer, m, n - 1));
    }
  }

  lemma CallbackDefinitionsRead(o: seq<Item>, ind: nat, outer: Env, m: Method)
    requires Ready(After(o))
    ensures After(CallbackDefinitions(o, ind, outer, m)) == Plus(After(o), CallbackDefinitionsFacts(outer, m))
  {
    hide After, PutDefinition, DefinitionFacts;
    var env := outer + MethodEnv(m);
    DefinitionRead(o, ind, CallbackDefinition(m.Kind()), CallbackBody(m.Kind()), env);
    var fs := DefinitionFacts(CallbackDefinition(m.Kind()), CallbackBody(m.Kind()), env);
    if m.Kind() == Unary {
      DefinitionThen(PutDefinition(o, ind, CallbackDefinition(m.Kind()), CallbackBody(m.Kind()), env), ind,
                     ReactorDefinition(), ReactorBody(), env, After(o), fs);
    } else {
      assert fs + [] == fs;
    }
  }

  lemma CqDefinitionsRead(o: seq<Item>, ind: nat, outer: Env, m: Method)
    requires Ready(After(o))
    ensures After(CqDefinitions(o, ind, outer, m)) == Plus(After(o), CqDefinitionsFacts(outer, m))
  {
    hide After, PutDefinition, DefinitionFacts, AsyncDefinitions, AsyncDefinitionsFacts;
    var env := outer + MethodEnv(m);
    if m.Kind() == Unary {
      DefinitionRead(o, ind, UnaryAsyncDefinition("PrepareAsync"), PrepareBody(), env);
      DefinitionThen(PutDefinition(o, ind, UnaryAsyncDefinition("PrepareAsync"), PrepareBody(), env), ind,
                     UnaryAsyncDefinition("Async"), StartBody(), env, After(o),
                     DefinitionFacts(UnaryAsyncDefinition("PrepareAsync"), PrepareBody(), env));
    } else {
      AsyncDefinitionsRead(o, ind, outer, m, 2);
    }
  }

  lemma ClientDefinitionsRead(o: seq<Item>, ind: nat, outer: Env, m: Method, ps: Parameters)
    requires Ready(After(o))
    ensures After(ClientDefinitions(o, ind, outer, m, ps)) == Plus(After(o), ClientDefinitionsFacts(outer, m, ps))
  {
    hide After, PutDefinition, DefinitionFacts, CallbackDefinitions, CallbackDefinitionsFacts, CqDefinitions,
      CqDefinitionsFacts;
    var t := After(o);
    DefinitionRead(o, ind, SyncDefinition(m.Kind()), SyncBody(m.Kind()), outer + MethodEnv(m));
    var o1 := PutDefinition(o, ind, SyncDefinition(m.Kind()), SyncBody(m.Kind()), outer + MethodEnv(m));
    CallbackDefinitionsRead(o1, ind, outer, m);
    PlusPlus(t, SyncDefinitionFacts(outer, m), CallbackDefinitionsFacts(outer, m));
    var f2 := SyncDefinitionFacts(outer, m) + CallbackDefinitionsFacts(outer, m);
    if ps.allowCqApi {
      CqDefinitionsRead(CallbackDefinitions(o1, ind, outer, m), ind, outer, m);
      PlusPlus(t, f2, CqDefinitionsFacts(outer, m));
    } else {
      assert f2 + [] == f2;
    }
  }

  // Statements inside a function body, behind those found so far.
  lemma StatementRead(o: seq<Item>, ind: nat, text: Text, args: seq<Ref>, t: State, before: seq<Fact>)
    requires Ready(t) && After(o) == Plus(t, before) && Noticed(text)
    requires RRefs(args, map[]) == args
    ensures After(Put(o, ind, Stmt(text, args), map[])) == Plus(t, before + [Said(text, args)])
  {
    hide After, Put, RRefs;
    SaidRead(o, ind, text, args, map[]);
    PlusPlus(t, before, [Said(text, args)]);
  }

  lemma VoidedRead(o: seq<Item>, ind: nat, param: string, t: State, before: seq<Fact>)
    requires Ready(t) && After(o) == Plus(t, before)
    ensures After(Voided(o, ind, param)) == Plus(t, before + VoidedFact(param))
  {
    hide After, Put, RRefs;
    assert RRefs([S(param)], map[]) == [S(param)] by { FixedArgs(param); }
    StatementRead(o, ind, VoidParameter, [S(param)], t, before);
  }

  lemma FixedArgs(param: string)
    ensures RRefs([S(param)], map[]) == [S(param)] && RRefs([], map[]) == []
  {
  }

  lemma BlockEnd(o: seq<Item>, ind: nat, t: State, fs: seq<Fact>)
    requires Ready(t) && After(o) == Plus(Enter(t, Block), fs)
    ensures After(PutText(o, ind, CloseBraceBlank)) == Plus(t, fs)
  {
    hide After, PutText;
    AfterText(o, ind, CloseBraceBlank);
    LeaveBlock(t, fs);
  }

  lemma ServerMethodHeadRead(o: seq<Item>, ind: nat, outer: Env, m: Method, ps: Parameters)
    requires Ready(After(o))
    ensures After(ServerMethodHead(o, ind, outer, m, ps)) ==
            Plus(Enter(Plus(After(o), DeclFacts(ServerDefinition(m.Kind()), outer + MethodEnv(m))), Block),
                 (if ps.allowSyncServerApi then [] else [Said(Abort, [])]) + VoidedFact("context"))
  {
    hide After, Put, PutText, Noted, VoidedFact;
    AfterDecl(o, ind, ServerDefinition(m.Kind()), outer + MethodEnv(m));
    var o1 := Put(o, ind, ServerDefinition(m.Kind()), outer + MethodEnv(m));
    PlusNothing(After(o1));
    LabelRead(o1, ind, Abort);
    VoidedRead(if ps.allowSyncServerApi then o1 else PutText(o1, ind, Abort), ind, "context", After(o1),
               if ps.allowSyncServerApi then [] else [Said(Abort, [])]);
  }

  lemma ServerMethodEndRead(o: seq<Item>, ind: nat, t: State, fs: seq<Fact>)
    requires Ready(t) && After(o) == Plus(Enter(t, Block), fs)
    ensures After(ServerMethodEnd(o, ind)) == Plus(t, fs + [Said(ReturnUnimplemented, [])])
  {
    hide After, PutText;
    LabelRead(o, ind, ReturnUnimplemented);
    PlusPlus(Enter(t, Block), fs, [Said(ReturnUnimplemented, [])]);
    BlockEnd(PutText(o, ind, ReturnUnimplemented), ind, t, fs + [Said(ReturnUnimplemented, [])]);
  }

  lemma ServerMethodRead(o: seq<Item>, ind: nat, outer: Env, m: Method, ps: Parameters)
    requires Ready(After(o))
    ensures After(ServerMethod(o, ind, outer, m, ps)) ==
            Plus(After(o), DeclFacts(ServerDefinition(m.Kind()), outer + MethodEnv(m)) + DefaultFacts(m, ps))
  {
    hide After, Put, ServerMethodHead, ServerMethodEnd, Noted, Voided, VoidedFact;
    ServerMethodHeadRead(o, ind, outer, m, ps);
    var o1 := ServerMethodHead(o, ind, outer, m, ps);
    var decl := DeclFacts(ServerDefinition(m.Kind()), outer + MethodEnv(m));
    var t := Plus(After(o), decl);
    var f1 := (if ps.allowSyncServerApi then [] else [Said(Abort, [])]) + VoidedFact("context");
    var first, second := FirstParameter(m.Kind()), if m.Kind() == ServerStreaming then "writer" else "response";
    VoidedRead(o1, ind, first, Enter(t, Block), f1);
    var o2 := Voided(o1, ind, first);
    var f2 := f1 + VoidedFact(first);
    VoidedRead(o2, ind, second, Enter(t, Block), f2);
    assert f2 + [] == f2;
    var o3 := if m.Kind() == BidiStreaming then o2 else Voided(o2, ind, second);
    ServerMethodEndRead(o3, ind, t, f2 + if m.Kind() == BidiStreaming then [] else VoidedFact(second));
    PlusPlus(After(o), decl, DefaultFacts(m, ps));
  }

  lemma SourceRoundRead(pass: SourcePass, o: seq<Item>, ind: nat, outer: Env, m: Method, i: nat, ps: Parameters)
    requires Ready(After(o))
    ensures After(SourceRound(pass, o, ind, outer, m, i, ps)) == Plus(After(o), SourceRoundFacts(pass, outer, m, i, ps))
  {
    hide After, Put, RRefs, ClientDefinitions, ClientDefinitionsFacts, ServerMethod, Dec, EntryEnv, InitEnv, AddEnv,
      DeclFacts, DefaultFacts, StreamingType;
    match pass
    case TableEntries => AfterPut(o, ind, EntryForm(), EntryEnv(outer, m));
    case StubInits => AfterPut(o, ind, InitForm(), InitEnv(outer, m, Dec(i)));
    case ClientMethods => ClientDefinitionsRead(o, ind, outer, m, ps);
    case AddMethods => AfterPut(o, ind, AddMethodForm(m.Kind()), AddEnv(outer, m, Dec(i)));
    case ServerMethods => ServerMethodRead(o, ind, outer, m, ps);
  }

  lemma {:induction false} SourceRoundsRead(pass: SourcePass, o: seq<Item>, ind: nat, outer: Env, ms: seq<Method>,
      ps: Parameters, n: nat)
    requires Ready(After(o)) && n <= |ms|
    ensures After(SourceRounds(pass, o, ind, outer, ms, ps, n)) ==
            Plus(After(o), SourceRoundsFacts(pass, outer, ms, ps, n))
  {
    hide After, SourceRound, SourceRoundFacts;
    if n == 0 {
      PlusNothing(After(o));
    } else {
      SourceRoundsRead(pass, o, ind, outer, ms, ps, n - 1);
      SourceRoundRead(pass, SourceRounds(pass, o, ind, outer, ms, ps, n - 1), ind, outer, ms[n - 1], n - 1, ps);
      PlusPlus(After(o), SourceRoundsFacts(pass, outer, ms, ps, n - 1),
        SourceRoundFacts(pass, outer, ms[n - 1], n - 1, ps));
    }
  }

  // A pass after other text of the same scope.
  lemma SourcePassRead(pass: SourcePass, o: seq<Item>, ind: nat, outer: Env, ms: seq<Method>, ps: Parameters, t: State,
      before: seq<Fact>)
    requires Ready(t) && After(o) == Plus(t, before)
    ensures After(SourceEvery(pass, o, ind, outer, ms, ps)) == Plus(t, before + SourceEveryFacts(pass, outer, ms, ps))
  {
    hide After, SourceRounds, SourceRoundsFacts;
    SourceRoundsRead(pass, o, ind, outer, ms, ps, |ms|);
    PlusPlus(t, before, SourceEveryFacts(pass, outer, ms, ps));
  }

  lemma TableRead(o: seq<Item>, ind: nat, outer: Env, ms: seq<Method>, ps: Parameters)
    requires Ready(After(o))
    ensures After(Table(o, ind, outer, ms, ps)) == Plus(After(o), TableFacts(outer, ms, ps))
  {
    hide After, Put, PutText, RRefs, SourceEvery, SourceEveryFacts;
    if |ms| > 0 {
      AfterPut(o, ind, TableHead(), outer);
      var o1 := Put(o, ind, TableHead(), outer);
      PlusNothing(After(o1));
      SourcePassRead(TableEntries, o1, ind, outer, ms, ps, After(o1), []);
      var fs := [] + SourceEveryFacts(TableEntries, outer, ms, ps);
      assert fs == SourceEveryFacts(TableEntries, outer, ms, ps) == [] + fs;
      AfterText(SourceEvery(TableEntries, o1, ind, outer, ms, ps), ind, CloseTable);
    } else {
      PlusNothing(After(o));
    }
  }

  lemma StubCreationRead(o: seq<Item>, ind: nat, outer: Env, ms: seq<Method>, ps: Parameters)
    requires Ready(After(o))
    ensures After(StubCreation(o, ind, outer, ms, ps)) == Plus(After(o), StubCreationFacts(outer, ms, ps))
  {
    hide After, Put, PutText, DeclFacts, SourceEvery, SourceEveryFacts;
    var t := After(o);
    DeclRead(o, ind, NewStubDefinition(), outer);
    var o1 := Put(o, ind, NewStubDefinition(), outer);
    DeclRead(o1, ind, StubCtorDefinition(), outer);
    PlusPlus(t, DeclFacts(NewStubDefinition(), outer), DeclFacts(StubCtorDefinition(), outer));
    var o2 := Put(o1, ind, StubCtorDefinition(), outer);
    TextRead(o2, ind + 1, ChannelInit);
    var o3 := PutText(o2, ind + 1, ChannelInit);
    SourcePassRead(StubInits, o3, ind + 1, outer, ms, ps, t,
      DeclFacts(NewStubDefinition(), outer) + DeclFacts(StubCtorDefinition(), outer));
    TextRead(SourceEvery(StubInits, o3, ind + 1, outer, ms, ps), ind + 1, EmptyBody);
  }

  lemma ServiceCreationRead(o: seq<Item>, ind: nat, outer: Env, ms: seq<Method>, ps: Parameters)
    requires Ready(After(o))
    ensures After(ServiceCreation(o, ind, outer, ms, ps)) == Plus(After(o), ServiceCreationFacts(outer, ms, ps))
  {
    hide After, Put, PutText, DeclFacts, Noted, SourceEvery, SourceEveryFacts;
    var ctor := DeclFacts(ServiceCtorDefinition(), outer);
    ServiceCtorRead(o, ind, outer);
    var o1 := Put(o, ind, ServiceCtorDefinition(), outer);
    var t := Plus(After(o), ctor);
    PlusNothing(Enter(t, Block));
    SourcePassRead(AddMethods, o1, ind + 1, outer, ms, ps, Enter(t, Block), []);
    var fs := SourceEveryFacts(AddMethods, outer, ms, ps);
    assert [] + fs == fs;
    var o2 := SourceEvery(AddMethods, o1, ind + 1, outer, ms, ps);
    AfterText(o2, ind, CloseBraceBlank);
    LeaveBlock(t, fs);
    PlusPlus(After(o), ctor, fs);
    DeclRead(PutText(o2, ind, CloseBraceBlank), ind, ServiceDtorDefinition(), outer);
    PlusPlus(After(o), ctor + fs, DeclFacts(ServiceDtorDefinition(), outer));
  }

  lemma ServiceCtorRead(o: seq<Item>, ind: nat, outer: Env)
    requires Ready(After(o))
    ensures After(Put(o, ind, ServiceCtorDefinition(), outer)) ==
            Enter(Plus(After(o), DeclFacts(ServiceCtorDefinition(), outer)), Block)
  {
    AfterDecl(o, ind, ServiceCtorDefinition(), outer);
  }

  // A service's source text leaves the reader in the scope it started from.
  lemma SourceServiceRead(o: seq<Item>, ind: nat, outer: Env, ms: seq<Method>, ps: Parameters)
    requires Ready(After(o))
    ensures After(SourceServiceOutput(o, ind, outer, ms, ps)) == Plus(After(o), SourceServiceFacts(outer, ms, ps))
  {
    hide After, Table, StubCreation, ServiceCreation, SourceEvery, TableFacts, StubCreationFacts, ServiceCreationFacts,
      SourceEveryFacts;
    var t := After(o);
    TableRead(o, ind, outer, ms, ps);
    var o1 := Table(o, ind, outer, ms, ps);
    var f1 := TableFacts(outer, ms, ps);
    StubCreationRead(o1, ind, outer, ms, ps);
    PlusPlus(t, f1, StubCreationFacts(outer, ms, ps));
    var o2 := StubCreation(o1, ind, outer, ms, ps);
    var f2 := f1 + StubCreationFacts(outer, ms, ps);
    SourcePassRead(ClientMethods, o2, ind, outer, ms, ps, t, f2);
    var o3 := SourceEvery(ClientMethods, o2, ind, outer, ms, ps);
    var f3 := f2 + SourceEveryFacts(ClientMethods, outer, ms, ps);
    ServiceCreationRead(o3, ind, outer, ms, ps);
    PlusPlus(t, f3, ServiceCreationFacts(outer, ms, ps));
    SourcePassRead(ServerMethods, ServiceCreation(o3, ind, outer, ms, ps), ind, outer, ms, ps, t,
                   f3 + ServiceCreationFacts(outer, ms, ps));
  }
}
