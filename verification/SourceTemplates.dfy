// The templates of the source file: the definitions of Stub, Stub::async and
// Service, the table of method names and the two constructors that use it.
module SourceTemplates {
  import opened Schema
  import opened Emit

  // What stands in front of the names of the definitions.
  function StubQual(): seq<Ref> { [V(VNs), V(VService), S("::Stub::")] }

  function AsyncQual(): seq<Ref> { [V(VNs), V(VService), S("::Stub::async::")] }

  function ServiceQual(): seq<Ref> { [V(VNs), V(VService), S("::Service::")] }

  function OuterQual(): seq<Ref> { [V(VNs), V(VService), S("::")] }

  // rpcmethod_$Method$_
  function Member(): seq<Ref> { [S("rpcmethod_"), V(VMethod), S("_")] }

  // ---- PrintSourceClientMethod: templates ----

  function SyncDefinition(k: Kind): Form {
    match k
    case Unary =>
      Decl(T0(Status), StubQual(), [V(VMethod)],
           [T0(ClientContextPtr), T1(ConstRef, V(VRequest)), T1(Ptr, V(VResponse))], [], Open)
    case ClientStreaming =>
      Decl(T1(Client(Writer, false, false), V(VRequest)), StubQual(), [V(VMethod), S("Raw")],
           [T0(ClientContextPtr), T1(Ptr, V(VResponse))], [], Open)
    case ServerStreaming =>
      Decl(T1(Client(Reader, false, false), V(VResponse)), StubQual(), [V(VMethod), S("Raw")],
           [T0(ClientContextPtr), T1(ConstRef, V(VRequest))], [], Open)
    case BidiStreaming =>
      Decl(T2(Client(ReaderWriter, false, false), V(VRequest), V(VResponse)), StubQual(), [V(VMethod), S("Raw")],
           [T0(ClientContextPtr)], [], Open)
  }

  function SyncBody(k: Kind): Form {
    match k
    case Unary => ClientBody(BlockingUnaryCall, Member(), [V(VRequest), V(VResponse)], [])
    case ClientStreaming => ClientBody(SyncFactory(Writer), Member(), [V(VRequest)], [])
    case ServerStreaming => ClientBody(SyncFactory(Reader), Member(), [V(VResponse)], [])
    case BidiStreaming => ClientBody(SyncFactory(ReaderWriter), Member(), [V(VRequest), V(VResponse)], [])
  }

  function CallbackDefinition(k: Kind): Form {
    match k
    case Unary =>
      Decl(T0(Void), AsyncQual(), [V(VMethod)],
           [T0(ClientContextPtr), T1(ConstPtr, V(VRequest)), T1(Ptr, V(VResponse)), T0(StatusFunction)], [], Open)
    case ClientStreaming =>
      Decl(T0(Void), AsyncQual(), [V(VMethod)],
           [T0(ClientContextPtr), T1(Ptr, V(VResponse)), T1(ClientWriteReactorPtr, V(VRequest))], [], Open)
    case ServerStreaming =>
      Decl(T0(Void), AsyncQual(), [V(VMethod)],
           [T0(ClientContextPtr), T1(ConstPtr, V(VRequest)), T1(ClientReadReactorPtr, V(VResponse))], [], Open)
    case BidiStreaming =>
      Decl(T0(Void), AsyncQual(), [V(VMethod)],
           [T0(ClientContextPtr), T2(ClientBidiReactorPtr, V(VRequest), V(VResponse))], [], Open)
  }

  function CallbackBody(k: Kind): Form {
    match k
    case Unary => ClientBody(CallbackUnaryCall, Member(), [V(VRequest), V(VResponse)], [])
    case ClientStreaming => ClientBody(CallbackFactory(Writer), Member(), [V(VRequest)], [])
    case ServerStreaming => ClientBody(CallbackFactory(Reader), Member(), [V(VResponse)], [])
    case BidiStreaming => ClientBody(CallbackFactory(ReaderWriter), Member(), [V(VRequest), V(VResponse)], [])
  }

  function ReactorDefinition(): Form {
    Decl(T0(Void), AsyncQual(), [V(VMethod)],
         [T0(ClientContextPtr), T1(ConstPtr, V(VRequest)), T1(Ptr, V(VResponse)), T0(ClientUnaryReactorPtr)], [], Open)
  }

  function ReactorBody(): Form { ClientBody(CallbackUnaryFactory, Member(), [], []) }

  // The unary method spells its two prefixes out, PrepareAsync first.
  function UnaryAsyncDefinition(prefix: string): Form {
    Decl(T1(Client(AsyncResponseReader, false, false), V(VResponse)), StubQual(), [S(prefix), V(VMethod), S("Raw")],
         [T0(ClientContextPtr), T1(ConstRef, V(VRequest)), T0(CompletionQueuePtr)], [], Open)
  }

  function PrepareBody(): Form { ClientBody(AsyncResponseReaderHelper, Member(), [V(VResponse), V(VRequest)], []) }

  // auto* result = this->PrepareAsync$Method$Raw(...); result->StartCall();
  function StartBody(): Form { ClientBody(StartCall, [S("PrepareAsync"), V(VMethod), S("Raw")], [], []) }

  function AsyncDefinition(k: Kind): Form
    requires k != Unary
  {
    match k
    case ClientStreaming =>
      Decl(T1(Client(AsyncWriter, false, false), V(VRequest)), StubQual(), [V(VAsyncPrefix), V(VMethod), S("Raw")],
           [T0(ClientContextPtr), T1(Ptr, V(VResponse)), T0(CompletionQueuePtr)], [V(VAsyncMethodParams)], Open)
    case ServerStreaming =>
      Decl(T1(Client(AsyncReader, false, false), V(VResponse)), StubQual(), [V(VAsyncPrefix), V(VMethod), S("Raw")],
           [T0(ClientContextPtr), T1(ConstRef, V(VRequest)), T0(CompletionQueuePtr)], [V(VAsyncMethodParams)], Open)
    case BidiStreaming =>
      Decl(T2(Client(AsyncReaderWriter, false, false), V(VRequest), V(VResponse)), StubQual(),
           [V(VAsyncPrefix), V(VMethod), S("Raw")],
           [T0(ClientContextPtr), T0(CompletionQueuePtr)], [V(VAsyncMethodParams)], Open)
  }

  function AsyncBody(k: Kind): Form
    requires k != Unary
  {
    match k
    case ClientStreaming => ClientBody(AsyncFactory(AsyncWriter), Member(), [V(VRequest)],
      [V(VAsyncStart), V(VAsyncCreateArgs)])
    case ServerStreaming => ClientBody(AsyncFactory(AsyncReader), Member(), [V(VResponse)],
      [V(VAsyncStart), V(VAsyncCreateArgs)])
    case BidiStreaming =>
      ClientBody(AsyncFactory(AsyncReaderWriter), Member(), [V(VRequest), V(VResponse)],
        [V(VAsyncStart), V(VAsyncCreateArgs)])
  }

  // ---- PrintSourceServerMethod: templates ----

  function ServerDefinition(k: Kind): Form {
    match k
    case Unary =>
      Decl(T0(Status), ServiceQual(), [V(VMethod)],
           [T0(ServerContextPtr), T1(ConstPtr, V(VRequest)), T1(Ptr, V(VResponse))], [], Open)
    case ClientStreaming =>
      Decl(T0(Status), ServiceQual(), [V(VMethod)],
           [T0(ServerContextPtr), T1(ServerReaderPtr, V(VRequest)), T1(Ptr, V(VResponse))], [], Open)
    case ServerStreaming =>
      Decl(T0(Status), ServiceQual(), [V(VMethod)],
           [T0(ServerContextPtr), T1(ConstPtr, V(VRequest)), T1(ServerWriterPtr, V(VResponse))], [], Open)
    case BidiStreaming =>
      Decl(T0(Status), ServiceQual(), [V(VMethod)],
           [T0(ServerContextPtr), T2(ServerReaderWriterPtr, V(VResponse), V(VRequest))], [], Open)
  }

  // ---- PrintSourceService: templates ----

  // $prefix$$Service$_method_names
  function TableName(): seq<Ref> { [V(VPrefix), V(VService)] }

  function TableHead(): Form { Stmt(MethodTable, TableName()) }

  function EntryForm(): Form { TableEntry([S("/"), V(VPackage), V(VService), S("/"), V(VMethod)]) }

  function NewStubDefinition(): Form {
    Decl(T0(StubUniquePtr), OuterQual(), [S("NewStub")], [T0(ChannelRef), T0(StubOptionsRef)], [], Inline)
  }

  function StubCtorDefinition(): Form {
    Decl(T0(NoType), StubQual(), [S("Stub")], [T0(ChannelRef), T0(StubOptionsRef)], [], InitList)
  }

  function InitForm(): Form { StubInit(Member(), TableName(), V(VIdx), V(VStreamingType)) }

  function ServiceCtorDefinition(): Form { Decl(T0(NoType), ServiceQual(), [S("Service")], [], [], Open) }

  function ServiceDtorDefinition(): Form { Decl(T0(NoType), ServiceQual(), [S("~Service")], [], [], Inline) }

  // ::grpc::internal::RpcMethod's names for the streaming kinds
  function StreamingType(k: Kind): string {
    match k
    case Unary => "NORMAL_RPC"
    case ClientStreaming => "CLIENT_STREAMING"
    case ServerStreaming => "SERVER_STREAMING"
    case BidiStreaming => "BIDI_STREAMING"
  }

  function AddMethodForm(k: Kind): Form {
    match k
    case Unary =>
      AddMethod(TableName(), V(VIdx), S("NORMAL_RPC"), Unary, ServiceQual(), [V(VRequest), V(VResponse)], [V(VMethod)])
    case ClientStreaming =>
      AddMethod(TableName(), V(VIdx), S("CLIENT_STREAMING"), ClientStreaming, ServiceQual(),
        [V(VRequest), V(VResponse)], [V(VMethod)])
    case ServerStreaming =>
      AddMethod(TableName(), V(VIdx), S("SERVER_STREAMING"), ServerStreaming, ServiceQual(),
        [V(VRequest), V(VResponse)], [V(VMethod)])
    case BidiStreaming =>
      AddMethod(TableName(), V(VIdx), S("BIDI_STREAMING"), BidiStreaming, ServiceQual(), [V(VRequest), V(VResponse)],
        [V(VMethod)])
  }

  // ---- Environments ----

  // What GetSourceServices and PrintSourceService set for a whole service.
  function SourceEnv(svc: Service, pkg: string, sn: string): Env {
    map[VService := svc.name, VPackage := pkg, VNs := if sn != "" then sn + "::" else "", VPrefix := sn]
  }

  // The entries of PrintSourceClientMethod's async_prefixes table.
  datatype SourcePrefix = SourcePrefix(prefix: string, start: string, methodParams: string, createArgs: string)

  function SourcePrefixAt(i: nat): SourcePrefix {
    if i == 0 then SourcePrefix("Async", "true", ", void* tag", ", tag")
    else SourcePrefix("PrepareAsync", "false", "", ", nullptr")
  }

  function AsyncDefinitionEnv(outer: Env, m: Method, a: SourcePrefix): Env {
    var env := (outer + MethodEnv(m))[VAsyncPrefix := a.prefix][VAsyncStart := a.start];
    env[VAsyncMethodParams := a.methodParams][VAsyncCreateArgs := a.createArgs]
  }

  function EntryEnv(outer: Env, m: Method): Env { outer[VMethod := m.name] }

  function InitEnv(outer: Env, m: Method, idx: string): Env {
    outer[VMethod := m.name][VIdx := idx][VStreamingType := StreamingType(m.Kind())]
  }

  function AddEnv(outer: Env, m: Method, idx: string): Env { (outer + MethodEnv(m))[VIdx := idx] }

  // ---- Every variable of every template is set when it is printed. ----

  predicate HasOuter(outer: Env) {
    VService in outer && VPackage in outer && VNs in outer && VPrefix in outer && forall v :: v in outer ==> !Local(v)
  }

  lemma SourceEnvIsOuter(svc: Service, pkg: string, sn: string)
    ensures HasOuter(SourceEnv(svc, pkg, sn))
  {
  }

  lemma SyncDefinitionBound(k: Kind, outer: Env, m: Method)
    requires HasOuter(outer)
    ensures Bound(SyncDefinition(k), outer + MethodEnv(m)) && Bound(SyncBody(k), outer + MethodEnv(m))
  {
  }

  lemma CallbackDefinitionBound(k: Kind, outer: Env, m: Method)
    requires HasOuter(outer)
    ensures Bound(CallbackDefinition(k), outer + MethodEnv(m)) && Bound(CallbackBody(k), outer + MethodEnv(m))
  {
  }

  lemma ReactorDefinitionBound(outer: Env, m: Method)
    requires HasOuter(outer)
    ensures Bound(ReactorDefinition(), outer + MethodEnv(m)) && Bound(ReactorBody(), outer + MethodEnv(m))
  {
  }

  lemma UnaryAsyncBound(prefix: string, outer: Env, m: Method)
    requires HasOuter(outer)
    ensures Bound(UnaryAsyncDefinition(prefix), outer + MethodEnv(m))
    ensures Bound(PrepareBody(), outer + MethodEnv(m)) && Bound(StartBody(), outer + MethodEnv(m))
  {
  }

  lemma AsyncDefinitionBound(k: Kind, outer: Env, m: Method, a: SourcePrefix)
    requires HasOuter(outer) && k != Unary
    ensures Bound(AsyncDefinition(k), AsyncDefinitionEnv(outer, m, a)) &&
            Bound(AsyncBody(k), AsyncDefinitionEnv(outer, m, a))
  {
  }

  lemma ServerDefinitionBound(k: Kind, outer: Env, m: Method)
    requires HasOuter(outer)
    ensures Bound(ServerDefinition(k), outer + MethodEnv(m))
  {
  }

  lemma TableBound(outer: Env, m: Method, idx: string)
    requires HasOuter(outer)
    ensures Bound(TableHead(), outer) && Bound(EntryForm(), EntryEnv(outer, m))
    ensures Bound(InitForm(), InitEnv(outer, m, idx))
  {
  }

  lemma AddMethodBound(k: Kind, outer: Env, m: Method, idx: string)
    requires HasOuter(outer)
    ensures Bound(AddMethodForm(k), AddEnv(outer, m, idx))
  {
  }

  lemma OuterDefinitionsBound(outer: Env)
    requires HasOuter(outer)
    ensures Bound(NewStubDefinition(), outer) && Bound(StubCtorDefinition(), outer)
    ensures Bound(ServiceCtorDefinition(), outer) && Bound(ServiceDtorDefinition(), outer)
  {
  }
}
