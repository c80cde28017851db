// The printer of the C++ generator: structured templates, the shared variable
// map, and the output as a sequence of printed items.
module Emit {
  import opened Schema
  import opened VariableText

  // The variables the templates mention, under the names the source gives them.
  datatype Var =
    | VMethod | VRequest | VResponse | VRealRequest | VRealResponse | VIdx | VMethodName
    | VAsyncPrefix | VAsyncMethodParams | VAsyncRawArgs | VAsyncStart | VAsyncCreateArgs
    | VMockArgs | VStreamingType
    | VService | VPackage | VNs | VPrefix | VServicesNamespace
    | VPart | VFilename | VFilenameIdentifier | VFilenameBase | VMessageHeaderExt | VServiceHeaderExt
    | VLeft | VHeader | VRight

  type Env = map<Var, string>

  // A hole of a template, or fixed text. What has been printed holds fixed
  // text only.
  datatype Ref = V(v: Var) | S(s: string)

  // The ::grpc::Client* streams and response readers.
  datatype ClientBase =
    | AsyncResponseReader | Writer | AsyncWriter | Reader | AsyncReader | ReaderWriter | AsyncReaderWriter

  // The C++ types of the templates. `Client` is ::grpc::Client<base>, with
  // "Interface" behind it if isInterface, held by std::unique_ptr if unique
  // and by pointer otherwise; the others are named after their spelling.
  datatype TyCon =
    | Client(base: ClientBase, isInterface: bool, unique: bool)
    | NoType | Void | Status | ConstRef | ConstPtr | Ptr
    | ClientContextPtr | CompletionQueuePtr | ServerCompletionQueuePtr | VoidPtr
    | StatusFunction | ClientUnaryReactorPtr | ClientWriteReactorPtr | ClientReadReactorPtr | ClientBidiReactorPtr
    | ServerContextPtr | CallbackServerContextPtr
    | ServerReaderPtr | ServerWriterPtr | ServerReaderWriterPtr
    | ServerAsyncResponseWriterPtr | ServerAsyncReaderPtr | ServerAsyncWriterPtr | ServerAsyncReaderWriterPtr
    | ServerUnaryReactorPtr | ServerReadReactorPtr | ServerWriteReactorPtr | ServerBidiReactorPtr
    | ServerUnaryStreamerPtr | ServerSplitStreamerPtr
    | ChannelRef | StubOptionsRef | StubUniquePtr

  datatype Ty = T0(con: TyCon) | T1(con: TyCon, a: Ref) | T2(con: TyCon, a: Ref, b: Ref)

  // What follows the parameter list of a declaration.
  datatype Tail =
    | Pure            // = 0;
    | Override        // override;
    | Semi            // ;
    | Open            // {   to be closed by a later print
    | InitList        // nothing: a constructor's initializer list follows
    | Inline          // { ... }
    | InlineOverride  // override { ... }

  datatype ClassHead =
    | FinalClass            // class N final {
    | DeprecatedFinalClass  // class [[deprecated]] N final {
    | PlainClass            // class N {
    | StubClass             // class N final : public StubInterface {
    | AsyncClass            // class N final :        (the brace comes with the next print)
    | ServiceClass          // class N : public ::grpc::Service {
    | MixinClass            // class N : public BaseClass {
    | MockClass             // class N : public B::StubInterface {

  // The braces a print holds, read left to right.
  datatype Braces = NoBrace | Pair | Opens | Closes | PairThenCloses

  // Prints without a structure of their own, by what they say.
  datatype Text =
    | Blank | PublicLabel | PrivateLabel | CloseBrace | CloseClass | CloseBraceBlank | CloseTable
    | ServiceFullName | StubInterfaceDtor | AsyncInterfaceDtor | ExperimentalAsyncTypedef | AsyncAccessor
    | ExperimentalAsyncAccessor | AsyncBase | FriendStub | AsyncCtor | StubAccessor | StubField | StubAsyncAccessor
    | ChannelField | AsyncStubField | VirtualKeyword
    | TemplateLine | DerivedCheck | MixinCtor | MixinDtor | ExperimentalCallbackTypedef
    | MethodTable | ChannelInit | EmptyBody | Abort | VoidParameter | ReturnUnimplemented
    | GeneratedBy | LocalChanges | SourceFile | OriginalComments
    | MessageInclude | ServiceInclude | ImportInclude | PortsUndef

  function BracesOf(t: Text): Braces {
    match t
    case CloseBrace => Closes case CloseClass => Closes case CloseBraceBlank => Closes case CloseTable => Closes
    case ServiceFullName => Pair case StubInterfaceDtor => Pair case AsyncInterfaceDtor => Pair
    case AsyncAccessor => Pair case ExperimentalAsyncAccessor => Pair case AsyncCtor => Pair
    case StubAccessor => Pair case StubAsyncAccessor => Pair case AsyncStubField => Pair
    case DerivedCheck => Pair case MixinDtor => Pair case EmptyBody => Pair
    case AsyncBase => Opens case MixinCtor => Opens case MethodTable => Opens
    case _ => NoBrace
  }

  // Where a template mentions a method's index, and for which kind of method
  // the handler or request function it names is meant.
  datatype Use =
    | MarkAsync | MarkGeneric | MarkRaw
    | MarkCallback(handler: Kind) | MarkRawCallback(handler: Kind) | MarkStreamed(handler: Kind)
    | GetHandler
    | RequestAsync(handler: Kind)

  function BracesOfUse(u: Use): Braces {
    match u
    case MarkCallback(Unary) => PairThenCloses   // ...{ return ...; }));}
    case GetHandler => Opens                     // void SetMessageAllocatorFor_...(...) {
    case RequestAsync(_) => NoBrace
    case _ => Pair
  }

  // The bodies of client methods in the source file; each closes the method.
  datatype Body =
    | BlockingUnaryCall | CallbackUnaryCall | CallbackUnaryFactory | AsyncResponseReaderHelper | StartCall
    | SyncFactory(base: ClientBase) | CallbackFactory(base: ClientBase) | AsyncFactory(base: ClientBase)

  datatype GuardLine = Ifndef | Define | Endif

  // A template, or what was printed from it.
  datatype Form =
    // a declaration, or the head of a definition; `qual` is what stands in
    // front of the name, `extra` what follows the last parameter
    | Decl(ret: Ty, qual: seq<Ref>, name: seq<Ref>, params: seq<Ty>, extra: seq<Ref>, tail: Tail)
    // return <ret>(<callee>(... argc arguments and extra));
    | Forward(ret: Ty, callee: seq<Ref>, argc: nat, extra: seq<Ref>)
    // MOCK_METHOD<count>(<name>, <ret>(<params><extra>));
    | MockMethod(count: seq<Ref>, name: seq<Ref>, ret: Ty, params: seq<Ty>, extra: seq<Ref>)
    // const ::grpc::internal::RpcMethod <member>;
    | DataMember(member: seq<Ref>)
    | Class(head: ClassHead, name: seq<Ref>, base: seq<Ref>)
    | Stmt(text: Text, args: seq<Ref>)
    // a use of a method's index; `callee` is the method the handler calls
    | UseIndex(use: Use, owner: seq<Ref>, idx: Ref, types: seq<Ref>, callee: seq<Ref>)
    | TypedefBegin
    | MixinOpen(mixin: seq<Ref>)
    | TypedefBase
    | MixinClose
    | TypedefEnd(alias: string)
    | TableEntry(path: seq<Ref>)
    // , <member>(<table>[<idx>], ..., RpcMethod::<streaming>, channel)
    | StubInit(member: seq<Ref>, table: seq<Ref>, idx: Ref, streaming: Ref)
    // AddMethod(new RpcServiceMethod(<table>[<idx>], RpcMethod::<streaming>, <handler> calling <callee>))
    | AddMethod(table: seq<Ref>, idx: Ref, streaming: Ref, handler: Kind, service: seq<Ref>, types: seq<Ref>,
      callee: seq<Ref>)
    | ClientBody(body: Body, member: seq<Ref>, types: seq<Ref>, extra: seq<Ref>)
    | NsOpen(part: Ref)
    | NsClose(part: Ref)
    | Include(left: Ref, header: Ref, right: Ref)
    | Guard(how: GuardLine, id: seq<Ref>)

  datatype Item =
    | Line(indent: nat, form: Form)
    | Comment(indent: nat, text: string)
    | Raw(text: string)

  // ---- Variables of a template, and printing it. ----

  predicate RefBound(r: Ref, m: Env) { r.V? ==> r.v in m }

  predicate RefsBound(rs: seq<Ref>, m: Env) { forall r :: r in rs ==> RefBound(r, m) }

  predicate TyBound(t: Ty, m: Env) {
    match t
    case T0(_) => true
    case T1(_, a) => RefBound(a, m)
    case T2(_, a, b) => RefBound(a, m) && RefBound(b, m)
  }

  predicate TysBound(ts: seq<Ty>, m: Env) { forall t :: t in ts ==> TyBound(t, m) }

  // Every variable the template mentions has a value.
  predicate Bound(f: Form, m: Env) {
    match f
    case Decl(ret, qual, name, params, extra, _) =>
      TyBound(ret, m) && RefsBound(qual, m) && RefsBound(name, m) && TysBound(params, m) && RefsBound(extra, m)
    case Forward(ret, callee, _, extra) => TyBound(ret, m) && RefsBound(callee, m) && RefsBound(extra, m)
    case MockMethod(count, name, ret, params, extra) =>
      RefsBound(count, m) && RefsBound(name, m) && TyBound(ret, m) && TysBound(params, m) && RefsBound(extra, m)
    case DataMember(member) => RefsBound(member, m)
    case Class(_, name, base) => RefsBound(name, m) && RefsBound(base, m)
    case Stmt(_, args) => RefsBound(args, m)
    case UseIndex(_, owner, idx, types, callee) =>
      RefsBound(owner, m) && RefBound(idx, m) && RefsBound(types, m) && RefsBound(callee, m)
    case MixinOpen(mixin) => RefsBound(mixin, m)
    case TableEntry(path) => RefsBound(path, m)
    case StubInit(member, table, idx, streaming) =>
      RefsBound(member, m) && RefsBound(table, m) && RefBound(idx, m) && RefBound(streaming, m)
    case AddMethod(table, idx, streaming, _, service, types, callee) =>
      RefsBound(table, m) && RefBound(idx, m) && RefBound(streaming, m) && RefsBound(service, m) &&
      RefsBound(types, m) && RefsBound(callee, m)
    case ClientBody(_, member, types, extra) => RefsBound(member, m) && RefsBound(types, m) && RefsBound(extra, m)
    case NsOpen(r) => RefBound(r, m)
    case NsClose(r) => RefBound(r, m)
    case Include(l, h, r) => RefBound(l, m) && RefBound(h, m) && RefBound(r, m)
    case Guard(_, id) => RefsBound(id, m)
    case TypedefBegin => true
    case TypedefBase => true
    case MixinClose => true
    case TypedefEnd(_) => true
  }

  function RRef(r: Ref, m: Env): Ref {
    match r
    case S(_) => r
    case V(v) => S(if v in m then m[v] else "")
  }

  function RRefs(rs: seq<Ref>, m: Env): seq<Ref> { seq(|rs|, i requires 0 <= i < |rs| => RRef(rs[i], m)) }

  function RTy(t: Ty, m: Env): Ty {
    match t
    case T0(_) => t
    case T1(c, a) => T1(c, RRef(a, m))
    case T2(c, a, b) => T2(c, RRef(a, m), RRef(b, m))
  }

  function RTys(ts: seq<Ty>, m: Env): seq<Ty> { seq(|ts|, i requires 0 <= i < |ts| => RTy(ts[i], m)) }

  // The template with the values put in.
  function Render(f: Form, m: Env): Form {
    match f
    case Decl(ret, qual, name, params, extra, tail) =>
      Decl(RTy(ret, m), RRefs(qual, m), RRefs(name, m), RTys(params, m), RRefs(extra, m), tail)
    case Forward(ret, callee, argc, extra) => Forward(RTy(ret, m), RRefs(callee, m), argc, RRefs(extra, m))
    case MockMethod(count, name, ret, params, extra) =>
      MockMethod(RRefs(count, m), RRefs(name, m), RTy(ret, m), RTys(params, m), RRefs(extra, m))
    case DataMember(member) => DataMember(RRefs(member, m))
    case Class(head, name, base) => Class(head, RRefs(name, m), RRefs(base, m))
    case Stmt(text, args) => Stmt(text, RRefs(args, m))
    case UseIndex(use, owner, idx, types, callee) =>
      UseIndex(use, RRefs(owner, m), RRef(idx, m), RRefs(types, m), RRefs(callee, m))
    case MixinOpen(mixin) => MixinOpen(RRefs(mixin, m))
    case TableEntry(path) => TableEntry(RRefs(path, m))
    case StubInit(member, table, idx, streaming) =>
      StubInit(RRefs(member, m), RRefs(table, m), RRef(idx, m), RRef(streaming, m))
    case AddMethod(table, idx, streaming, handler, service, types, callee) =>
      AddMethod(RRefs(table, m), RRef(idx, m), RRef(streaming, m), handler, RRefs(service, m), RRefs(types, m),
        RRefs(callee, m))
    case ClientBody(body, member, types, extra) => ClientBody(body, RRefs(member, m), RRefs(types, m), RRefs(extra, m))
    case NsOpen(r) => NsOpen(RRef(r, m))
    case NsClose(r) => NsClose(RRef(r, m))
    case Include(l, h, r) => Include(RRef(l, m), RRef(h, m), RRef(r, m))
    case Guard(how, id) => Guard(how, RRefs(id, m))
    case TypedefBegin => f
    case TypedefBase => f
    case MixinClose => f
    case TypedefEnd(_) => f
  }

  // The shared map holds, for every variable of `env`, the value `env` gives it.
  predicate Agrees(m: Env, env: Env) { forall v :: v in env ==> v in m && m[v] == env[v] }

  lemma RefsAgree(rs: seq<Ref>, m: Env, env: Env)
    requires Agrees(m, env) && RefsBound(rs, env)
    ensures RefsBound(rs, m) && RRefs(rs, m) == RRefs(rs, env)
  {
    forall i | 0 <= i < |rs| ensures RRefs(rs, m)[i] == RRefs(rs, env)[i] { assert rs[i] in rs; }
  }

  lemma TysAgree(ts: seq<Ty>, m: Env, env: Env)
    requires Agrees(m, env) && TysBound(ts, env)
    ensures TysBound(ts, m) && RTys(ts, m) == RTys(ts, env)
  {
    forall i | 0 <= i < |ts| ensures RTys(ts, m)[i] == RTys(ts, env)[i] { assert ts[i] in ts; }
  }

  lemma DeclAgrees(f: Form, m: Env, env: Env)
    requires f.Decl? || f.Forward? || f.MockMethod?
    requires Agrees(m, env) && Bound(f, env)
    ensures Bound(f, m) && Render(f, m) == Render(f, env)
  {
    hide RRefs, RTys, RefsBound, TysBound;
    match f
    case Decl(_, qual, name, params, extra, _) =>
      RefsAgree(qual, m, env); RefsAgree(name, m, env); TysAgree(params, m, env); RefsAgree(extra, m, env);
    case Forward(_, callee, _, extra) => RefsAgree(callee, m, env); RefsAgree(extra, m, env);
    case MockMethod(count, name, _, params, extra) =>
      RefsAgree(count, m, env); RefsAgree(name, m, env); TysAgree(params, m, env); RefsAgree(extra, m, env);
  }

  lemma WiringAgrees(f: Form, m: Env, env: Env)
    requires f.UseIndex? || f.StubInit? || f.AddMethod? || f.ClientBody?
    requires Agrees(m, env) && Bound(f, env)
    ensures Bound(f, m) && Render(f, m) == Render(f, env)
  {
    hide RRefs, RTys, RefsBound, TysBound;
    match f
    case UseIndex(_, owner, _, types, callee) =>
      RefsAgree(owner, m, env); RefsAgree(types, m, env); RefsAgree(callee, m, env);
    case StubInit(member, table, _, _) => RefsAgree(member, m, env); RefsAgree(table, m, env);
    case AddMethod(table, _, _, _, service, types, callee) =>
      RefsAgree(table, m, env); RefsAgree(service, m, env); RefsAgree(types, m, env); RefsAgree(callee, m, env);
    case ClientBody(_, member, types, extra) =>
      RefsAgree(member, m, env); RefsAgree(types, m, env); RefsAgree(extra, m, env);
  }

  // A template that mentions variables of `env` only prints the same under any
  // map that agrees with `env`, whatever else that map still holds.
  lemma RenderAgrees(f: Form, m: Env, env: Env)
    requires Agrees(m, env) && Bound(f, env)
    ensures Bound(f, m) && Render(f, m) == Render(f, env)
  {
    if f.Decl? || f.Forward? || f.MockMethod? {
      DeclAgrees(f, m, env);
    } else if f.UseIndex? || f.StubInit? || f.AddMethod? || f.ClientBody? {
      WiringAgrees(f, m, env);
    } else {
      hide RRefs, RTys, RefsBound, TysBound;
      match f
      case DataMember(member) => RefsAgree(member, m, env);
      case Class(_, name, base) => RefsAgree(name, m, env); RefsAgree(base, m, env);
      case Stmt(_, args) => RefsAgree(args, m, env);
      case MixinOpen(mixin) => RefsAgree(mixin, m, env);
      case TableEntry(path) => RefsAgree(path, m, env);
      case Guard(_, id) => RefsAgree(id, m, env);
      case _ =>
    }
  }

  // ---- Output ----

  // One template printed.
  function Put(o: seq<Item>, indent: nat, f: Form, env: Env): seq<Item> { o + [Line(indent, Render(f, env))] }

  // One template without variables printed.
  function PutText(o: seq<Item>, indent: nat, t: Text): seq<Item> { Put(o, indent, Stmt(t, []), map[]) }

  // A comment printed: prefixed, and with the characters of the .proto.
  function PutComments(o: seq<Item>, indent: nat, lines: seq<string>): seq<Item> {
    o + [Comment(indent, Commented(lines, "//"))]
  }

  class Vars {
    var m: Env

    constructor ()
      ensures m == map[]
    {
      m := map[];
    }
  }

  class Printer {
    var out: seq<Item>
    var indent: nat

    // CreatePrinter: a printer at the end of the text so far.
    constructor (output: seq<Item>)
      ensures out == output && indent == 0
    {
      out, indent := output, 0;
    }

    // Print(vars, template). `env` is what the variables are meant to hold;
    // the caller shows that the shared map agrees with it and that it covers
    // the template.
    method Print(vars: Vars, f: Form, ghost env: Env)
      requires Agrees(vars.m, env) && Bound(f, env)
      modifies this
      ensures out == Put(old(out), indent, f, env) && indent == old(indent)
    {
      RenderAgrees(f, vars.m, env);
      out := out + [Line(indent, Render(f, vars.m))];
    }

    // Print(text): no variable map, so the text may mention no variable.
    method PrintForm(f: Form)
      requires Bound(f, map[])
      modifies this
      ensures out == Put(old(out), indent, f, map[]) && indent == old(indent)
    {
      out := out + [Line(indent, Render(f, map[]))];
    }

    method PrintText(t: Text)
      modifies this
      ensures out == PutText(old(out), indent, t) && indent == old(indent)
    {
      PrintForm(Stmt(t, []));
    }

    // Print(comments): the escaped comment text goes through the printer.
    method PrintComments(lines: seq<string>)
      modifies this
      ensures out == PutComments(old(out), indent, lines) && indent == old(indent)
    {
      var template := GenerateCommentsWithPrefix(lines, "//");
      CommentsSurvivePrinting(lines, "//", map[]);
      out := out + [Comment(indent, Expand(template, map[]).text)];
    }

    // PrintRaw: the text as it is.
    method PrintRaw(text: string)
      modifies this
      ensures out == old(out) + [Raw(text)] && indent == old(indent)
    {
      out := out + [Raw(text)];
    }

    method Indent()
      modifies this
      ensures out == old(out) && indent == old(indent) + 1
    {
      indent := indent + 1;
    }

    // Outdent without a matching Indent is an error of the caller.
    method Outdent()
      requires indent > 0
      modifies this
      ensures out == old(out) && indent == old(indent) - 1
    {
      indent := indent - 1;
    }
  }

  // ---- Per-method variables ----

  // The variables the passes over methods set and set again.
  predicate Local(v: Var) {
    v.VMethod? || v.VRequest? || v.VResponse? || v.VRealRequest? || v.VRealResponse? || v.VIdx? || v.VMethodName? ||
    v.VAsyncPrefix? || v.VAsyncMethodParams? || v.VAsyncRawArgs? || v.VAsyncStart? || v.VAsyncCreateArgs? ||
    v.VMockArgs? || v.VStreamingType?
  }

  // From m to m' only per-method variables changed.
  predicate OnlyLocals(m: Env, m': Env) {
    forall v :: !Local(v) ==> (v in m <==> v in m') && (v in m ==> m[v] == m'[v])
  }

  lemma NothingSet(m: Env)
    ensures OnlyLocals(m, m)
  {
  }

  lemma OnlyLocalsTrans(a: Env, b: Env, c: Env)
    requires OnlyLocals(a, b) && OnlyLocals(b, c)
    ensures OnlyLocals(a, c)
  {
  }

  lemma OuterKept(m: Env, m': Env, outer: Env)
    requires OnlyLocals(m, m') && Agrees(m, outer) && forall v :: v in outer ==> !Local(v)
    ensures Agrees(m', outer)
  {
  }

  // Nothing but per-method variables and the service's name changed.
  predicate OnlyService(m: Env, m': Env) {
    forall v :: !Local(v) && v != VService ==> (v in m <==> v in m') && (v in m ==> m[v] == m'[v])
  }

  lemma OnlyServiceThen(a: Env, b: Env, c: Env)
    requires OnlyService(a, b) && OnlyLocals(b, c)
    ensures OnlyService(a, c)
  {
  }

  function MethodEnv(m: Method): Env {
    map[VMethod := m.name, VRequest := m.inputType, VResponse := m.outputType]
  }

  // (*vars)["Method"] = ..., which every pass begins with
  method SetMethod(vars: Vars, m: Method)
    modifies vars
    ensures Agrees(vars.m, MethodEnv(m)) && OnlyLocals(old(vars.m), vars.m)
    ensures VIdx in old(vars.m) ==> VIdx in vars.m && vars.m[VIdx] == old(vars.m[VIdx])
  {
    vars.m := vars.m[VMethod := m.name];
    vars.m := vars.m[VRequest := m.inputType];
    vars.m := vars.m[VResponse := m.outputType];
  }

  // The entries of the async_prefixes tables.
  datatype AsyncPrefix = AsyncPrefix(prefix: string, methodParams: string, rawArgs: string)

  function Prefix(i: nat): AsyncPrefix {
    if i == 0 then AsyncPrefix("Async", ", void* tag", ", tag") else AsyncPrefix("PrepareAsync", "", "")
  }

  // How much of an entry a loop over the table puts into the variables.
  datatype AsyncVars = PrefixOnly | PrefixAndParams | AllAsyncVars

  function AsyncEnv(m: Method, a: AsyncPrefix, av: AsyncVars): Env {
    match av
    case PrefixOnly => MethodEnv(m)[VAsyncPrefix := a.prefix]
    case PrefixAndParams => MethodEnv(m)[VAsyncPrefix := a.prefix][VAsyncMethodParams := a.methodParams]
    case AllAsyncVars =>
      MethodEnv(m)[VAsyncPrefix := a.prefix][VAsyncMethodParams := a.methodParams][VAsyncRawArgs := a.rawArgs]
  }

  method SetAsyncPrefix(vars: Vars, ghost m: Method, a: AsyncPrefix, av: AsyncVars)
    requires Agrees(vars.m, MethodEnv(m))
    modifies vars
    ensures Agrees(vars.m, AsyncEnv(m, a, av)) && Agrees(vars.m, MethodEnv(m)) && OnlyLocals(old(vars.m), vars.m)
  {
    vars.m := vars.m[VAsyncPrefix := a.prefix];
    if av != PrefixOnly {
      vars.m := vars.m[VAsyncMethodParams := a.methodParams];
      if av == AllAsyncVars {
        vars.m := vars.m[VAsyncRawArgs := a.rawArgs];
      }
    }
  }
}
