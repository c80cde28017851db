// The members of every mixin class, written down from the method alone: its
// index, its streaming kind and the types its messages travel as.
module MixinLists {
  import opened Schema
  import opened Emit
  import opened Structure
  import opened ServerTemplates
  import opened HeaderService
  import opened ServerFacts
  import opened HeaderFacts
  import opened Signatures
  import opened Decimal

  // ---- The mixin passes ----

  predicate MixinPass(pass: Pass) {
    pass in {AsyncMixins, CallbackMixins, GenericMixins, RawMixins, RawCallbackMixins, StreamedUnaryMixins, SplitMixins}
  }

  function PassPrefix(pass: Pass): string {
    match pass
    case AsyncMixins => "WithAsyncMethod_"
    case CallbackMixins => "WithCallbackMethod_"
    case GenericMixins => "WithGenericMethod_"
    case RawMixins => "WithRawMethod_"
    case RawCallbackMixins => "WithRawCallbackMethod_"
    case StreamedUnaryMixins => "WithStreamedUnaryMethod_"
    case SplitMixins => "WithSplitStreamingMethod_"
    case _ => ""
  }

  // The methods a pass has a mixin for.
  predicate Applies(pass: Pass, m: Method) {
    (pass == StreamedUnaryMixins ==> m.Kind() == Unary) && (pass == SplitMixins ==> m.Kind() == ServerStreaming)
  }

  // ---- The members of a mixin ----

  // The types a family's messages travel as: the method's own, or bytes.
  function RequestAs(pass: Pass, m: Method): string {
    if pass == RawMixins || pass == RawCallbackMixins then "::grpc::ByteBuffer" else m.inputType
  }

  function ResponseAs(pass: Pass, m: Method): string {
    if pass == RawMixins || pass == RawCallbackMixins then "::grpc::ByteBuffer" else m.outputType
  }

  function OwnName(pass: Pass, m: Method): seq<Ref> { [S(PassPrefix(pass)), S(m.name)] }

  // What the constructor of a mixin of the family does for method number i.
  function Marks(pass: Pass, m: Method, i: nat): seq<Fact>
    requires MixinPass(pass)
  {
    var own, idx, k := OwnName(pass, m), S(Dec(i)), m.Kind();
    var types := [S(RequestAs(pass, m)), S(ResponseAs(pass, m))];
    match pass
    case AsyncMixins => [IndexUsed(MarkAsync, own, idx, [], [])]
    case GenericMixins => [IndexUsed(MarkGeneric, own, idx, [], [])]
    case RawMixins => [IndexUsed(MarkRaw, own, idx, [], [])]
    case CallbackMixins =>
      [Said(MixinCtor, own)] + [IndexUsed(MarkCallback(k), [], idx, types, [S(m.name)])] +
      (if k == Unary then [IndexUsed(GetHandler, [S("SetMessageAllocatorFor_"), S(m.name)], idx, types, [])] else [])
    case RawCallbackMixins =>
      [Said(MixinCtor, own)] + [IndexUsed(MarkRawCallback(k), [], idx, types, [S(m.name)])]
    case StreamedUnaryMixins => [IndexUsed(MarkStreamed(Unary), own, idx, types, [S("Streamed"), S(m.name)])]
    case SplitMixins => [IndexUsed(MarkStreamed(ServerStreaming), own, idx, types, [S("Streamed"), S(m.name)])]
  }

  // The synchronous function it disables, which streamed mixins always do.
  function Disables(pass: Pass, m: Method, ps: Parameters): seq<Fact> {
    if ps.allowSyncServerApi || pass == StreamedUnaryMixins || pass == SplitMixins
    then [InlineOverrideDecl(ServiceSig(m))] else []
  }

  // What it offers in its place.
  function Offers(pass: Pass, m: Method, i: nat): seq<Fact>
    requires MixinPass(pass)
  {
    var request, response := RequestAs(pass, m), ResponseAs(pass, m);
    match pass
    case GenericMixins => []
    case CallbackMixins => [InlineDecl(ReactionSig(m, request, response))]
    case RawCallbackMixins => [InlineDecl(ReactionSig(m, request, response))]
    case StreamedUnaryMixins => [PureDecl(StreamedUnarySig(m))]
    case SplitMixins => [PureDecl(SplitSig(m))]
    case _ =>
      [InlineDecl(RequestSig(m, request, response))] +
      [IndexUsed(RequestAsync(m.Kind()), [], S(Dec(i)), [], [])]
  }

  function MixinMembers(pass: Pass, m: Method, i: nat, ps: Parameters): seq<Fact>
    requires MixinPass(pass)
  {
    [Said(PublicLabel, [])] + Marks(pass, m, i) + [Said(MixinDtor, OwnName(pass, m))] +
    (Disables(pass, m, ps) + Offers(pass, m, i))
  }

  function MixinFor(pass: Pass, m: Method, i: nat, ps: Parameters): Fact
    requires MixinPass(pass)
  {
    ClassBody(MixinClass, OwnName(pass, m), [], MixinMembers(pass, m, i, ps))
  }

  // ---- That is what the passes print. ----

  predicate ForMixin(env: Env, m: Method, i: nat) { ForMethod(env, m) && VIdx in env && env[VIdx] == Dec(i) }

  predicate ForReal(env: Env, request: string, response: string) {
    VRealRequest in env && VRealResponse in env && env[VRealRequest] == request && env[VRealResponse] == response
  }

  lemma MixinEnvs(m: Method, i: nat)
    ensures ForMixin(IndexEnv(m, i), m, i)
    ensures ForMixin(MixinEnv(m, i, OwnTypes(m)), m, i) && ForMixin(MixinEnv(m, i, ByteBuffers()), m, i)
    ensures ForReal(MixinEnv(m, i, OwnTypes(m)), m.inputType, m.outputType)
    ensures ForReal(MixinEnv(m, i, ByteBuffers()), "::grpc::ByteBuffer", "::grpc::ByteBuffer")
  {
    hide Dec;
  }

  lemma NamesAre(prefix: string, m: Method, env: Env)
    requires ForMethod(env, m)
    ensures RRefs(MixinName(prefix), env) == [S(prefix), S(m.name)]
    ensures MixinScope(prefix, env) == ClassScope(MixinClass, [S(prefix), S(m.name)], [])
  {
    RenderedRefs();
    hide RRefs;
  }

  lemma DisableIs(m: Method, env: Env, ps: Parameters)
    requires ForMethod(env, m)
    ensures DisableFacts(m.Kind(), ps, env) == if ps.allowSyncServerApi then [InlineOverrideDecl(ServiceSig(m))] else []
    ensures m.Kind() == Unary ==> DeclFacts(DisableRegularUnary(), env) == [InlineOverrideDecl(ServiceSig(m))]
    ensures m.Kind() == ServerStreaming ==>
            DeclFacts(DisableRegularServerStreaming(), env) == [InlineOverrideDecl(ServiceSig(m))]
  {
    hide RRefs, RTys, RTy, ServiceSig;
    ServiceSigs(m, env);
  }

  lemma RequestIs(m: Method, env: Env, request: string, response: string)
    requires ForMethod(env, m) && ForReal(env, request, response)
    ensures DeclFacts(AsyncRequest(m.Kind()), env) == [InlineDecl(RequestSig(m, request, response))]
  {
    RenderedRefs();
    hide RRefs;
    var f := AsyncRequest(m.Kind());
    assert RTys(f.params, env) == RequestSig(m, request, response).params;
  }

  lemma ReactionIs(m: Method, env: Env, request: string, response: string)
    requires ForMethod(env, m) && ForReal(env, request, response)
    ensures DeclFacts(CallbackVirtual(m.Kind()), env) == [InlineDecl(ReactionSig(m, request, response))]
  {
    RenderedRefs();
    RenderedTys();
    hide RRefs, RTys;
  }

  lemma StreamedAre(m: Method, env: Env)
    requires ForMethod(env, m)
    ensures DeclFacts(StreamedUnaryVirtual(), env) == [PureDecl(StreamedUnarySig(m))]
    ensures DeclFacts(SplitVirtual(), env) == [PureDecl(SplitSig(m))]
  {
    RenderedRefs();
    RenderedTys();
    hide RRefs, RTys;
  }

  lemma PlainUsesAre(m: Method, i: nat, env: Env)
    requires ForMixin(env, m, i)
    ensures UseFacts(AsyncCtorForm(), env) == [IndexUsed(MarkAsync, OwnName(AsyncMixins, m), S(Dec(i)), [], [])]
    ensures UseFacts(GenericCtorForm(), env) == [IndexUsed(MarkGeneric, OwnName(GenericMixins, m), S(Dec(i)), [], [])]
    ensures UseFacts(RawCtorForm(), env) == [IndexUsed(MarkRaw, OwnName(RawMixins, m), S(Dec(i)), [], [])]
    ensures UseFacts(AsyncRequestCall(m.Kind()), env) == [IndexUsed(RequestAsync(m.Kind()), [], S(Dec(i)), [], [])]
  {
    RenderedRefs();
    hide RRefs, Dec;
  }

  lemma CallbackUsesAre(m: Method, i: nat, env: Env, request: string, response: string)
    requires ForMixin(env, m, i) && ForReal(env, request, response)
    ensures UseFacts(CallbackMark(m.Kind()), env) ==
            [IndexUsed(MarkCallback(m.Kind()), [], S(Dec(i)), [S(request), S(response)], [S(m.name)])]
    ensures UseFacts(RawCallbackMark(m.Kind()), env) ==
            [IndexUsed(MarkRawCallback(m.Kind()), [], S(Dec(i)), [S(request), S(response)], [S(m.name)])]
  {
    RenderedRefs();
    hide RRefs, Dec;
  }

  lemma AllocatorIs(m: Method, i: nat, env: Env, request: string, response: string)
    requires ForMixin(env, m, i) && ForReal(env, request, response)
    ensures UseFacts(MessageAllocator(), env) ==
            [IndexUsed(GetHandler, [S("SetMessageAllocatorFor_"), S(m.name)], S(Dec(i)), [S(request), S(response)], [])]
  {
    RenderedRefs();
    hide RRefs, Dec;
  }

  lemma StreamedUsesAre(m: Method, i: nat, env: Env)
    requires ForMixin(env, m, i)
    ensures UseFacts(StreamedUnaryCtor(), env) ==
            [IndexUsed(MarkStreamed(Unary), OwnName(StreamedUnaryMixins, m), S(Dec(i)),
                       [S(m.inputType), S(m.outputType)], [S("Streamed"), S(m.name)])]
    ensures UseFacts(SplitCtor(), env) ==
            [IndexUsed(MarkStreamed(ServerStreaming), OwnName(SplitMixins, m), S(Dec(i)),
                       [S(m.inputType), S(m.outputType)], [S("Streamed"), S(m.name)])]
  {
    RenderedRefs();
    hide RRefs, Dec;
  }

  // One class, put together.
  lemma MixinIs(pass: Pass, m: Method, i: nat, ps: Parameters, env: Env, rest: seq<Fact>)
    requires MixinPass(pass) && ForMethod(env, m) && rest == Disables(pass, m, ps) + Offers(pass, m, i)
    ensures MixinFacts(PassPrefix(pass), Marks(pass, m, i), rest, env) == [MixinFor(pass, m, i, ps)]
  {
    hide PassPrefix, Marks, Disables, Offers, MixinScope, ForMethod;
    NamesAre(PassPrefix(pass), m, env);
  }

  lemma AsyncLikeIs(pass: Pass, m: Method, i: nat, ps: Parameters)
    requires pass in {AsyncMixins, GenericMixins, RawMixins}
    ensures RoundFacts(pass, m, i, ps) == [MixinFor(pass, m, i, ps)]
  {
    hide DeclFacts, UseFacts, MixinFacts, DisableFacts, MixinEnv, IndexEnv, ByteBuffers, ForMixin, ForReal, Dec,
      RequestSig, ServiceSig, MixinFor;
    var env := if pass == AsyncMixins then MixinEnv(m, i, OwnTypes(m))
               else if pass == RawMixins then MixinEnv(m, i, ByteBuffers()) else IndexEnv(m, i);
    MixinEnvs(m, i);
    assert ForMethod(env, m) by { EnvIsForMethod(env, m, i); }
    PlainUsesAre(m, i, env);
    DisableIs(m, env, ps);
    if pass != GenericMixins {
      RequestIs(m, env, RequestAs(pass, m), ResponseAs(pass, m));
      MixinIs(pass, m, i, ps, env, AsyncHelperFacts(m.Kind(), ps, env));
    } else {
      assert Disables(pass, m, ps) + [] == Disables(pass, m, ps);
      MixinIs(pass, m, i, ps, env, DisableFacts(m.Kind(), ps, env));
    }
  }

  lemma EnvIsForMethod(env: Env, m: Method, i: nat)
    requires ForMixin(env, m, i)
    ensures ForMethod(env, m)
  {
  }

  lemma CallbackStarts(m: Method, i: nat, env: Env, pass: Pass)
    requires pass in {CallbackMixins, RawCallbackMixins} && ForMixin(env, m, i)
    requires ForReal(env, RequestAs(pass, m), ResponseAs(pass, m))
    ensures CtorFacts(PassPrefix(pass), env) +
            (if pass == CallbackMixins then CallbackMarkFacts(m.Kind(), env)
             else UseFacts(RawCallbackMark(m.Kind()), env)) == Marks(pass, m, i)
  {
    hide UseFacts, ForMixin, ForReal, Dec, ForMethod, PassPrefix, RRefs, RequestAs, ResponseAs;
    EnvIsForMethod(env, m, i);
    NamesAre(PassPrefix(pass), m, env);
    CallbackUsesAre(m, i, env, RequestAs(pass, m), ResponseAs(pass, m));
    AllocatorIs(m, i, env, RequestAs(pass, m), ResponseAs(pass, m));
  }

  lemma CallbackEnds(pass: Pass, m: Method, i: nat, ps: Parameters, env: Env)
    requires pass in {CallbackMixins, RawCallbackMixins} && ForMixin(env, m, i)
    requires ForReal(env, RequestAs(pass, m), ResponseAs(pass, m))
    ensures CallbackHelperFacts(m.Kind(), ps, env) == Disables(pass, m, ps) + Offers(pass, m, i)
  {
    hide DeclFacts, DisableFacts, ForMixin, ForReal, ReactionSig, ServiceSig, ForMethod;
    EnvIsForMethod(env, m, i);
    DisableIs(m, env, ps);
    ReactionIs(m, env, RequestAs(pass, m), ResponseAs(pass, m));
  }

  lemma CallbackIs(m: Method, i: nat, ps: Parameters)
    ensures CallbackMixinFacts(m, i, ps) == [MixinFor(CallbackMixins, m, i, ps)]
  {
    hide MixinFacts, MixinEnv, ForMixin, ForReal, MixinFor, ForMethod, CtorFacts, CallbackMarkFacts,
      CallbackHelperFacts, Marks, Disables, Offers;
    var env := MixinEnv(m, i, OwnTypes(m));
    MixinEnvs(m, i);
    EnvIsForMethod(env, m, i);
    CallbackStarts(m, i, env, CallbackMixins);
    CallbackEnds(CallbackMixins, m, i, ps, env);
    MixinIs(CallbackMixins, m, i, ps, env, CallbackHelperFacts(m.Kind(), ps, env));
  }

  lemma RawCallbackIs(m: Method, i: nat, ps: Parameters)
    ensures RawCallbackMixinFacts(m, i, ps) == [MixinFor(RawCallbackMixins, m, i, ps)]
  {
    hide MixinFacts, MixinEnv, ForMixin, ForReal, MixinFor, ForMethod, CtorFacts, UseFacts, CallbackHelperFacts, Marks,
      Disables, Offers, ByteBuffers;
    var env := MixinEnv(m, i, ByteBuffers());
    MixinEnvs(m, i);
    EnvIsForMethod(env, m, i);
    CallbackStarts(m, i, env, RawCallbackMixins);
    CallbackEnds(RawCallbackMixins, m, i, ps, env);
    MixinIs(RawCallbackMixins, m, i, ps, env, CallbackHelperFacts(m.Kind(), ps, env));
  }

  lemma StreamedLikeIs(pass: Pass, m: Method, i: nat, ps: Parameters)
    requires pass in {StreamedUnaryMixins, SplitMixins} && Applies(pass, m)
    ensures RoundFacts(pass, m, i, ps) == [MixinFor(pass, m, i, ps)]
  {
    hide DeclFacts, UseFacts, MixinFacts, IndexEnv, ForMixin, Dec, ServiceSig, StreamedUnarySig, SplitSig, MixinFor,
      ForMethod;
    var env := IndexEnv(m, i);
    MixinEnvs(m, i);
    EnvIsForMethod(env, m, i);
    StreamedUsesAre(m, i, env);
    StreamedAre(m, env);
    DisableIs(m, env, ps);
    MixinIs(pass, m, i, ps, env, Disables(pass, m, ps) + Offers(pass, m, i));
  }

  // A round of a mixin pass makes the one class of its family for the method,
  // if the family has one.
  lemma RoundIsMixin(pass: Pass, m: Method, i: nat, ps: Parameters)
    requires MixinPass(pass)
    ensures RoundFacts(pass, m, i, ps) == if Applies(pass, m) then [MixinFor(pass, m, i, ps)] else []
  {
    hide MixinFor, AsyncMixinFacts, CallbackMixinFacts, GenericMixinFacts, RawMixinFacts, RawCallbackMixinFacts;
    if pass in {AsyncMixins, GenericMixins, RawMixins} {
      AsyncLikeIs(pass, m, i, ps);
    } else if pass == CallbackMixins {
      CallbackIs(m, i, ps);
    } else if pass == RawCallbackMixins {
      RawCallbackIs(m, i, ps);
    } else if Applies(pass, m) {
      StreamedLikeIs(pass, m, i, ps);
    }
  }
}
