// What the reader finds in the server half of a header, pass by pass.
module ServerFacts {
  import opened Schema
  import opened Emit
  import opened Structure
  import opened ServerTemplates
  import opened ServerHeader

  function UseFact(f: Form): Fact
    requires f.UseIndex?
  {
    IndexUsed(f.use, f.owner, f.idx, f.types, f.callee)
  }

  function UseFacts(f: Form, env: Env): seq<Fact>
    requires f.UseIndex?
  {
    [UseFact(Render(f, env))]
  }

  function ServiceSyncFacts(m: Method, ps: Parameters): seq<Fact> {
    Noted(Render(ServiceSync(m.Kind()), MethodEnv(m)), ps.allowSyncServerApi)
  }

  function MixinScope(prefix: string, env: Env): Scope {
    ClassScope(MixinClass, RRefs(MixinName(prefix), env), RRefs([], env))
  }

  function DisableFacts(k: Kind, ps: Parameters, env: Env): seq<Fact> {
    if ps.allowSyncServerApi then DeclFacts(DisableSync(k), env) else []
  }

  function AsyncHelperFacts(k: Kind, ps: Parameters, env: Env): seq<Fact> {
    DisableFacts(k, ps, env) + (DeclFacts(AsyncRequest(k), env) + UseFacts(AsyncRequestCall(k), env))
  }

  function CallbackHelperFacts(k: Kind, ps: Parameters, env: Env): seq<Fact> {
    DisableFacts(k, ps, env) + DeclFacts(CallbackVirtual(k), env)
  }

  // A mixin class: what its constructor says, and what follows its destructor.
  function MixinFacts(prefix: string, start: seq<Fact>, rest: seq<Fact>, env: Env): seq<Fact> {
    Closed(MixinScope(prefix, env),
           [Said(PublicLabel, [])] + start + [Said(MixinDtor, RRefs(MixinName(prefix), env))] + rest)
  }

  function CtorFacts(prefix: string, env: Env): seq<Fact> { [Said(MixinCtor, RRefs(MixinName(prefix), env))] }

  function AsyncMixinFacts(m: Method, i: nat, ps: Parameters): seq<Fact> {
    var env := MixinEnv(m, i, OwnTypes(m));
    MixinFacts("WithAsyncMethod_", UseFacts(AsyncCtorForm(), env), AsyncHelperFacts(m.Kind(), ps, env), env)
  }

  function RawMixinFacts(m: Method, i: nat, ps: Parameters): seq<Fact> {
    var env := MixinEnv(m, i, ByteBuffers());
    MixinFacts("WithRawMethod_", UseFacts(RawCtorForm(), env), AsyncHelperFacts(m.Kind(), ps, env), env)
  }

  function CallbackMarkFacts(k: Kind, env: Env): seq<Fact> {
    UseFacts(CallbackMark(k), env) + (if k == Unary then UseFacts(MessageAllocator(), env) else [])
  }

  function CallbackMixinFacts(m: Method, i: nat, ps: Parameters): seq<Fact> {
    var env := MixinEnv(m, i, OwnTypes(m));
    MixinFacts("WithCallbackMethod_", CtorFacts("WithCallbackMethod_", env) + CallbackMarkFacts(m.Kind(), env),
               CallbackHelperFacts(m.Kind(), ps, env), env)
  }

  function RawCallbackMixinFacts(m: Method, i: nat, ps: Parameters): seq<Fact> {
    var env := MixinEnv(m, i, ByteBuffers());
    MixinFacts("WithRawCallbackMethod_",
               CtorFacts("WithRawCallbackMethod_", env) + UseFacts(RawCallbackMark(m.Kind()), env),
               CallbackHelperFacts(m.Kind(), ps, env), env)
  }

  function StreamedFacts(prefix: string, ctor: Form, disabled: Form, streamed: Form, env: Env): seq<Fact>
    requires ctor.UseIndex? && disabled.Decl? && streamed.Decl?
  {
    MixinFacts(prefix, UseFacts(ctor, env), DeclFacts(disabled, env) + DeclFacts(streamed, env), env)
  }

  function StreamedUnaryFacts(m: Method, i: nat): seq<Fact> {
    if m.Kind() != Unary then []
    else
      StreamedFacts("WithStreamedUnaryMethod_", StreamedUnaryCtor(), DisableRegularUnary(), StreamedUnaryVirtual(),
        IndexEnv(m, i))
  }

  function SplitFacts(m: Method, i: nat): seq<Fact> {
    if m.Kind() != ServerStreaming then []
    else
      StreamedFacts("WithSplitStreamingMethod_", SplitCtor(), DisableRegularServerStreaming(), SplitVirtual(),
        IndexEnv(m, i))
  }

  function GenericMixinFacts(m: Method, i: nat, ps: Parameters): seq<Fact> {
    var env := IndexEnv(m, i);
    MixinFacts("WithGenericMethod_", UseFacts(GenericCtorForm(), env), DisableFacts(m.Kind(), ps, env), env)
  }

  // ---- The reader finds them. ----

  lemma ServiceSyncRead(o: seq<Item>, ind: nat, m: Method, ps: Parameters)
    requires Ready(After(o))
    ensures After(ServiceSyncOutput(o, ind, m, ps)) == Plus(After(o), ServiceSyncFacts(m, ps))
  {
    hide After, Put, PutComments, RRefs, RTys, RTy;
    var o1 := PutComments(o, ind, m.leading);
    AfterComments(o, ind, m.leading);
    AfterText(o1, ind, VirtualKeyword);
    var o2 := if ps.allowSyncServerApi then PutText(o1, ind, VirtualKeyword) else o1;
    AfterPut(o2, ind, ServiceSync(m.Kind()), MethodEnv(m));
    AfterComments(Put(o2, ind, ServiceSync(m.Kind()), MethodEnv(m)), ind, m.trailing);
  }

  lemma MixinHeadRead(o: seq<Item>, ind: nat, prefix: string, env: Env)
    requires Ready(After(o))
    ensures After(MixinHead(o, ind, prefix, env)) ==
            Plus(Enter(After(o), MixinScope(prefix, env)), [Said(PublicLabel, [])])
  {
    hide After, Put, PutText, RRefs;
    TextRead(o, ind, TemplateLine);
    var o1 := PutText(o, ind, TemplateLine);
    AfterPut(o1, ind, MixinHeadForm(prefix), env);
    var o2 := Put(o1, ind, MixinHeadForm(prefix), env);
    TextRead(o2, ind, DerivedCheck);
    LabelRead(PutText(o2, ind, DerivedCheck), ind, PublicLabel);
  }

  lemma DtorRead(o: seq<Item>, ind: nat, prefix: string, env: Env, t: State, before: seq<Fact>)
    requires Ready(t) && After(o) == Plus(t, before)
    ensures After(Put(o, ind, MixinDtorForm(prefix), env)) ==
            Plus(t, before + [Said(MixinDtor, RRefs(MixinName(prefix), env))])
  {
    hide After, Put, RRefs;
    SaidRead(o, ind, MixinDtor, MixinName(prefix), env);
    PlusPlus(t, before, [Said(MixinDtor, RRefs(MixinName(prefix), env))]);
  }

  // From the end of a mixin's constructor to the end of the class.
  lemma MixinEnd(o: seq<Item>, ind: nat, t: State, prefix: string, start: seq<Fact>, rest: seq<Fact>, env: Env)
    requires Ready(t)
    requires After(o) == Plus(Enter(t, MixinScope(prefix, env)),
                              [Said(PublicLabel, [])] + start + [Said(MixinDtor, RRefs(MixinName(prefix), env))] + rest)
    ensures After(PutText(o, ind, CloseClass)) == Plus(t, MixinFacts(prefix, start, rest, env))
  {
    hide After, PutText, RRefs, Closed;
    MixinScopeIsClass(prefix, env);
    ClassEndRead(o, ind, t, MixinScope(prefix, env),
      [Said(PublicLabel, [])] + start + [Said(MixinDtor, RRefs(MixinName(prefix), env))] + rest);
  }

  lemma UseRead(o: seq<Item>, ind: nat, f: Form, env: Env)
    requires Ready(After(o)) && f.UseIndex? && (BracesOfUse(f.use) == Pair || BracesOfUse(f.use) == NoBrace)
    ensures After(Put(o, ind, f, env)) == Plus(After(o), UseFacts(f, env))
  {
    hide After, Put, RRefs, BracesOfUse;
    AfterPut(o, ind, f, env);
  }

  lemma BlockEndRead(o: seq<Item>, ind: nat, t: State, fs: seq<Fact>)
    requires Ready(t) && After(o) == Plus(Enter(t, Block), fs)
    ensures After(PutText(o, ind, CloseBrace)) == Plus(t, fs)
  {
    hide After, PutText;
    AfterText(o, ind, CloseBrace);
    LeaveBlock(t, fs);
  }

  lemma DisableRead(o: seq<Item>, ind: nat, k: Kind, ps: Parameters, env: Env)
    requires Ready(After(o))
    ensures After(if ps.allowSyncServerApi then Put(o, ind, DisableSync(k), env) else o) ==
            Plus(After(o), DisableFacts(k, ps, env))
  {
    hide After, Put, DeclFacts;
    PlusNothing(After(o));
    DeclRead(o, ind, DisableSync(k), env);
  }

  lemma AsyncHelperRead(o: seq<Item>, ind: nat, k: Kind, ps: Parameters, env: Env)
    requires Ready(After(o))
    ensures After(AsyncHelperOutput(o, ind, k, ps, env)) == Plus(After(o), AsyncHelperFacts(k, ps, env))
  {
    hide After, Put, PutText, DisableFacts, Noted, UseFacts, Render;
    DisableRead(o, ind, k, ps, env);
    var o1 := if ps.allowSyncServerApi then Put(o, ind, DisableSync(k), env) else o;
    AfterDecl(o1, ind, AsyncRequest(k), env);
    var o2 := Put(o1, ind, AsyncRequest(k), env);
    UseRead(o2, ind, AsyncRequestCall(k), env);
    var t := Plus(After(o1), DeclFacts(AsyncRequest(k), env));
    BlockEndRead(Put(o2, ind, AsyncRequestCall(k), env), ind, t, UseFacts(AsyncRequestCall(k), env));
    PlusPlus(After(o1), DeclFacts(AsyncRequest(k), env), UseFacts(AsyncRequestCall(k), env));
    PlusPlus(After(o), DisableFacts(k, ps, env), DeclFacts(AsyncRequest(k), env) + UseFacts(AsyncRequestCall(k), env));
  }

  lemma CallbackHelperRead(o: seq<Item>, ind: nat, k: Kind, ps: Parameters, env: Env)
    requires Ready(After(o))
    ensures After(CallbackHelperOutput(o, ind, k, ps, env)) == Plus(After(o), CallbackHelperFacts(k, ps, env))
  {
    hide After, Put, DisableFacts, DeclFacts;
    DisableRead(o, ind, k, ps, env);
    var o1 := if ps.allowSyncServerApi then Put(o, ind, DisableSync(k), env) else o;
    DeclRead(o1, ind, CallbackVirtual(k), env);
    PlusPlus(After(o), DisableFacts(k, ps, env), DeclFacts(CallbackVirtual(k), env));
  }

  // A mixin class that marks its method in one print, up to its destructor.
  lemma MarkedRead(o: seq<Item>, ind: nat, prefix: string, ctor: Form, env: Env)
    requires Ready(After(o)) && ctor.UseIndex? && BracesOfUse(ctor.use) == Pair
    ensures var o1 := Put(MixinHead(o, ind, prefix, env), ind + 1, ctor, env);
      After(Put(o1, ind + 1, MixinDtorForm(prefix), env)) ==
      Plus(Enter(After(o), MixinScope(prefix, env)),
           [Said(PublicLabel, [])] + UseFacts(ctor, env) + [Said(MixinDtor, RRefs(MixinName(prefix), env))])
  {
    hide After, Put, MixinHead, MixinScope, UseFacts, MixinDtorForm, RRefs;
    MixinHeadRead(o, ind, prefix, env);
    var o0 := MixinHead(o, ind, prefix, env);
    UseRead(o0, ind + 1, ctor, env);
    var t := Enter(After(o), MixinScope(prefix, env));
    PlusPlus(t, [Said(PublicLabel, [])], UseFacts(ctor, env));
    DtorRead(Put(o0, ind + 1, ctor, env), ind + 1, prefix, env, t, [Said(PublicLabel, [])] + UseFacts(ctor, env));
  }

  lemma AsyncLikeRead(o: seq<Item>, ind: nat, prefix: string, ctor: Form, k: Kind, ps: Parameters, env: Env)
    requires Ready(After(o)) && ctor.UseIndex? && BracesOfUse(ctor.use) == Pair
    ensures var o1 := Put(MixinHead(o, ind, prefix, env), ind + 1, ctor, env);
      var o2 := Put(o1, ind + 1, MixinDtorForm(prefix), env);
      After(PutText(AsyncHelperOutput(o2, ind + 1, k, ps, env), ind, CloseClass)) ==
      Plus(After(o), MixinFacts(prefix, UseFacts(ctor, env), AsyncHelperFacts(k, ps, env), env))
  {
    hide After, Put, PutText, MixinHead, MixinScope, AsyncHelperOutput, AsyncHelperFacts, UseFacts, MixinFacts,
      MixinDtorForm, RRefs;
    MarkedRead(o, ind, prefix, ctor, env);
    var o2 := Put(Put(MixinHead(o, ind, prefix, env), ind + 1, ctor, env), ind + 1, MixinDtorForm(prefix), env);
    AsyncHelperRead(o2, ind + 1, k, ps, env);
    PlusPlus(Enter(After(o), MixinScope(prefix, env)),
             [Said(PublicLabel, [])] + UseFacts(ctor, env) + [Said(MixinDtor, RRefs(MixinName(prefix), env))],
             AsyncHelperFacts(k, ps, env));
    MixinEnd(AsyncHelperOutput(o2, ind + 1, k, ps, env), ind, After(o), prefix, UseFacts(ctor, env),
             AsyncHelperFacts(k, ps, env), env);
  }

  lemma MixinScopeIsClass(prefix: string, env: Env)
    ensures MixinScope(prefix, env).ClassScope?
  {
  }

  lemma AsyncMixinRead(o: seq<Item>, ind: nat, m: Method, i: nat, ps: Parameters)
    requires Ready(After(o))
    ensures After(AsyncMixin(o, ind, m, i, ps)) == Plus(After(o), AsyncMixinFacts(m, i, ps))
  {
    hide After, Put, PutText, MixinHead, AsyncHelperOutput, AsyncHelperFacts, UseFacts, MixinFacts, MixinEnv;
    AsyncLikeRead(o, ind, "WithAsyncMethod_", AsyncCtorForm(), m.Kind(), ps, MixinEnv(m, i, OwnTypes(m)));
  }

  lemma RawMixinRead(o: seq<Item>, ind: nat, m: Method, i: nat, ps: Parameters)
    requires Ready(After(o))
    ensures After(RawMixin(o, ind, m, i, ps)) == Plus(After(o), RawMixinFacts(m, i, ps))
  {
    hide After, Put, PutText, MixinHead, AsyncHelperOutput, AsyncHelperFacts, UseFacts, MixinFacts, MixinEnv,
      ByteBuffers;
    AsyncLikeRead(o, ind, "WithRawMethod_", RawCtorForm(), m.Kind(), ps, MixinEnv(m, i, ByteBuffers()));
  }

  // The constructor of a callback mixin. For a unary method the marking print
  // closes it, and the brace that follows closes SetMessageAllocatorFor_.
  lemma CallbackMarksRead(o: seq<Item>, ind: nat, k: Kind, env: Env, t: State)
    requires Ready(t) && After(o) == Enter(t, Block)
    ensures After(PutText(CallbackMarks(o, ind, k, env), ind, CloseBrace)) == Plus(t, CallbackMarkFacts(k, env))
  {
    hide After, Put, PutText, RRefs;
    AfterPut(o, ind, CallbackMark(k), env);
    var mark := UseFacts(CallbackMark(k), env);
    var o1 := Put(o, ind, CallbackMark(k), env);
    if k == Unary {
      LeaveBlock(t, mark);
      AfterPut(o1, ind, MessageAllocator(), env);
      var o2 := Put(o1, ind, MessageAllocator(), env);
      PlusPlus(t, mark, UseFacts(MessageAllocator(), env));
      PlusNothing(Enter(Plus(t, mark + UseFacts(MessageAllocator(), env)), Block));
      BlockEndRead(o2, ind, Plus(t, mark + UseFacts(MessageAllocator(), env)), []);
      PlusNothing(Plus(t, mark + UseFacts(MessageAllocator(), env)));
    } else {
      BlockEndRead(o1, ind, t, mark);
      assert mark + [] == mark;
    }
  }

  // The start of a callback mixin, up to the block of its constructor.
  lemma CallbackCtorRead(o: seq<Item>, ind: nat, prefix: string, env: Env)
    requires Ready(After(o))
    ensures After(Put(MixinHead(o, ind, prefix, env), ind + 1, MixinCtorForm(prefix), env)) ==
            Enter(Plus(Enter(After(o), MixinScope(prefix, env)), [Said(PublicLabel, [])] + CtorFacts(prefix, env)),
              Block)
  {
    hide After, Put, RRefs, MixinHead, MixinScope;
    MixinHeadRead(o, ind, prefix, env);
    AfterPut(MixinHead(o, ind, prefix, env), ind + 1, MixinCtorForm(prefix), env);
    PlusPlus(Enter(After(o), MixinScope(prefix, env)), [Said(PublicLabel, [])], CtorFacts(prefix, env));
  }

  // The part of a callback mixin behind its constructor.
  lemma CallbackTailRead(o: seq<Item>, ind: nat, t: State, prefix: string, start: seq<Fact>, k: Kind, ps: Parameters,
      env: Env)
    requires Ready(t) && After(o) == Plus(Enter(t, MixinScope(prefix, env)), [Said(PublicLabel, [])] + start)
    ensures var o3 := Put(o, ind + 1, MixinDtorForm(prefix), env);
      After(PutText(CallbackHelperOutput(o3, ind + 1, k, ps, env), ind, CloseClass)) ==
      Plus(t, MixinFacts(prefix, start, CallbackHelperFacts(k, ps, env), env))
  {
    hide After, Put, PutText, MixinScope, CallbackHelperOutput, CallbackHelperFacts, MixinFacts, MixinDtorForm, RRefs;
    var u := Enter(t, MixinScope(prefix, env));
    DtorRead(o, ind + 1, prefix, env, u, [Said(PublicLabel, [])] + start);
    var o3 := Put(o, ind + 1, MixinDtorForm(prefix), env);
    CallbackHelperRead(o3, ind + 1, k, ps, env);
    PlusPlus(u, [Said(PublicLabel, [])] + start + [Said(MixinDtor, RRefs(MixinName(prefix), env))],
             CallbackHelperFacts(k, ps, env));
    MixinEnd(CallbackHelperOutput(o3, ind + 1, k, ps, env), ind, t, prefix, start, CallbackHelperFacts(k, ps, env),
      env);
  }

  lemma CallbackMixinRead(o: seq<Item>, ind: nat, m: Method, i: nat, ps: Parameters)
    requires Ready(After(o))
    ensures After(CallbackMixin(o, ind, m, i, ps)) == Plus(After(o), CallbackMixinFacts(m, i, ps))
  {
    hide After, Put, PutText, MixinHead, MixinScope, CallbackMarks, CallbackMarkFacts, CallbackHelperOutput,
      CallbackHelperFacts, MixinFacts, CtorFacts, MixinEnv, MixinCtorForm, MixinDtorForm;
    var env, k, prefix := MixinEnv(m, i, OwnTypes(m)), m.Kind(), "WithCallbackMethod_";
    CallbackCtorRead(o, ind, prefix, env);
    var t := Enter(After(o), MixinScope(prefix, env));
    var ctor := [Said(PublicLabel, [])] + CtorFacts(prefix, env);
    var o1 := Put(MixinHead(o, ind, prefix, env), ind + 1, MixinCtorForm(prefix), env);
    CallbackMarksRead(o1, ind + 1, k, env, Plus(t, ctor));
    PlusPlus(t, ctor, CallbackMarkFacts(k, env));
    Grouped(CtorFacts(prefix, env), CallbackMarkFacts(k, env));
    var o2 := PutText(CallbackMarks(o1, ind + 1, k, env), ind + 1, CloseBrace);
    CallbackTailRead(o2, ind, After(o), prefix, CtorFacts(prefix, env) + CallbackMarkFacts(k, env), k, ps, env);
  }

  lemma Grouped(a: seq<Fact>, b: seq<Fact>)
    ensures [Said(PublicLabel, [])] + a + b == [Said(PublicLabel, [])] + (a + b)
  {
  }

  lemma RawCallbackMixinRead(o: seq<Item>, ind: nat, m: Method, i: nat, ps: Parameters)
    requires Ready(After(o))
    ensures After(RawCallbackMixin(o, ind, m, i, ps)) == Plus(After(o), RawCallbackMixinFacts(m, i, ps))
  {
    hide After, Put, PutText, MixinHead, MixinScope, UseFacts, CallbackHelperOutput, CallbackHelperFacts, MixinFacts,
      CtorFacts, MixinEnv, MixinCtorForm, MixinDtorForm, ByteBuffers;
    var env, k, prefix := MixinEnv(m, i, ByteBuffers()), m.Kind(), "WithRawCallbackMethod_";
    CallbackCtorRead(o, ind, prefix, env);
    var t := Enter(After(o), MixinScope(prefix, env));
    var ctor := [Said(PublicLabel, [])] + CtorFacts(prefix, env);
    var o1 := Put(MixinHead(o, ind, prefix, env), ind + 1, MixinCtorForm(prefix), env);
    UseRead(o1, ind + 1, RawCallbackMark(k), env);
    var o2 := Put(o1, ind + 1, RawCallbackMark(k), env);
    BlockEndRead(o2, ind + 1, Plus(t, ctor), UseFacts(RawCallbackMark(k), env));
    PlusPlus(t, ctor, UseFacts(RawCallbackMark(k), env));
    Grouped(CtorFacts(prefix, env), UseFacts(RawCallbackMark(k), env));
    CallbackTailRead(PutText(o2, ind + 1, CloseBrace), ind, After(o), prefix,
                     CtorFacts(prefix, env) + UseFacts(RawCallbackMark(k), env), k, ps, env);
  }

  lemma StreamedRead(o: seq<Item>, ind: nat, prefix: string, ctor: Form, disabled: Form, streamed: Form, env: Env)
    requires Ready(After(o)) && ctor.UseIndex? && BracesOfUse(ctor.use) == Pair
    requires disabled.Decl? && disabled.tail != Open && streamed.Decl? && streamed.tail != Open
    ensures var o1 := Put(MixinHead(o, ind, prefix, env), ind + 1, ctor, env);
      var o2 := Put(o1, ind + 1, MixinDtorForm(prefix), env);
      After(PutText(Put(Put(o2, ind + 1, disabled, env), ind + 1, streamed, env), ind, CloseClass)) ==
      Plus(After(o), StreamedFacts(prefix, ctor, disabled, streamed, env))
  {
    hide After, Put, PutText, MixinHead, MixinScope, UseFacts, DeclFacts, MixinFacts, MixinDtorForm, RRefs;
    MarkedRead(o, ind, prefix, ctor, env);
    var o2 := Put(Put(MixinHead(o, ind, prefix, env), ind + 1, ctor, env), ind + 1, MixinDtorForm(prefix), env);
    DeclRead(o2, ind + 1, disabled, env);
    var o3 := Put(o2, ind + 1, disabled, env);
    DeclRead(o3, ind + 1, streamed, env);
    PlusPlus(After(o2), DeclFacts(disabled, env), DeclFacts(streamed, env));
    PlusPlus(Enter(After(o), MixinScope(prefix, env)),
             [Said(PublicLabel, [])] + UseFacts(ctor, env) + [Said(MixinDtor, RRefs(MixinName(prefix), env))],
             DeclFacts(disabled, env) + DeclFacts(streamed, env));
    MixinEnd(Put(o3, ind + 1, streamed, env), ind, After(o), prefix, UseFacts(ctor, env),
             DeclFacts(disabled, env) + DeclFacts(streamed, env), env);
  }

  lemma StreamedUnaryRead(o: seq<Item>, ind: nat, m: Method, i: nat)
    requires Ready(After(o))
    ensures After(StreamedUnaryMixin(o, ind, m, i)) == Plus(After(o), StreamedUnaryFacts(m, i))
  {
    hide After, Put, PutText, MixinHead, StreamedFacts, IndexEnv, MixinDtorForm;
    if m.Kind() == Unary {
      StreamedRead(o, ind, "WithStreamedUnaryMethod_", StreamedUnaryCtor(), DisableRegularUnary(),
        StreamedUnaryVirtual(),
                   IndexEnv(m, i));
    } else {
      PlusNothing(After(o));
    }
  }

  lemma SplitRead(o: seq<Item>, ind: nat, m: Method, i: nat)
    requires Ready(After(o))
    ensures After(SplitStreamingMixin(o, ind, m, i)) == Plus(After(o), SplitFacts(m, i))
  {
    hide After, Put, PutText, MixinHead, StreamedFacts, IndexEnv, MixinDtorForm;
    if m.Kind() == ServerStreaming {
      StreamedRead(o, ind, "WithSplitStreamingMethod_", SplitCtor(), DisableRegularServerStreaming(), SplitVirtual(),
                   IndexEnv(m, i));
    } else {
      PlusNothing(After(o));
    }
  }

  lemma GenericMixinRead(o: seq<Item>, ind: nat, m: Method, i: nat, ps: Parameters)
    requires Ready(After(o))
    ensures After(GenericMixin(o, ind, m, i, ps)) == Plus(After(o), GenericMixinFacts(m, i, ps))
  {
    hide After, Put, PutText, MixinHead, MixinScope, UseFacts, DisableFacts, MixinFacts, IndexEnv, MixinDtorForm, RRefs;
    var env, prefix := IndexEnv(m, i), "WithGenericMethod_";
    MarkedRead(o, ind, prefix, GenericCtorForm(), env);
    var o2 := Put(Put(MixinHead(o, ind, prefix, env), ind + 1, GenericCtorForm(), env), ind + 1, MixinDtorForm(prefix),
      env);
    DisableRead(o2, ind + 1, m.Kind(), ps, env);
    var o3 := if ps.allowSyncServerApi then Put(o2, ind + 1, DisableSync(m.Kind()), env) else o2;
    PlusPlus(Enter(After(o), MixinScope(prefix, env)),
             [Said(PublicLabel, [])] + UseFacts(GenericCtorForm(), env) +
               [Said(MixinDtor, RRefs(MixinName(prefix), env))],
             DisableFacts(m.Kind(), ps, env));
    MixinEnd(o3, ind, After(o), prefix, UseFacts(GenericCtorForm(), env), DisableFacts(m.Kind(), ps, env), env);
  }
}
