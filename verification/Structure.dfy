// Reading generated output back: a one-pass reader of the printed items that
// matches braces, namespaces, class heads, typedefs and include guards, and
// collects what each scope declares. It knows nothing of the emitters.
module Structure {
  import opened Schema
  import opened Emit

  datatype Sig = Sig(ret: Ty, name: seq<Ref>, params: seq<Ty>, extra: seq<Ref>)

  // Mixin templates applied to one another, down to Service.
  datatype Nested = Base | Apply(mixin: seq<Ref>, inner: Nested)

  datatype Fact =
    | PureDecl(sig: Sig)
    | OverrideDecl(sig: Sig)
    | PlainDecl(sig: Sig, isVirtual: bool)
    | InlineDecl(sig: Sig)
    | InlineOverrideDecl(sig: Sig)
    | Definition(qual: seq<Ref>, sig: Sig)
    | Call(ret: Ty, callee: seq<Ref>, argc: nat, extra: seq<Ref>)
    | Mocked(count: seq<Ref>, sig: Sig)
    | Member(member: seq<Ref>)
    | FullName(spelled: seq<Ref>)
    | IndexUsed(use: Use, owner: seq<Ref>, idx: Ref, types: seq<Ref>, callee: seq<Ref>)
    | Alias(alias: string, term: Nested)
    | Entry(path: seq<Ref>)
    | TableOf(table: seq<Ref>, entries: seq<Fact>)
    | Init(member: seq<Ref>, table: seq<Ref>, idx: Ref, streaming: Ref)
    | Registered(table: seq<Ref>, idx: Ref, streaming: Ref, handler: Kind, service: seq<Ref>, types: seq<Ref>,
        callee: seq<Ref>)
    | BodyOf(body: Body, member: seq<Ref>, types: seq<Ref>, extra: seq<Ref>)
    | MessageIncluded(spelled: seq<Ref>)
    | ServiceIncluded(spelled: seq<Ref>)
    | Said(text: Text, args: seq<Ref>)  // an access label, a statement of a default body, a mixin's destructor
    | ClassBody(head: ClassHead, name: seq<Ref>, base: seq<Ref>, members: seq<Fact>)
    | NamespaceBody(part: Ref, members: seq<Fact>)
    | GuardedText(id: seq<Ref>, members: seq<Fact>)

  datatype Scope =
    | Namespace(part: Ref)
    | ClassScope(head: ClassHead, name: seq<Ref>, base: seq<Ref>)
    | Block
    | TableScope(table: seq<Ref>)
    | Guarded(id: seq<Ref>)

  // The open scopes, innermost first, each with what stood before it.
  datatype Context = Root | Inside(scope: Scope, before: seq<Fact>, outer: Context)

  // Prints that leave the reader in the middle of something.
  datatype Mode =
    | Plain
    | HeadOnly(head: ClassHead, name: seq<Ref>, base: seq<Ref>)  // class head without its brace
    | VirtualOnly                                               // "virtual "
    | Opening(mixins: seq<seq<Ref>>)                            // typedef A<B<
    | Closing(mixins: seq<seq<Ref>>, term: Nested)              // typedef A<B<Service >

  // GRPC_ macros of ports_def.inc
  datatype Ports = PortsUndefined | PortsDefined | PortsRedefined

  datatype State =
    | Scanning(context: Context, facts: seq<Fact>, mode: Mode, ports: Ports, labelsMatch: bool)
    | Malformed

  function Start(): State { Scanning(Root, [], Plain, PortsUndefined, true) }

  predicate Ready(s: State) { s.Scanning? && s.mode == Plain }

  function Plus(s: State, fs: seq<Fact>): (t: State)
    requires s.Scanning?
    ensures t.Scanning?
  {
    s.(facts := s.facts + fs)
  }

  function Enter(s: State, scope: Scope): State
    requires s.Scanning?
  {
    s.(context := Inside(scope, s.facts, s.context), facts := [], mode := Plain)
  }

  // What a closed scope leaves behind in the one around it.
  function Closed(scope: Scope, fs: seq<Fact>): seq<Fact> {
    match scope
    case Block => fs
    case TableScope(table) => [TableOf(table, fs)]
    case ClassScope(head, name, base) => [ClassBody(head, name, base, fs)]
    case Namespace(part) => [NamespaceBody(part, fs)]
    case Guarded(id) => [GuardedText(id, fs)]
  }

  function Leave(s: State): State
    requires s.Scanning? && s.context.Inside?
  {
    s.(context := s.context.outer, facts := s.context.before + Closed(s.context.scope, s.facts))
  }

  predicate InBlock(s: State) { s.Scanning? && s.context.Inside? && s.context.scope.Block? }

  predicate InClass(s: State) { s.Scanning? && s.context.Inside? && s.context.scope.ClassScope? }

  predicate InTable(s: State) { s.Scanning? && s.context.Inside? && s.context.scope.TableScope? }

  predicate InGuard(s: State, id: seq<Ref>) { s.Scanning? && s.context.Inside? && s.context.scope == Guarded(id) }

  // Leaves the innermost scope if it is the one the text closes.
  function LeaveIf(s: State, fits: bool): State
    requires fits ==> s.Scanning? && s.context.Inside?
  {
    if fits then Leave(s) else Malformed
  }

  function SigOf(f: Form): Sig
    requires f.Decl? || f.MockMethod?
  {
    Sig(f.ret, f.name, f.params, f.extra)
  }

  // What a declaration or the head of a definition says.
  function Noted(f: Form, isVirtual: bool): seq<Fact>
    requires f.Decl?
  {
    match f.tail
    case Pure => [PureDecl(SigOf(f))]
    case Override => [OverrideDecl(SigOf(f))]
    case Semi => [PlainDecl(SigOf(f), isVirtual)]
    case InlineOverride => [InlineOverrideDecl(SigOf(f))]
    case _ => if f.qual == [] then [InlineDecl(SigOf(f))] else [Definition(f.qual, SigOf(f))]
  }

  function Declare(s: State, f: Form, isVirtual: bool): State
    requires s.Scanning? && f.Decl?
  {
    var t := Plus(s.(mode := Plain), Noted(f, isVirtual));
    if f.tail == Open then Enter(t, Block) else t
  }

  function Brace(s: State, b: Braces): State
    requires s.Scanning?
  {
    match b
    case Opens => Enter(s, Block)
    case PairThenCloses => LeaveIf(s, InBlock(s))
    case _ => s
  }

  function Redefine(p: Ports): Ports { if p == PortsUndefined then PortsDefined else PortsRedefined }

  function Undefine(p: Ports): Ports { if p == PortsDefined then PortsUndefined else p }

  const PORTS_DEF := "grpcpp/ports_def.inc"
  const PORTS_UNDEF := "grpcpp/ports_undef.inc"

  // A header's name names a file by itself or behind a directory.
  predicate NamesFile(header: string, file: string) {
    header == file || (|header| > |file| && header[|header| - |file| - 1..] == "/" + file)
  }

  function PortsStep(p: Ports, header: string): Ports {
    if NamesFile(header, PORTS_DEF) then Redefine(p) else if NamesFile(header, PORTS_UNDEF) then Undefine(p) else p
  }

  // Texts that are facts of the scope they stand in.
  predicate Noticed(t: Text) {
    match t
    case PublicLabel => true
    case PrivateLabel => true
    case MixinDtor => true
    case Abort => true
    case VoidParameter => true
    case ReturnUnimplemented => true
    case _ => false
  }

  function StepText(s: State, text: Text, args: seq<Ref>): State
    requires s.Scanning?
  {
    match text
    case CloseClass => LeaveIf(s, InClass(s))
    case CloseBrace => LeaveIf(s, InBlock(s))
    case CloseBraceBlank => LeaveIf(s, InBlock(s))
    case CloseTable => LeaveIf(s, InTable(s))
    case MethodTable => Enter(s, TableScope(args))
    case VirtualKeyword => s.(mode := VirtualOnly)
    case ServiceFullName => Plus(s, [FullName(args)])
    case ServiceInclude => Plus(s, [ServiceIncluded(args)])
    case MessageInclude => Plus(s, [MessageIncluded(args)])
    case MixinCtor => Enter(Plus(s, [Said(text, args)]), Block)
    case PortsUndef => s.(ports := Undefine(s.ports))
    case AsyncBase => Malformed
    case _ => if Noticed(text) then Plus(s, [Said(text, args)]) else Brace(s, BracesOf(text))
  }

  function StepGuard(s: State, how: GuardLine, id: seq<Ref>): State
    requires s.Scanning?
  {
    match how
    case Ifndef => Enter(s, Guarded(id))
    case Define => if InGuard(s, id) && s.facts == [] then s else Malformed
    case Endif => LeaveIf(s, InGuard(s, id))
  }

  function StepPlain(s: State, f: Form): State
    requires s.Scanning?
  {
    match f
    case Decl(_, _, _, _, _, _) => Declare(s, f, false)
    case Forward(ret, callee, argc, extra) => Plus(s, [Call(ret, callee, argc, extra)])
    case MockMethod(count, _, _, _, _) => Plus(s, [Mocked(count, SigOf(f))])
    case DataMember(member) => Plus(s, [Member(member)])
    case Class(head, name, base) =>
      if head == AsyncClass then s.(mode := HeadOnly(head, name, base)) else Enter(s, ClassScope(head, name, base))
    case Stmt(text, args) => StepText(s, text, args)
    case UseIndex(use, owner, idx, types, callee) =>
      Brace(Plus(s, [IndexUsed(use, owner, idx, types, callee)]), BracesOfUse(use))
    case TypedefBegin => s.(mode := Opening([]))
    case TableEntry(path) => Plus(s, [Entry(path)])
    case StubInit(member, table, idx, streaming) => Plus(s, [Init(member, table, idx, streaming)])
    case AddMethod(table, idx, streaming, handler, service, types, callee) =>
      Plus(s, [Registered(table, idx, streaming, handler, service, types, callee)])
    case ClientBody(body, member, types, extra) => LeaveIf(Plus(s, [BodyOf(body, member, types, extra)]), InBlock(s))
    case NsOpen(part) => Enter(s, Namespace(part))
    case NsClose(part) =>
      if s.context.Inside? && s.context.scope.Namespace?
      then Leave(s).(labelsMatch := s.labelsMatch && s.context.scope.part == part) else Malformed
    case Include(_, header, _) => if header.S? then s.(ports := PortsStep(s.ports, header.s)) else s
    case Guard(how, id) => StepGuard(s, how, id)
    case MixinOpen(_) => Malformed
    case TypedefBase => Malformed
    case MixinClose => Malformed
    case TypedefEnd(_) => Malformed
  }

  function Step(s: State, f: Form): State {
    if s.Malformed? then s else
    match s.mode
    case Plain => StepPlain(s, f)
    case VirtualOnly => if f.Decl? then Declare(s, f, true) else Malformed
    case HeadOnly(head, name, base) =>
      if f.Stmt? && f.text == AsyncBase then Enter(s, ClassScope(head, name, base)) else Malformed
    case Opening(mixins) =>
      if f.MixinOpen? then s.(mode := Opening(mixins + [f.mixin]))
      else if f.TypedefBase? then s.(mode := Closing(mixins, Base)) else Malformed
    case Closing(mixins, term) =>
      if f.MixinClose? && mixins != []
      then s.(mode := Closing(mixins[..|mixins| - 1], Apply(mixins[|mixins| - 1], term)))
      else if f.TypedefEnd? && mixins == [] then Plus(s, [Alias(f.alias, term)]).(mode := Plain) else Malformed
  }

  function Read(s: State, i: Item): State { if i.Line? then Step(s, i.form) else s }

  // The reader's state after the items.
  function After(o: seq<Item>): State {
    if o == [] then Start() else Read(After(o[..|o| - 1]), o[|o| - 1])
  }

  // ---- One print ----

  lemma AfterPut(o: seq<Item>, ind: nat, f: Form, env: Env)
    ensures After(Put(o, ind, f, env)) == Step(After(o), Render(f, env))
  {
    hide Step, Render;
    var r := Put(o, ind, f, env);
    assert r[..|r| - 1] == o;
  }

  lemma AfterText(o: seq<Item>, ind: nat, t: Text)
    ensures After(PutText(o, ind, t)) == Step(After(o), Stmt(t, []))
  {
    hide Step;
    AfterPut(o, ind, Stmt(t, []), map[]);
    assert RRefs([], map[]) == [];
  }

  lemma AfterComments(o: seq<Item>, ind: nat, lines: seq<string>)
    ensures After(PutComments(o, ind, lines)) == After(o)
  {
    var r := PutComments(o, ind, lines);
    assert r[..|r| - 1] == o;
  }

  lemma AfterRaw(o: seq<Item>, text: string)
    ensures After(o + [Raw(text)]) == After(o)
  {
    assert (o + [Raw(text)])[..|o|] == o;
  }

  lemma PlusPlus(s: State, a: seq<Fact>, b: seq<Fact>)
    requires s.Scanning?
    ensures Plus(Plus(s, a), b) == Plus(s, a + b)
  {
    assert s.facts + a + b == s.facts + (a + b);
  }

  lemma PlusNothing(s: State)
    requires s.Scanning?
    ensures Plus(s, []) == s
  {
    assert s.facts + [] == s.facts;
  }

  // A declaration that opens nothing.
  lemma AfterDecl(o: seq<Item>, ind: nat, f: Form, env: Env)
    requires f.Decl? && Ready(After(o))
    ensures f.tail != Open ==> After(Put(o, ind, f, env)) == Plus(After(o), Noted(Render(f, env), false))
    ensures f.tail == Open ==>
      After(Put(o, ind, f, env)) == Enter(Plus(After(o), Noted(Render(f, env), false)), Block)
    ensures f.tail == Open ==> Ready(After(Put(o, ind, f, env)))
  {
    AfterPut(o, ind, f, env);
    hide Noted, RRefs, RTys, RTy, After, Put;
  }

  // The end of a block.
  lemma LeaveBlock(s: State, fs: seq<Fact>)
    requires Ready(s)
    ensures Leave(Plus(Enter(s, Block), fs)) == Plus(s, fs)
  {
    assert [] + fs == fs;
  }

  function DeclFacts(f: Form, env: Env): seq<Fact>
    requires f.Decl?
  {
    Noted(Render(f, env), false)
  }

  lemma DeclRead(o: seq<Item>, ind: nat, f: Form, env: Env)
    requires Ready(After(o)) && f.Decl? && f.tail != Open
    ensures After(Put(o, ind, f, env)) == Plus(After(o), DeclFacts(f, env))
  {
    AfterDecl(o, ind, f, env);
  }

  // Text that holds whole pairs of braces, or none.
  predicate Neutral(t: Text) {
    !t.MethodTable? && !t.VirtualKeyword? && !t.ServiceFullName? && !t.MessageInclude? && !t.ServiceInclude? &&
    !t.PortsUndef? && !Noticed(t) && (BracesOf(t) == Pair || BracesOf(t) == NoBrace)
  }

  lemma TextRead(o: seq<Item>, ind: nat, t: Text)
    requires Ready(After(o)) && Neutral(t)
    ensures After(PutText(o, ind, t)) == After(o)
  {
    AfterText(o, ind, t);
  }

  lemma SaidRead(o: seq<Item>, ind: nat, t: Text, args: seq<Ref>, env: Env)
    requires Ready(After(o)) && Noticed(t)
    ensures After(Put(o, ind, Stmt(t, args), env)) == Plus(After(o), [Said(t, RRefs(args, env))])
  {
    hide After, Put, RRefs;
    AfterPut(o, ind, Stmt(t, args), env);
  }

  // A label or a statement without arguments.
  lemma LabelRead(o: seq<Item>, ind: nat, t: Text)
    requires Ready(After(o)) && Noticed(t)
    ensures After(PutText(o, ind, t)) == Plus(After(o), [Said(t, [])])
  {
    hide After, Put, PutText;
    AfterText(o, ind, t);
  }

  // The end of a class whose members were found one after the other.
  lemma ClassEndRead(o: seq<Item>, ind: nat, t: State, scope: Scope, fs: seq<Fact>)
    requires Ready(t) && scope.ClassScope? && After(o) == Plus(Enter(t, scope), fs)
    ensures After(PutText(o, ind, CloseClass)) == Plus(t, Closed(scope, fs))
  {
    hide After, PutText;
    AfterText(o, ind, CloseClass);
    assert [] + fs == fs;
  }
}
