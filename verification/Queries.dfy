// Questions asked of what the reader found.
module Queries {
  import opened Emit
  import opened Structure

  // ---- Sequences ----

  lemma Regrouped<T>(a: seq<T>, b: seq<T>, c: seq<T>)
    ensures a + b + c == a + (b + c)
  {
  }

  // The last element of b, taken off b and off a + b.
  lemma LastOff<T>(a: seq<T>, b: seq<T>)
    requires b != []
    ensures b == b[..|b| - 1] + [b[|b| - 1]]
    ensures a + b == a + b[..|b| - 1] + [b[|b| - 1]]
  {
  }

  // ---- Signatures by the way they are declared ----

  datatype Role = Purely | Overriding | Plainly | Inlined | OverridingInline | Mocking

  function SigIn(role: Role, f: Fact): seq<Sig> {
    match f
    case PureDecl(sig) => if role == Purely then [sig] else []
    case OverrideDecl(sig) => if role == Overriding then [sig] else []
    case PlainDecl(sig, _) => if role == Plainly then [sig] else []
    case InlineDecl(sig) => if role == Inlined then [sig] else []
    case InlineOverrideDecl(sig) => if role == OverridingInline then [sig] else []
    case Mocked(_, sig) => if role == Mocking then [sig] else []
    case _ => []
  }

  function Sigs(role: Role, fs: seq<Fact>): seq<Sig> {
    if fs == [] then [] else Sigs(role, fs[..|fs| - 1]) + SigIn(role, fs[|fs| - 1])
  }

  lemma SigsOne(role: Role, f: Fact)
    ensures Sigs(role, [f]) == SigIn(role, f)
  {
    hide SigIn;
    assert [f][..0] == [];
  }

  lemma SigsSnoc(role: Role, fs: seq<Fact>, f: Fact)
    ensures Sigs(role, fs + [f]) == Sigs(role, fs) + SigIn(role, f)
  {
    hide SigIn;
    assert (fs + [f])[..|fs|] == fs;
  }

  lemma {:induction false} SigsConcat(role: Role, a: seq<Fact>, b: seq<Fact>)
    ensures Sigs(role, a + b) == Sigs(role, a) + Sigs(role, b)
  {
    if b == [] {
      assert a + b == a;
    } else {
      hide Sigs, SigIn;
      var c, f := b[..|b| - 1], b[|b| - 1];
      SigsConcat(role, a, c);
      SigsSnoc(role, c, f);
      SigsSnoc(role, a + c, f);
      LastOff(a, b);
      Regrouped(Sigs(role, a), Sigs(role, c), SigIn(role, f));
    }
  }

  // ---- Facts of one kind ----

  datatype Sort = Members | Aliases | Tables | Inits | Registrations

  predicate Is(sort: Sort, f: Fact) {
    match sort
    case Members => f.Member?
    case Aliases => f.Alias?
    case Tables => f.TableOf?
    case Inits => f.Init?
    case Registrations => f.Registered?
  }

  function Select(sort: Sort, fs: seq<Fact>): seq<Fact> {
    if fs == [] then [] else Select(sort, fs[..|fs| - 1]) + if Is(sort, fs[|fs| - 1]) then [fs[|fs| - 1]] else []
  }

  lemma SelectOne(sort: Sort, f: Fact)
    ensures Select(sort, [f]) == if Is(sort, f) then [f] else []
  {
    hide Is;
    assert [f][..0] == [];
  }

  lemma SelectSnoc(sort: Sort, fs: seq<Fact>, f: Fact)
    ensures Select(sort, fs + [f]) == Select(sort, fs) + (if Is(sort, f) then [f] else [])
  {
    hide Is;
    assert (fs + [f])[..|fs|] == fs;
  }

  lemma {:induction false} SelectConcat(sort: Sort, a: seq<Fact>, b: seq<Fact>)
    ensures Select(sort, a + b) == Select(sort, a) + Select(sort, b)
  {
    if b == [] {
      assert a + b == a;
    } else {
      hide Select, Is;
      var c, f := b[..|b| - 1], b[|b| - 1];
      SelectConcat(sort, a, c);
      SelectSnoc(sort, c, f);
      SelectSnoc(sort, a + c, f);
      LastOff(a, b);
      Regrouped(Select(sort, a), Select(sort, c), if Is(sort, f) then [f] else []);
    }
  }

  // ---- Classes by name ----

  datatype Found = NoSuchClass | TheClass(members: seq<Fact>)

  // The first class of that name.
  function FindClass(fs: seq<Fact>, name: seq<Ref>): Found {
    if fs == [] then NoSuchClass
    else if fs[0].ClassBody? && fs[0].name == name then TheClass(fs[0].members)
    else FindClass(fs[1..], name)
  }

  lemma FindHere(f: Fact, rest: seq<Fact>, name: seq<Ref>)
    ensures FindClass([f] + rest, name) ==
            if f.ClassBody? && f.name == name then TheClass(f.members) else FindClass(rest, name)
  {
    assert ([f] + rest)[1..] == rest;
  }

  lemma {:induction false} FindBehind(fs: seq<Fact>, rest: seq<Fact>, name: seq<Ref>)
    requires forall f :: f in fs ==> !(f.ClassBody? && f.name == name)
    ensures FindClass(fs + rest, name) == FindClass(rest, name)
  {
    if fs == [] {
      assert fs + rest == rest;
    } else {
      assert (fs + rest)[1..] == fs[1..] + rest;
      FindBehind(fs[1..], rest, name);
    }
  }

  predicate Has(fs: seq<Fact>, name: seq<Ref>) { FindClass(fs, name).TheClass? }

  function In(fs: seq<Fact>, name: seq<Ref>): seq<Fact> { if Has(fs, name) then FindClass(fs, name).members else [] }

  // What the text declares, if it is well formed.
  function Facts(o: seq<Item>): seq<Fact> { if After(o).Scanning? then After(o).facts else [] }

  // Pieces of a name, put together.
  function Spelled(rs: seq<Ref>): string { if rs == [] then "" else Spelled(rs[..|rs| - 1]) + RefText(rs[|rs| - 1]) }

  function RefText(r: Ref): string { if r.S? then r.s else "" }

  lemma SpelledOne(s: string)
    ensures Spelled([S(s)]) == s && Spelled([]) == ""
  {
    assert [S(s)][..0] == [];
  }
}
