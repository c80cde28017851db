// The source lists of tools/gen_sources.py: collecting them from the targets
// and rendering them as array bodies.
module SourceLists {
  import Replace

  datatype Collected = Lists(core: seq<string>, ares: seq<string>) | NoDuplicate | NoAres

  const VENDOR: string := "third_party/grpc-1.83.0"

  const DUP_DESCRIPTOR: string := "src/core/ext/upb-gen/google/" + "protobuf/descriptor.upb_minitable.c"

  predicate Contains(s: string, pat: string) { exists i: nat :: i <= |s| && Replace.OccursAt(s, pat, i) }

  predicate EndsWith(s: string, suffix: string) { |suffix| <= |s| && s[|s| - |suffix|..] == suffix }

  predicate IsAres(f: string) { Contains(f, "/c_ares/") || EndsWith(f, "ares_resolver.cc") }

  function Flat(targets: seq<seq<string>>): seq<string> {
    if targets == [] then [] else Flat(targets[..|targets| - 1]) + targets[|targets| - 1]
  }

  // The elements of `all` in order of first occurrence.
  function Firsts(all: seq<string>): seq<string> {
    if all == [] then []
    else
      var rest, last := Firsts(all[..|all| - 1]), all[|all| - 1];
      if last in all[..|all| - 1] then rest else rest + [last]
  }

  lemma {:induction false} FirstsAreDistinct(all: seq<string>)
    ensures forall x :: x in Firsts(all) <==> x in all
    ensures forall i, j :: 0 <= i < j < |Firsts(all)| ==> Firsts(all)[i] != Firsts(all)[j]
  {
    if all != [] {
      FirstsAreDistinct(all[..|all| - 1]);
      assert all == all[..|all| - 1] + [all[|all| - 1]];
    }
  }

  function Kept(s: seq<string>, keep: string -> bool): seq<string> {
    if s == [] then [] else (if keep(s[0]) then [s[0]] else []) + Kept(s[1..], keep)
  }

  lemma {:induction false} KeptMembers(s: seq<string>, keep: string -> bool)
    ensures forall x :: x in Kept(s, keep) <==> x in s && keep(x)
  {
    if s != [] {
      KeptMembers(s[1..], keep);
    }
  }

  lemma {:induction false} KeptSame(s: seq<string>, keep: string -> bool, keep': string -> bool)
    requires forall x :: x in s ==> keep(x) == keep'(x)
    ensures Kept(s, keep) == Kept(s, keep')
  {
    if s != [] {
      assert s[0] in s;
      assert forall x :: x in s[1..] ==> x in s;
      KeptSame(s[1..], keep, keep');
    }
  }

  // The two lists, or why there are none.
  function CollectedFrom(targets: seq<seq<string>>): Collected {
    var ordered := Firsts(Flat(targets));
    if DUP_DESCRIPTOR !in ordered then NoDuplicate
    else if Kept(ordered, IsAres) == [] then NoAres
    else Lists(Kept(ordered, f => f != DUP_DESCRIPTOR && !IsAres(f)), Kept(ordered, IsAres))
  }

  // The loops of collect: the sources of the targets, in TARGETS order, each
  // where it is first seen.
  method CollectOrdered(targets: seq<seq<string>>) returns (seen: set<string>, ordered: seq<string>)
    ensures ordered == Firsts(Flat(targets))
    ensures forall x :: x in seen <==> x in ordered
  {
    seen, ordered := {}, [];
    for i := 0 to |targets|
      invariant ordered == Firsts(Flat(targets[..i]))
      invariant forall x :: x in seen <==> x in Flat(targets[..i])
    {
      hide Firsts;
      FlatStep(targets, i);
      seen, ordered := CollectTarget(targets[i], seen, ordered, Flat(targets[..i]));
    }
    assert targets[..|targets|] == targets;
    FirstsAreDistinct(Flat(targets));
  }

  lemma FlatStep(targets: seq<seq<string>>, i: nat)
    requires i < |targets|
    ensures Flat(targets[..i + 1]) == Flat(targets[..i]) + targets[i]
  {
    assert targets[..i + 1][..i] == targets[..i];
  }

  method CollectTarget(sources: seq<string>, seen: set<string>, ordered: seq<string>, ghost before: seq<string>)
    returns (seen': set<string>, ordered': seq<string>)
    requires ordered == Firsts(before) && forall x :: x in seen <==> x in before
    ensures ordered' == Firsts(before + sources) && forall x :: x in seen' <==> x in before + sources
  {
    seen', ordered' := seen, ordered;
    assert before + sources[..0] == before;
    for j := 0 to |sources|
      invariant ordered' == Firsts(before + sources[..j])
      invariant forall x :: x in seen' <==> x in before + sources[..j]
    {
      var f := sources[j];
      ghost var now := before + sources[..j + 1];
      assert now[..|now| - 1] == before + sources[..j] && now[|now| - 1] == f;
      if f !in seen' {
        seen' := seen' + {f};
        ordered' := ordered' + [f];
      }
    }
    assert sources[..|sources|] == sources;
  }

  // collect
  method Collect(targets: seq<seq<string>>) returns (r: Collected)
    ensures r == CollectedFrom(targets)
  {
    hide IsAres, DUP_DESCRIPTOR, Firsts, Flat;
    var seen, ordered := CollectOrdered(targets);
    if DUP_DESCRIPTOR !in seen {
      return NoDuplicate;
    }
    var ares := Kept(ordered, IsAres);
    if ares == [] {
      return NoAres;
    }
    var aresSet := set f | f in ares;
    var core := Kept(ordered, f => f != DUP_DESCRIPTOR && f !in aresSet);
    KeptMembers(ordered, IsAres);
    KeptSame(ordered, f => f != DUP_DESCRIPTOR && f !in aresSet, f => f != DUP_DESCRIPTOR && !IsAres(f));
    return Lists(core, ares);
  }

  // The source left out, and those of the c-ares resolver.
  predicate LeftOut(f: string) { f == "src/core/ext/upb-gen/google/" + "protobuf/descriptor.upb_minitable.c" }

  predicate Within(f: string, i: nat, word: string) { i + |word| <= |f| && f[i..i + |word|] == word }

  predicate OfAres(f: string) {
    (exists i: nat :: i <= |f| && Within(f, i, "/c_ares/")) || (|f| >= 16 && f[|f| - 16..] == "ares_resolver.cc")
  }

  lemma OfAresIsAres(f: string)
    ensures OfAres(f) <==> IsAres(f)
  {
    assert |"ares_resolver.cc"| == 16;
    assert forall i: nat :: i <= |f| ==> (Within(f, i, "/c_ares/") <==> Replace.OccursAt(f, "/c_ares/", i));
  }

  lemma LeftOutIsDuplicate(f: string)
    ensures LeftOut(f) <==> f == DUP_DESCRIPTOR
  {
  }

  // Every upstream source lands in exactly one list, once, except the one
  // that is left out on purpose. There are no lists exactly if that one is
  // missing, or all of the c-ares sources are.
  lemma CollectPartitions(targets: seq<seq<string>>)
    ensures var r, all := CollectedFrom(targets), Flat(targets);
      (r.NoDuplicate? <==> forall x :: x in all ==> !LeftOut(x)) &&
      (r.Lists? ==>
        r.ares != [] && (forall x :: x in r.ares <==> x in all && OfAres(x)) &&
        (forall x :: x in r.core <==> x in all && !OfAres(x) && !LeftOut(x))) &&
      (r.NoAres? ==> forall x :: x in all ==> !OfAres(x))
  {
    hide IsAres, OfAres, LeftOut, DUP_DESCRIPTOR, Flat;
    var all := Flat(targets);
    var ordered := Firsts(all);
    FirstsAreDistinct(all);
    KeptMembers(ordered, IsAres);
    KeptMembers(ordered, f => f != DUP_DESCRIPTOR && !IsAres(f));
    forall x ensures (OfAres(x) <==> IsAres(x)) && (LeftOut(x) <==> x == DUP_DESCRIPTOR) {
      OfAresIsAres(x);
      LeftOutIsDuplicate(x);
    }
    if Kept(ordered, IsAres) != [] { assert Kept(ordered, IsAres)[0] in Kept(ordered, IsAres); }
  }

  // ---- Order ----

  // One source is listed in front of another among the targets.
  ghost predicate SeenBefore(all: seq<string>, x: string, y: string) {
    exists k :: 0 <= k <= |all| && x in all[..k] && y !in all[..k]
  }

  ghost predicate InOrder(s: seq<string>, all: seq<string>) {
    forall i, j :: 0 <= i < j < |s| ==> SeenBefore(all, s[i], s[j])
  }

  lemma SeenStill(all: seq<string>, last: string, x: string, y: string)
    requires SeenBefore(all, x, y)
    ensures SeenBefore(all + [last], x, y)
  {
    var k :| 0 <= k <= |all| && x in all[..k] && y !in all[..k];
    assert (all + [last])[..k] == all[..k];
  }

  lemma {:induction false} FirstsAreInOrder(all: seq<string>)
    ensures InOrder(Firsts(all), all)
  {
    if all != [] {
      var n := |all| - 1;
      var before, last := all[..n], all[n];
      FirstsAreInOrder(before);
      FirstsAreDistinct(before);
      assert all == before + [last];
      forall i, j | 0 <= i < j < |Firsts(all)| ensures SeenBefore(all, Firsts(all)[i], Firsts(all)[j]) {
        if j < |Firsts(before)| {
          SeenStill(before, last, Firsts(all)[i], Firsts(all)[j]);
        } else {
          assert Firsts(all)[i] in before && last !in before;
        }
      }
    }
  }

  lemma {:induction false} KeptInOrder(s: seq<string>, keep: string -> bool, all: seq<string>)
    requires InOrder(s, all)
    ensures InOrder(Kept(s, keep), all)
  {
    hide SeenBefore;
    if s != [] {
      var rest := Kept(s[1..], keep);
      KeptInOrder(s[1..], keep, all);
      KeptMembers(s[1..], keep);
      forall j | 0 <= j < |rest| ensures SeenBefore(all, s[0], rest[j]) {
        assert rest[j] in rest;
        var k :| 0 <= k < |s[1..]| && s[1..][k] == rest[j];
        assert SeenBefore(all, s[0], s[k + 1]);
      }
    }
  }

  // Within each list the sources come in the order the targets first name
  // them, each once.
  lemma CollectedInOrder(targets: seq<seq<string>>)
    requires CollectedFrom(targets).Lists?
    ensures InOrder(CollectedFrom(targets).core, Flat(targets)) && InOrder(CollectedFrom(targets).ares, Flat(targets))
  {
    hide IsAres, DUP_DESCRIPTOR, Flat, InOrder;
    var ordered := Firsts(Flat(targets));
    FirstsAreInOrder(Flat(targets));
    KeptInOrder(ordered, IsAres, Flat(targets));
    KeptInOrder(ordered, f => f != DUP_DESCRIPTOR && !IsAres(f), Flat(targets));
  }

  function PathLines(paths: seq<string>): string {
    if paths == [] then "" else "    \"" + VENDOR + "/" + paths[0] + "\",\n" + PathLines(paths[1..])
  }

  function PreambleLine(i: nat): string {
    match i
    case 0 => "    # The lib root: the C++23 module " + "interface. mcpp resolves the lib root"
    case 1 => "    # of a `kind = \"lib\"` package as " + "src/<package tail>.cppm, so this file"
    case 2 => "    # is both the module and " + "what satisfies that convention."
    case 3 => "    \"src/" + "grpc.cppm\","
    case _ => "    \"src/" + "macros.cppm\","
  }

  const LIB_ROOT_PREAMBLE: string :=
    PreambleLine(0) + "\n" + (PreambleLine(1) + "\n") + (PreambleLine(2) + "\n") +
    (PreambleLine(3) + "\n") + (PreambleLine(4) + "\n")

  // render
  function Render(paths: seq<string>, withLibRoot: bool): string {
    if withLibRoot then LIB_ROOT_PREAMBLE + PathLines(paths) else PathLines(paths)
  }

  // What the array surgery relies on: the body ends a line, no line of it
  // ends in a bracket, and no line of it begins with one.
  predicate Clean(b: string) {
    && b != ""
    && b[0] != '['
    && b[|b| - 1] == '\n'
    && (forall i :: 0 <= i < |b| && b[i] == '\n' ==> i > 0 && b[i - 1] != '[' && b[i - 1] != ']')
    && (forall i :: 0 <= i < |b| - 1 && b[i] == '\n' ==> b[i + 1] != '[')
  }

  lemma CleanConcat(a: string, b: string)
    requires Clean(a) && Clean(b)
    ensures Clean(a + b)
  {
    var c := a + b;
    forall i | 0 <= i < |c| && c[i] == '\n'
      ensures i > 0 && c[i - 1] != '[' && c[i - 1] != ']'
      ensures i + 1 < |c| ==> c[i + 1] != '['
    {
      if i < |a| { assert c[i] == a[i]; } else { assert c[i] == b[i - |a|]; }
    }
  }

  predicate OneLine(p: string) { '\n' !in p }

  // A line ending in `",` around text without line ends is clean.
  lemma CleanLine(text: string)
    requires '\n' !in text
    ensures Clean("    \"" + text + "\",\n")
  {
    var line := "    \"" + text + "\",\n";
    var n := |line|;
    assert line[n - 1] == '\n' && line[n - 2] == ',' && line[n - 3] == '"' && line[0] == ' ';
    forall i | 0 <= i < n - 1
      ensures line[i] != '\n'
    {
      if 5 <= i < n - 3 { assert line[i] == text[i - 5]; }
    }
  }

  lemma {:induction false} PathLinesAreClean(paths: seq<string>)
    requires paths != [] && forall p :: p in paths ==> OneLine(p)
    ensures Clean(PathLines(paths))
  {
    assert paths[0] in paths;
    var text := VENDOR + "/" + paths[0];
    assert '\n' !in text by { VendorIsOneLine(); }
    CleanLine(text);
    assert "    \"" + VENDOR + "/" + paths[0] + "\",\n" == "    \"" + text + "\",\n";
    if |paths| > 1 {
      assert forall p :: p in paths[1..] ==> p in paths;
      PathLinesAreClean(paths[1..]);
      CleanConcat("    \"" + text + "\",\n", PathLines(paths[1..]));
    } else {
      assert PathLines(paths[1..]) == "";
      assert "    \"" + text + "\",\n" + "" == "    \"" + text + "\",\n";
    }
  }

  lemma VendorIsOneLine()
    ensures '\n' !in VENDOR
  {
  }

  // Line by line: the preamble is comments and two entries.
  lemma PreambleLine0IsClean()
    ensures Clean(PreambleLine(0) + "\n")
  {
    CleanComment("    # The lib root: the C++23 module ", "interface. mcpp resolves the lib root");
  }

  lemma PreambleLine1IsClean()
    ensures Clean(PreambleLine(1) + "\n")
  {
    CleanComment("    # of a `kind = \"lib\"` package as ", "src/<package tail>.cppm, so this file");
  }

  lemma PreambleLine2IsClean()
    ensures Clean(PreambleLine(2) + "\n")
  {
    CleanComment("    # is both the module and ", "what satisfies that convention.");
  }

  lemma PreambleLine3IsClean()
    ensures Clean(PreambleLine(3) + "\n")
  {
    CleanComment("    \"src/", "grpc.cppm\",");
  }

  lemma PreambleLine4IsClean()
    ensures Clean(PreambleLine(4) + "\n")
  {
    CleanComment("    \"src/", "macros.cppm\",");
  }

  lemma PreambleIsClean()
    ensures Clean(LIB_ROOT_PREAMBLE)
  {
    hide PreambleLine, Clean;
    PreambleLine0IsClean();
    PreambleLine1IsClean();
    PreambleLine2IsClean();
    PreambleLine3IsClean();
    PreambleLine4IsClean();
    var p0 := PreambleLine(0) + "\n";
    var p1 := p0 + (PreambleLine(1) + "\n");
    var p2 := p1 + (PreambleLine(2) + "\n");
    CleanConcat(p0, PreambleLine(1) + "\n");
    CleanConcat(p1, PreambleLine(2) + "\n");
    CleanConcat(p2, PreambleLine(3) + "\n");
    CleanConcat(p2 + (PreambleLine(3) + "\n"), PreambleLine(4) + "\n");
  }

  lemma CleanComment(a: string, b: string)
    requires a != "" && '\n' !in a && a[0] != '['
    requires b != "" && '\n' !in b && b[|b| - 1] != '[' && b[|b| - 1] != ']'
    ensures Clean(a + b + "\n")
  {
    var line := a + b + "\n";
    assert line[|line| - 2] == b[|b| - 1];
    forall i | 0 <= i < |line| - 1
      ensures line[i] != '\n'
    {
      if i < |a| { assert line[i] == a[i]; } else { assert line[i] == b[i - |a|]; }
    }
  }

  // The bodies render produces for collected sources are clean. Sources are
  // stripped lines of the build file, so they hold no line end.
  lemma RenderedIsClean(paths: seq<string>, withLibRoot: bool)
    requires forall p :: p in paths ==> OneLine(p)
    requires withLibRoot || paths != []
    ensures Clean(Render(paths, withLibRoot))
  {
    hide LIB_ROOT_PREAMBLE;
    if paths != [] {
      PathLinesAreClean(paths);
    } else {
      assert LIB_ROOT_PREAMBLE + "" == LIB_ROOT_PREAMBLE;
    }
    if withLibRoot {
      PreambleIsClean();
      if paths != [] { CleanConcat(LIB_ROOT_PREAMBLE, PathLines(paths)); }
    }
  }
}
