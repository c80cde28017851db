// The source lists of a manifest, read back from its text: what the arrays of
// the two sections hold after a run of tools/gen_sources.py.
module ManifestEntries {
  import opened Tokens
  import opened Replace
  import opened SourceLists
  import opened ManifestArrays
  import opened GenSources

  // ---- Reading an array ----

  function Trimmed(line: string): string { if line != "" && line[0] == ' ' then Trimmed(line[1..]) else line }

  // The quoted text a line starts with, unless the line is a comment.
  function EntryOn(line: string): seq<string> {
    var t := Trimmed(line);
    if t == "" || t[0] != '"' then []
    else
      var end := FirstOf(t[1..], "\"");
      if end == |t| - 1 then [] else [t[1..][..end]]
  }

  // The entries of an array body, line by line.
  function EntriesIn(body: string): seq<string>
    decreases |body|
  {
    var end := FirstOf(body, "\n");
    if end == |body| then EntryOn(body) else EntryOn(body[..end]) + EntriesIn(body[end + 1..])
  }

  // The entries of the first array behind a section's header.
  function EntriesOf(manifest: string, section: string): seq<string> {
    var p := Locate(manifest, section);
    if p.Missing? then [] else EntriesIn(manifest[p.arr..p.end])
  }

  // ---- Reading rendered bodies ----

  lemma FirstLine(line: string, rest: string)
    requires '\n' !in line
    ensures EntriesIn(line + "\n" + rest) == EntryOn(line) + EntriesIn(rest)
  {
    hide FirstOf, EntryOn;
    var body := line + "\n" + rest;
    assert ['\n'] == "\n" && body == line + (['\n'] + rest);
    FirstOfAt(line, ['\n'] + rest, "\n");
    assert body[..|line|] == line && body[|line| + 1..] == rest;
  }

  lemma Indented(line: string)
    requires |line| > 4 && line[0] == line[1] == line[2] == line[3] == ' ' && line[4] != ' '
    ensures Trimmed(line) == line[4..]
  {
    assert line[1..][1..] == line[2..] && line[2..][1..] == line[3..] && line[3..][1..] == line[4..];
    assert Trimmed(line) == Trimmed(line[1..]) == Trimmed(line[1..][1..]) == Trimmed(line[2..][1..]) ==
      Trimmed(line[3..][1..]);
  }

  lemma QuotedEntry(text: string)
    requires '"' !in text
    ensures EntryOn("    \"" + text + "\",") == [text]
  {
    hide FirstOf;
    var line := "    \"" + text + "\",";
    Indented(line);
    var t := line[4..];
    assert t[1..] == text + "\",";
    assert ['"'] == "\"";
    FirstOfAt(text, "\",", "\"");
    assert t[1..][..|text|] == text;
  }

  lemma CommentEntry(line: string)
    requires |line| > 4 && line[0] == line[1] == line[2] == line[3] == ' ' && line[4] == '#'
    ensures EntryOn(line) == []
  {
    Indented(line);
  }

  // No entry holds a quote or a line end.
  lemma {:induction false} EntriesAreOneLine(body: string)
    ensures forall e :: e in EntriesIn(body) ==> '"' !in e && '\n' !in e
    decreases |body|
  {
    var end := FirstOf(body, "\n");
    assert '\n' !in body[..end];
    EntryIsOneLine(body[..end]);
    if end == |body| {
      assert body[..end] == body;
    } else {
      EntriesAreOneLine(body[end + 1..]);
    }
  }

  lemma EntryIsOneLine(line: string)
    requires '\n' !in line
    ensures forall e :: e in EntryOn(line) ==> '"' !in e && '\n' !in e
  {
    var t := Trimmed(line);
    TrimmedIsTail(line);
    if t != "" && t[0] == '"' {
      var rest := t[1..];
      var end := FirstOf(rest, "\"");
      assert forall i :: 0 <= i < end ==> rest[..end][i] == rest[i];
      assert forall c :: c in rest[..end] ==> c in line;
    }
  }

  lemma {:induction false} TrimmedIsTail(line: string)
    ensures forall c :: c in Trimmed(line) ==> c in line
  {
    if line != "" && line[0] == ' ' { TrimmedIsTail(line[1..]); }
  }

  // What an array is meant to list.
  function Vendored(paths: seq<string>): seq<string> {
    seq(|paths|, i requires 0 <= i < |paths| => "third_party/grpc-1.83.0/" + paths[i])
  }

  function LibRoots(): seq<string> { ["src/grpc.cppm", "src/macros.cppm"] }

  predicate Quotable(p: string) { '"' !in p && '\n' !in p }

  lemma PathEntry(p: string)
    requires Quotable(p)
    ensures '\n' !in "    \"" + VENDOR + "/" + p + "\","
    ensures EntryOn("    \"" + VENDOR + "/" + p + "\",") == ["third_party/grpc-1.83.0/" + p]
  {
    hide EntryOn;
    var text := VENDOR + "/" + p;
    VendorIsQuotable();
    assert "    \"" + VENDOR + "/" + p + "\"," == "    \"" + text + "\",";
    QuotedEntry(text);
    assert VENDOR + "/" == "third_party/grpc-1.83.0/";
  }

  lemma VendorIsQuotable()
    ensures Quotable(VENDOR)
  {
  }

  lemma {:induction false} PathEntries(paths: seq<string>)
    requires forall p :: p in paths ==> Quotable(p)
    ensures EntriesIn(PathLines(paths)) == Vendored(paths)
  {
    hide EntryOn, Quotable, VENDOR, EntriesIn, PathLines;
    if paths != [] {
      assert paths[0] in paths && forall p :: p in paths[1..] ==> p in paths;
      var line := "    \"" + VENDOR + "/" + paths[0] + "\",";
      PathEntry(paths[0]);
      LinesCons(paths);
      FirstLine(line, PathLines(paths[1..]));
      PathEntries(paths[1..]);
      assert Vendored(paths) == ["third_party/grpc-1.83.0/" + paths[0]] + Vendored(paths[1..]);
    } else {
      EmptyBody();
    }
  }

  lemma LinesCons(paths: seq<string>)
    requires paths != []
    ensures PathLines(paths) == "    \"" + VENDOR + "/" + paths[0] + "\"," + "\n" + PathLines(paths[1..])
  {
    assert "\"," + "\n" == "\",\n";
  }

  lemma EmptyBody()
    ensures EntriesIn("") == [] && PathLines([]) == ""
  {
  }

  // The three comments and the two entries of the preamble.
  predicate Says(line: string, entries: seq<string>) { '\n' !in line && EntryOn(line) == entries }

  lemma PreambleLine0Says()
    ensures Says(PreambleLine(0), [])
  {
    hide EntryOn;
    CommentLine("    # The lib root: the C++23 module ", "interface. mcpp resolves the lib root");
  }

  lemma PreambleLine1Says()
    ensures Says(PreambleLine(1), [])
  {
    hide EntryOn;
    CommentLine("    # of a `kind = \"lib\"` package as ", "src/<package tail>.cppm, so this file");
  }

  lemma PreambleLine2Says()
    ensures Says(PreambleLine(2), [])
  {
    hide EntryOn;
    CommentLine("    # is both the module and ", "what satisfies that convention.");
  }

  lemma PreambleLine3Says()
    ensures Says(PreambleLine(3), ["src/grpc.cppm"])
  {
    hide EntryOn;
    NamesAreQuotable();
    LibRootLine("grpc.cppm");
    assert "grpc.cppm" + "\"," == "grpc.cppm\"," && "src/" + "grpc.cppm" == "src/grpc.cppm";
  }

  lemma PreambleLine4Says()
    ensures Says(PreambleLine(4), ["src/macros.cppm"])
  {
    hide EntryOn;
    NamesAreQuotable();
    LibRootLine("macros.cppm");
    assert "macros.cppm" + "\"," == "macros.cppm\"," && "src/" + "macros.cppm" == "src/macros.cppm";
  }

  lemma CommentLine(a: string, b: string)
    requires |a| > 4 && a[0] == a[1] == a[2] == a[3] == ' ' && a[4] == '#'
    requires (forall i :: 0 <= i < |a| ==> a[i] != '\n') && (forall i :: 0 <= i < |b| ==> b[i] != '\n')
    ensures Says(a + b, [])
  {
    CommentEntry(a + b);
  }

  lemma NamesAreQuotable()
    ensures Quotable("grpc.cppm") && Quotable("macros.cppm")
  {
  }

  lemma LibRootLine(name: string)
    requires Quotable(name)
    ensures Says("    \"src/" + (name + "\","), ["src/" + name])
  {
    hide EntryOn;
    QuotedEntry("src/" + name);
    assert "    \"src/" == "    \"" + "src/";
    assert "    \"src/" + (name + "\",") == "    \"" + ("src/" + name) + "\",";
  }

  lemma PreambleEntries(rest: string)
    ensures EntriesIn(LIB_ROOT_PREAMBLE + rest) == LibRoots() + EntriesIn(rest)
  {
    hide PreambleLine, EntryOn, EntriesIn;
    var r4 := PreambleLine(4) + "\n" + rest;
    var r3 := PreambleLine(3) + "\n" + r4;
    var r2 := PreambleLine(2) + "\n" + r3;
    var r1 := PreambleLine(1) + "\n" + r2;
    assert LIB_ROOT_PREAMBLE + rest == PreambleLine(0) + "\n" + r1;
    PreambleLine0Says();
    PreambleLine1Says();
    PreambleLine2Says();
    PreambleLine3Says();
    PreambleLine4Says();
    FirstLine(PreambleLine(0), r1);
    FirstLine(PreambleLine(1), r2);
    FirstLine(PreambleLine(2), r3);
    FirstLine(PreambleLine(3), r4);
    FirstLine(PreambleLine(4), rest);
  }

  // A rendered body lists the two library roots, if they are asked for, and
  // then every path under the vendored tree, in order: exactly if no path holds
  // a quote or a line end.
  lemma RenderedEntriesIff(paths: seq<string>, withLibRoot: bool)
    ensures EntriesIn(Render(paths, withLibRoot)) == (if withLibRoot then LibRoots() else []) + Vendored(paths) <==>
            forall p :: p in paths ==> Quotable(p)
  {
    hide EntriesIn, LIB_ROOT_PREAMBLE, LibRoots, Quotable, PathLines;
    var meant := (if withLibRoot then LibRoots() else []) + Vendored(paths);
    if forall p :: p in paths ==> Quotable(p) {
      PathEntries(paths);
      PreambleEntries(PathLines(paths));
    } else {
      var p :| p in paths && !Quotable(p);
      EntriesAreOneLine(Render(paths, withLibRoot));
      UnquotableIsLost(paths, p, EntriesIn(Render(paths, withLibRoot)));
      assert forall e :: e in Vendored(paths) ==> e in meant;
    }
  }

  lemma UnquotableIsLost(paths: seq<string>, p: string, entries: seq<string>)
    requires p in paths && !Quotable(p) && forall e :: e in entries ==> '"' !in e && '\n' !in e
    ensures exists e :: e in Vendored(paths) && e !in entries
  {
    var i :| 0 <= i < |paths| && paths[i] == p;
    var e := Vendored(paths)[i];
    assert e[24..] == p;
    assert forall c :: c in p ==> c in e;
    assert e in Vendored(paths) && e !in entries;
  }

  // ---- Arrays after a rewrite ----

  // Both sections stand in front of one array, and share it.
  predicate SharedArray(text: string) {
    var p, q := Locate(text, "\n[build]\n"), Locate(text, "\n[features.ares]\n");
    p.Found? && q.Found? && p.arr == q.arr
  }

  // The body of a section's array.
  predicate ListsBody(text: string, section: string, body: string) {
    var p := Locate(text, section);
    p.Found? && text[p.arr..p.end] == body
  }

  lemma SharedCarriesOver(s: string, t: string, arr: nat)
    requires Locate(s, ARES).Found? && Locate(s, ARES).arr == arr
    requires arr <= |s| && arr <= |t| && s[..arr] == t[..arr] && Find(t, CLOSE, arr).At?
    ensures Locate(t, ARES).Found? && Locate(t, ARES).arr == arr
  {
    AresIsHeader();
    var q := Locate(s, ARES);
    HeaderBeforeArray(s, ARES);
    hide ARES;
    FindInPrefix(s, t, ARES, 0, q.start, arr);
    FindInPrefix(s, t, BEGIN, q.start, arr - |BEGIN|, arr);
  }

  lemma LocatedCloses(text: string, marker: string)
    requires Locate(text, marker).Found?
    ensures Find(text, CLOSE, Locate(text, marker).arr).At?
  {
  }

  // Writing the build array does not change whether the array is shared.
  lemma SharedKept(text: string, core: string)
    requires Locate(text, BUILD).Found? && Clean(core)
    ensures var p := Locate(text, BUILD); SharedArray(text) <==> SharedArray(Spliced(text, p.arr, p.end, core))
  {
    var p := Locate(text, BUILD);
    var u := Spliced(text, p.arr, p.end, core);
    LeftOpenKept(text, core);
    assert u[..p.arr] == text[..p.arr];
    assert BUILD == "\n[build]\n" && ARES == "\n[features.ares]\n";
    LocatedCloses(text, BUILD);
    LocatedCloses(u, BUILD);
    hide BUILD, ARES, Clean, Locate;
    if SharedArray(text) { SharedCarriesOver(text, u, p.arr); }
    if SharedArray(u) { SharedCarriesOver(u, text, p.arr); }
  }

  // After a rewrite the second section's array holds its body. So does the
  // build array, unless it is the same one or the second was left open up to
  // the build header; then it holds the other body, or has no header left.
  lemma RewrittenArrays(text: string, core: string, ares: string)
    requires Clean(core) && Clean(ares) && Rewrite(text, core, ares).Text?
    ensures var v := Rewrite(text, core, ares).text;
      ListsBody(v, "\n[features.ares]\n", ares) &&
      (SharedArray(text) ==> ListsBody(v, "\n[build]\n", ares)) &&
      (!SharedArray(text) && !LeftOpen(text) ==> ListsBody(v, "\n[build]\n", core)) &&
      (!SharedArray(text) && LeftOpen(text) && OneBuildHeader(text) ==> Locate(v, "\n[build]\n").Missing?)
  {
    assert BUILD == "\n[build]\n" && ARES == "\n[features.ares]\n";
    hide BUILD, ARES, Locate, Clean, Holds, LeftOpen, SharedArray, LaidOut, ListsBody, Rewrite, OneBuildHeader,
      ReplaceArray;
    var p := Locate(text, BUILD);
    RewrittenText(text, core, ares);
    var u := Spliced(text, p.arr, p.end, core);
    LeftOpenKept(text, core);
    SharedKept(text, core);
    assert Holds(u, Locate(u, BUILD), core) by { BuildHeld(u, core); }
    SecondStep(u, core, ares);
    if LeftOpen(text) && OneBuildHeader(text) {
      OneBuildHeaderKept(text, core);
      HeaderLost(u, ares);
      NotLocated(Rewrite(text, core, ares).text, BUILD);
    }
  }

  lemma BuildHeld(u: string, core: string)
    requires Locate(u, BUILD).Found? && Locate(u, BUILD).end == Locate(u, BUILD).arr + |core|
    requires u[Locate(u, BUILD).arr..Locate(u, BUILD).end] == core
    ensures Holds(u, Locate(u, BUILD), core)
  {
    hide BUILD, Locate;
  }

  // The second step, by layout.
  lemma BuildAfterwards(u: string, p: Place, q: Place, l: Layout, core: string, ares: string)
    requires Holds(u, p, core) && q == Locate(u, ARES) && q.Found? && Clean(ares) && LaidOut(p, q, l)
    ensures var v := Spliced(u, q.arr, q.end, ares);
      (l == Behind || l == InFront ==> ListsBody(v, BUILD, core)) && (l == Same ==> ListsBody(v, BUILD, ares))
  {
    hide BUILD, ARES, Locate, Clean, Holds, ListsBody, Header, Spliced, Moved;
    BuildIsHeader();
    LocatedBrackets(u, ARES);
    HeldIs(u, p, core);
    var v := Spliced(u, q.arr, q.end, ares);
    match l
    case Behind =>
      BehindAgain(u, p, q.arr, q.end, core, ares);
      HeldLists(v, p, core);
    case Same => ArrayReplaced(u, BUILD, ares);
    case InFront =>
      InFrontAgain(u, p, q.arr, q.end, core, ares);
      HeldLists(v, Moved(p, q.end, q.arr + |ares|), core);
    case OpenUpToBuild =>
  }

  lemma SecondStep(u: string, core: string, ares: string)
    requires Holds(u, Locate(u, BUILD), core) && Locate(u, ARES).Found? && Clean(core) && Clean(ares)
    ensures var q := Locate(u, ARES);
      var v := Spliced(u, q.arr, q.end, ares);
      ListsBody(v, ARES, ares) && (SharedArray(u) ==> ListsBody(v, BUILD, ares)) &&
      (!SharedArray(u) && !LeftOpen(u) ==> ListsBody(v, BUILD, core))
  {
    AresIsHeader();
    hide BUILD, ARES, Locate, Clean, Holds, LaidOut, ListsBody, Find, SharedArray, LeftOpen, Spliced, Header;
    var p, q := Locate(u, BUILD), Locate(u, ARES);
    ArrayReplaced(u, ARES, ares);
    HeldIs(u, p, core);
    var l := Layouts(u, p, q, core);
    LayoutMeans(u, p, q, l);
    BuildAfterwards(u, p, q, l, core, ares);
  }

  lemma HeldIs(u: string, p: Place, core: string)
    requires Holds(u, p, core)
    ensures p == Locate(u, BUILD) && p.Found? && p.start <= p.arr <= p.end <= |u|
    ensures p.end == p.arr + |core| && u[p.arr..p.end] == core
  {
  }

  lemma HeldLists(v: string, p: Place, core: string)
    requires Holds(v, p, core)
    ensures ListsBody(v, BUILD, core)
  {
  }

  // Which layouts share the array, and which one is left open.
  lemma LayoutMeans(u: string, p: Place, q: Place, l: Layout)
    requires p == Locate(u, BUILD) && q == Locate(u, ARES) && p.Found? && q.Found? && LaidOut(p, q, l)
    ensures SharedArray(u) <==> l == Same
    ensures l == OpenUpToBuild ==> LeftOpen(u)
  {
    BuildIsHeader();
    HeaderBeforeArray(u, BUILD);
    hide Locate, Find;
  }

  lemma ArrayReplaced(u: string, marker: string, body: string)
    requires Header(marker) && Locate(u, marker).Found? && Clean(body)
    ensures var q := Locate(u, marker); ListsBody(Spliced(u, q.arr, q.end, body), marker, body)
  {
    HeaderBeforeArray(u, marker);
    hide Locate, Clean;
    LocateReplaced(u, marker, body);
    var q := Locate(u, marker);
    assert Spliced(u, q.arr, q.end, body)[q.arr..q.arr + |body|] == body;
  }

  // ---- Arrays after a run ----

  // Upstream's sources are names of files, without quotes or line ends.
  predicate AllQuotable(targets: seq<seq<string>>) { forall s :: s in Flat(targets) ==> Quotable(s) }

  lemma CollectedAreQuotable(targets: seq<seq<string>>)
    requires AllQuotable(targets) && CollectedFrom(targets).Lists?
    ensures AllOneLine(targets)
    ensures forall s :: s in CollectedFrom(targets).core || s in CollectedFrom(targets).ares ==> Quotable(s)
  {
    hide CollectedFrom, Quotable, OneLine, OfAres, LeftOut;
    CollectPartitions(targets);
    forall s | s in Flat(targets) ensures OneLine(s) { QuotableIsOneLine(s); }
  }

  lemma QuotableIsOneLine(s: string)
    ensures Quotable(s) ==> OneLine(s)
  {
  }

  lemma ListedEntries(text: string, section: string, paths: seq<string>, withLibRoot: bool)
    requires ListsBody(text, section, Render(paths, withLibRoot)) && forall p :: p in paths ==> Quotable(p)
    ensures EntriesOf(text, section) == (if withLibRoot then LibRoots() else []) + Vendored(paths)
  {
    hide EntriesIn, Render, LibRoots, Vendored, Quotable, Locate;
    RenderedEntriesIff(paths, withLibRoot);
  }

  // Vendored sources are not the library's own.
  lemma VendoredDiffer(core: seq<string>, ares: seq<string>)
    ensures Vendored(ares) != LibRoots() + Vendored(core) && LibRoots() + Vendored(core) != []
  {
    var own := LibRoots() + Vendored(core);
    assert own[0] == "src/grpc.cppm" && "src/grpc.cppm"[0] == 's';
    if ares != [] {
      assert Vendored(ares)[0][0] == "third_party/grpc-1.83.0/"[0] == 't';
    }
  }

  // After a run that wrote the manifest, the array of [features.ares] lists
  // the c-ares sources under the vendored tree, in order, and the array of
  // [build] the two library roots and all the others. With one build header
  // the latter is exact: it lists them unless both sections share one array or
  // the second was left open up to the build header.
  lemma WrittenArrays(manifest: string, targets: seq<seq<string>>)
    requires AllQuotable(targets) && RunOf(manifest, targets, false).exit == Written
    ensures CollectedFrom(targets).Lists?
    ensures var once, lists := RunOf(manifest, targets, false).manifest, CollectedFrom(targets);
      var listed := EntriesOf(once, "\n[build]\n") == LibRoots() + Vendored(lists.core);
      EntriesOf(once, "\n[features.ares]\n") == Vendored(lists.ares) &&
      (!SharedArray(manifest) && !LeftOpen(manifest) ==> listed) &&
      (OneBuildHeader(manifest) && listed ==> !SharedArray(manifest) && !LeftOpen(manifest))
  {
    hide CollectedFrom, Render, Rewrite, Clean, LeftOpen, SharedArray, OneBuildHeader, ListsBody, Locate, Vendored,
      LibRoots, EntriesOf, Quotable, AllQuotable, AllOneLine;
    CollectedAreQuotable(targets);
    BodiesAreClean(targets);
    var lists := CollectedFrom(targets);
    var core, ares := Render(lists.core, true), Render(lists.ares, false);
    var once := RunOf(manifest, targets, false).manifest;
    RewrittenArrays(manifest, core, ares);
    ListedEntries(once, "\n[features.ares]\n", lists.ares, false);
    VendoredDiffer(lists.core, lists.ares);
    assert [] + Vendored(lists.ares) == Vendored(lists.ares);
    if SharedArray(manifest) {
      ListedEntries(once, "\n[build]\n", lists.ares, false);
    } else if !LeftOpen(manifest) {
      ListedEntries(once, "\n[build]\n", lists.core, true);
    } else if OneBuildHeader(manifest) {
      MissingHasNoEntries(once, "\n[build]\n");
    }
  }

  lemma MissingHasNoEntries(text: string, section: string)
    requires Locate(text, section).Missing?
    ensures EntriesOf(text, section) == []
  {
  }
}
