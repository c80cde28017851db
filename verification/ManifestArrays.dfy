// replace_array of tools/gen_sources.py and the two-step rewrite of main:
// where the arrays are found, what changes, and when rewriting twice is
// rewriting once.
module ManifestArrays {
  import opened Replace
  import opened SourceLists

  // `sources = [` and its line end, which opens an array.
  const BEGIN: string := "sources = [\n"

  const CLOSE: string := "]\n"

  // A section header on a line of its own, line ends included.
  predicate Header(m: string) {
    && |m| >= 5
    && m[0] == '\n' && m[1] == '[' && m[|m| - 2] == ']' && m[|m| - 1] == '\n'
    && forall i :: 1 < i < |m| - 2 ==> m[i] != '\n' && m[i] != ']' && m[i] != '['
  }

  // Where text.index finds the section, the start of the array body and its end.
  datatype Place = Missing | Found(start: nat, arr: nat, end: nat)

  function Locate(text: string, marker: string): (p: Place)
    ensures p.Found? ==>
      p.start + |marker| <= |text| && p.start <= p.arr - |BEGIN| && p.arr <= p.end && p.end + 2 <= |text|
  {
    var s := Find(text, marker, 0);
    if s.Npos? then Missing
    else
      var a := Find(text, BEGIN, s.pos);
      if a.Npos? then Missing
      else
        var arr := a.pos + |BEGIN|;
        var e := Find(text, CLOSE, arr);
        if e.Npos? then Missing else Found(s.pos, arr, e.pos)
  }

  // A place is the first of its kind at or behind another.
  predicate FirstAt(text: string, pat: string, from: nat, p: nat) {
    from <= p && OccursAt(text, pat, p) && forall i: nat :: from <= i < p ==> !OccursAt(text, pat, i)
  }

  lemma FoundFirst(text: string, pat: string, from: nat, p: nat)
    requires FirstAt(text, pat, from, p)
    ensures Find(text, pat, from) == At(p)
  {
  }

  // The array meant: the first one behind the first header of the section, up
  // to the first bracket that ends a line.
  predicate ArrayAt(text: string, marker: string, start: nat, begin: nat, end: nat) {
    FirstAt(text, marker, 0, start) && FirstAt(text, "sources = [\n", start, begin) &&
    FirstAt(text, "]\n", begin + 12, end)
  }

  lemma LocateIs(text: string, marker: string)
    ensures var p := Locate(text, marker);
      p.Found? ==> p.arr >= 12 && ArrayAt(text, marker, p.start, p.arr - 12, p.end)
    ensures Locate(text, marker).Missing? ==>
      forall start: nat, begin: nat, end: nat :: !ArrayAt(text, marker, start, begin, end)
  {
    assert BEGIN == "sources = [\n" && CLOSE == "]\n" && |BEGIN| == 12;
  }

  function Spliced(text: string, arr: nat, end: nat, body: string): string
    requires arr <= end <= |text|
  {
    text[..arr] + body + text[end..]
  }

  datatype Rewritten = Error | Text(text: string)

  // replace_array; Error is the ValueError of text.index
  function ReplaceArray(text: string, marker: string, body: string): Rewritten {
    var p := Locate(text, marker);
    if p.Missing? then Error else Text(Spliced(text, p.arr, p.end, body))
  }

  const BUILD: string := "\n[build]\n"

  const ARES: string := "\n[features.ares]\n"

  // The two replace_array calls of main.
  function Rewrite(text: string, core: string, ares: string): Rewritten {
    var u := ReplaceArray(text, BUILD, core);
    if u.Error? then Error else ReplaceArray(u.text, ARES, ares)
  }

  lemma BuildIsHeader()
    ensures Header(BUILD) && |BUILD| == 9
  {
  }

  lemma AresIsHeader()
    ensures Header(ARES)
  {
  }

  lemma BeginShape()
    ensures |BEGIN| == 12 && BEGIN[11] == '\n' && BEGIN[10] == '['
    ensures forall i :: 0 <= i < 11 ==> BEGIN[i] != '\n'
  {
  }

  // An occurrence, character by character.
  lemma OccursChars(s: string, pat: string, i: nat)
    requires OccursAt(s, pat, i)
    ensures i + |pat| <= |s| && forall k :: 0 <= k < |pat| ==> s[i + k] == pat[k]
  {
    forall k | 0 <= k < |pat|
      ensures s[i + k] == pat[k]
    {
      assert s[i..i + |pat|][k] == s[i + k];
    }
  }

  lemma OccursIf(s: string, pat: string, i: nat)
    requires i + |pat| <= |s| && forall k :: 0 <= k < |pat| ==> s[i + k] == pat[k]
    ensures OccursAt(s, pat, i)
  {
  }

  // A search that ends inside a common prefix finds the same place.
  lemma FindInPrefix(s: string, t: string, pat: string, from: nat, p: nat, n: nat)
    requires pat != "" && n <= |s| && n <= |t| && s[..n] == t[..n] && p + |pat| <= n
    requires Find(s, pat, from) == At(p)
    ensures Find(t, pat, from) == At(p)
  {
    FindAgrees(s, t, pat, n);
  }

  // A clean body brings no new end of array: the search from its start stops
  // at the bracket behind it.
  lemma CloseBehindBody(text: string, arr: nat, end: nat, body: string)
    requires arr <= end && OccursAt(text, CLOSE, end) && Clean(body)
    ensures Find(Spliced(text, arr, end, body), CLOSE, arr) == At(arr + |body|)
  {
    var v := Spliced(text, arr, end, body);
    OccursChars(text, CLOSE, end);
    var n := arr + |body|;
    assert v[n] == text[end] && v[n + 1] == text[end + 1];
    OccursIf(v, CLOSE, n);
    forall i: nat | arr <= i < n
      ensures !OccursAt(v, CLOSE, i)
    {
      assert v[i] == body[i - arr] && (i + 1 < n ==> v[i + 1] == body[i + 1 - arr]);
      if OccursAt(v, CLOSE, i) { OccursChars(v, CLOSE, i); }
    }
  }

  // Once an array is replaced by a clean body, the same search finds exactly
  // that body.
  lemma LocateReplaced(text: string, marker: string, body: string)
    requires Locate(text, marker).Found? && marker != "" && Clean(body)
    requires var p := Locate(text, marker); p.start + |marker| <= p.arr
    ensures var p := Locate(text, marker);
      Locate(Spliced(text, p.arr, p.end, body), marker) == Found(p.start, p.arr, p.arr + |body|)
  {
    var p := Locate(text, marker);
    var v := Spliced(text, p.arr, p.end, body);
    assert v[..p.arr] == text[..p.arr];
    FindInPrefix(text, v, marker, 0, p.start, p.arr);
    FindInPrefix(text, v, BEGIN, p.start, p.arr - |BEGIN|, p.arr);
    CloseBehindBody(text, p.arr, p.end, body);
  }

  // The opening line of an array cannot begin inside a header before the
  // header's last line end.
  lemma HeaderBeforeArray(text: string, marker: string)
    requires Header(marker) && Locate(text, marker).Found?
    ensures var p := Locate(text, marker); p.start + |marker| <= p.arr
  {
    var p := Locate(text, marker);
    NoOverlap(text, marker, p.start, p.arr - |BEGIN|);
  }

  lemma NoOverlap(text: string, marker: string, start: nat, begin: nat)
    requires Header(marker) && OccursAt(text, marker, start) && OccursAt(text, BEGIN, begin)
    ensures begin + |BEGIN| <= start + 1 || start + |marker| <= begin + |BEGIN|
  {
    BeginShape();
    OccursChars(text, marker, start);
    OccursChars(text, BEGIN, begin);
    assert text[begin + 11] == '\n' && text[begin + 10] == '[';
    var k := begin + 11 - start;
    if 0 < k < |marker| - 1 {
      AtOffset(text, marker, start, k);
      AtOffset(text, marker, start, k - 1);
    }
  }

  lemma AtOffset(text: string, pat: string, start: nat, k: nat)
    requires OccursAt(text, pat, start) && k < |pat|
    ensures start + k < |text| && text[start + k] == pat[k]
  {
    OccursChars(text, pat, start);
  }

  lemma SplicedChars(text: string, arr: nat, end: nat, body: string)
    requires arr <= end <= |text|
    ensures var v, n := Spliced(text, arr, end, body), arr + |body|;
      && |v| == n + |text| - end
      && (forall k :: 0 <= k < arr ==> v[k] == text[k])
      && (forall k :: arr <= k < n ==> v[k] == body[k - arr])
      && (forall k :: n <= k < |v| ==> v[k] == text[k - |body| + (end - arr)])
  {
  }

  // Splicing a clean body in between an opening line and a bracket makes no
  // new header: every header found afterwards was there before, in front of
  // the array or behind it.
  lemma NoNewHeader(text: string, arr: nat, end: nat, body: string, m: string, i: nat)
    requires Header(m) && Clean(body) && 0 < arr <= end < |text| && text[arr - 1] == '\n' && text[end] == ']'
    requires OccursAt(Spliced(text, arr, end, body), m, i)
    ensures (i + |m| <= arr && OccursAt(text, m, i)) ||
            (i >= arr + |body| && OccursAt(text, m, i - |body| + (end - arr)))
  {
    var v := Spliced(text, arr, end, body);
    NotAcrossBody(text, arr, end, body, m, i);
    if i + |m| <= arr {
      assert v[i..i + |m|] == text[i..i + |m|];
    } else {
      var j := i - |body| + (end - arr);
      assert v[i..i + |m|] == text[j..j + |m|];
    }
  }

  lemma NotAcrossBody(text: string, arr: nat, end: nat, body: string, m: string, i: nat)
    requires Header(m) && Clean(body) && 0 < arr <= end < |text| && text[arr - 1] == '\n' && text[end] == ']'
    requires OccursAt(Spliced(text, arr, end, body), m, i)
    ensures i + |m| <= arr || i >= arr + |body|
  {
    var v, n := Spliced(text, arr, end, body), arr + |body|;
    SplicedChars(text, arr, end, body);
    OccursChars(v, m, i);
    assert v[arr - 1] == '\n' && v[arr] != '[' && v[n - 1] == '\n' && v[n] == ']';
    assert v[i] == v[i + 0] == '\n' && v[i + 1] == '[';
    var k := arr - 1 - i;
    assert 0 <= k < |m| ==> v[i + k] == m[k];
  }

  // How the array replaced second lies to the one replaced first, after the
  // first replacement: behind it, the same one, wholly in front of the build
  // header, or left open up to that header, so that the header's own bracket
  // is taken for the end of the array.
  datatype Layout = Behind | Same | InFront | OpenUpToBuild

  predicate LaidOut(p: Place, q: Place, l: Layout)
    requires p.Found? && q.Found?
  {
    match l
    case Behind => q.arr >= p.end + 2
    case Same => q.arr == p.arr && q.end == p.end
    case InFront => q.arr <= p.start && q.end + 1 <= p.start
    case OpenUpToBuild => q.arr <= p.start + 1 && q.end == p.start + 7
  }

  lemma FrontLayout(text: string, p: Place, q: Place) returns (l: Layout)
    requires p == Locate(text, BUILD) && q == Locate(text, ARES) && p.Found? && q.Found?
    requires q.arr <= p.start + 1
    ensures LaidOut(p, q, l)
  {
    BracketOfBuild(text, p.start);
    assert q.end <= p.start + 7;
    if q.end == p.start + 7 { return OpenUpToBuild; }
    NotInBuild(text, p.start, q.end);
    return InFront;
  }

  // The search for the build array starts at its header, so behind that
  // header it finds no later array than the other search does.
  lemma BackLayout(text: string, p: Place, q: Place, body: string) returns (l: Layout)
    requires p == Locate(text, BUILD) && q == Locate(text, ARES) && p.Found? && q.Found?
    requires Clean(body) && p.end == p.arr + |body| && text[p.arr..p.end] == body
    requires q.arr >= p.start + |BEGIN|
    ensures LaidOut(p, q, l)
  {
    hide BUILD, ARES, BEGIN, Clean;
    var begin := q.arr - |BEGIN|;
    assert p.arr - |BEGIN| <= begin;
    if q.arr == p.arr { return Same; }
    BeginNotInBody(text, p, body, begin);
    return Behind;
  }

  lemma Layouts(text: string, p: Place, q: Place, body: string) returns (l: Layout)
    requires p == Locate(text, BUILD) && q == Locate(text, ARES) && p.Found? && q.Found?
    requires Clean(body) && p.end == p.arr + |body| && text[p.arr..p.end] == body
    ensures LaidOut(p, q, l)
  {
    hide Locate, BUILD, ARES, Clean, LaidOut, Find;
    BuildIsHeader();
    LocatedOccurs(text, BUILD);
    LocatedOccurs(text, ARES);
    BeginShape();
    NoOverlap(text, BUILD, p.start, q.arr - |BEGIN|);
    if q.arr <= p.start + 1 {
      l := FrontLayout(text, p, q);
    } else {
      StartsBehind(text, p.start, q.arr - 12);
      l := BackLayout(text, p, q, body);
    }
  }

  lemma LocatedOccurs(text: string, marker: string)
    requires Locate(text, marker).Found?
    ensures var p := Locate(text, marker);
      p.arr >= |BEGIN| && OccursAt(text, marker, p.start) && OccursAt(text, BEGIN, p.arr - |BEGIN|)
  {
  }

  // An array opened behind the first line end of the build header is opened
  // behind the whole header.
  lemma StartsBehind(text: string, start: nat, begin: nat)
    requires OccursAt(text, BUILD, start) && OccursAt(text, BEGIN, begin)
    requires begin + 12 > start + 1
    ensures begin >= start
  {
    BeginShape();
    AtOffset(text, BUILD, start, 0);
    if begin < start { AtOffset(text, BEGIN, begin, start - begin); }
  }

  lemma BracketOfBuild(text: string, start: nat)
    requires OccursAt(text, BUILD, start)
    ensures OccursAt(text, CLOSE, start + 7)
  {
    AtOffset(text, BUILD, start, 7);
    AtOffset(text, BUILD, start, 8);
    OccursIf(text, CLOSE, start + 7);
  }

  lemma NotInBuild(text: string, start: nat, end: nat)
    requires OccursAt(text, BUILD, start) && OccursAt(text, CLOSE, end) && end < start + 7
    ensures end + 1 <= start
  {
    AtOffset(text, CLOSE, end, 0);
    if end >= start { AtOffset(text, BUILD, start, end - start); }
  }

  lemma BodyLineEnd(text: string, arr: nat, body: string, k: nat)
    requires Clean(body) && k < |body| && arr + |body| <= |text|
    requires forall k :: 0 <= k < |body| ==> text[arr + k] == body[k]
    ensures text[arr + k] == '\n' ==> arr + k > 0 && text[arr + k - 1] != '['
  {
    assert body[k] == text[arr + k];
    if body[k] == '\n' { assert k > 0 && text[arr + (k - 1)] == body[k - 1]; }
  }

  lemma BeginNotInBody(text: string, p: Place, body: string, begin: nat)
    requires p.Found? && p.arr <= p.end && OccursAt(text, CLOSE, p.end)
    requires Clean(body) && p.end == p.arr + |body| && text[p.arr..p.end] == body
    requires OccursAt(text, BEGIN, begin) && begin + |BEGIN| > p.arr
    ensures begin + |BEGIN| >= p.end + 2
  {
    assert forall k :: 0 <= k < |body| ==> text[p.arr + k] == text[p.arr..p.end][k];
    AtOffset(text, CLOSE, p.end, 0);
    BeginShape();
    AtOffset(text, BEGIN, begin, 11);
    AtOffset(text, BEGIN, begin, 10);
    var k := begin + 11 - p.arr;
    if 0 <= k < |body| { BodyLineEnd(text, p.arr, body, k); }
  }

  lemma SplicedSame(text: string, arr: nat, end: nat, body: string)
    requires arr <= end <= |text| && text[arr..end] == body
    ensures Spliced(text, arr, end, body) == text
  {
  }

  lemma SplicedAgain(text: string, arr: nat, end: nat, body: string, body': string)
    requires arr <= end <= |text|
    ensures var v := Spliced(text, arr, end, body);
      Spliced(v, arr, arr + |body|, body') == Spliced(text, arr, end, body')
  {
    var v := Spliced(text, arr, end, body);
    assert v[..arr] == text[..arr] && v[arr + |body|..] == text[end..];
  }

  // Behind the splice, searches find the same places, moved along.
  lemma FindShifted(text: string, arr: nat, end: nat, body: string, pat: string, k: nat)
    requires arr <= end <= |text| && k <= |text| - end
    ensures var r, r' := Find(text, pat, end + k), Find(Spliced(text, arr, end, body), pat, arr + |body| + k);
      r.At? == r'.At? && (r.At? ==> r'.pos - (arr + |body|) == r.pos - end)
  {
    var v := Spliced(text, arr, end, body);
    assert v[arr + |body|..] == text[end..];
    FindInSuffix(text, pat, end, k);
    FindInSuffix(v, pat, arr + |body|, k);
  }

  lemma LocatedBrackets(text: string, marker: string)
    requires Locate(text, marker).Found?
    ensures var q := Locate(text, marker); q.arr > 0 && text[q.arr - 1] == '\n' && text[q.end] == ']'
  {
    var q := Locate(text, marker);
    BeginShape();
    AtOffset(text, BEGIN, q.arr - 12, 11);
    AtOffset(text, CLOSE, q.end, 0);
  }

  lemma BehindKeepsBuild(text: string, p: Place, arr: nat, end: nat, body: string)
    requires p == Locate(text, BUILD) && p.Found? && p.end + 2 <= arr <= end <= |text|
    ensures Locate(Spliced(text, arr, end, body), BUILD) == p
  {
    var v := Spliced(text, arr, end, body);
    BuildIsHeader();
    HeaderBeforeArray(text, BUILD);
    hide BUILD;
    assert v[..arr] == text[..arr];
    FindInPrefix(text, v, BUILD, 0, p.start, arr);
    FindInPrefix(text, v, BEGIN, p.start, p.arr - |BEGIN|, arr);
    FindInPrefix(text, v, CLOSE, p.arr, p.end, arr);
  }

  lemma FirstHeaderMoves(text: string, m: string, start: nat, arr: nat, end: nat, body: string)
    requires Header(m) && Find(text, m, 0) == At(start) && Clean(body)
    requires 0 < arr <= end < start && text[arr - 1] == '\n' && text[end] == ']'
    ensures Find(Spliced(text, arr, end, body), m, 0) == At(arr + |body| + (start - end))
  {
    var v := Spliced(text, arr, end, body);
    FindShifted(text, arr, end, body, m, start - end);
    FoundHere(text, m, start);
    forall i: nat | i < arr + |body| + (start - end)
      ensures !OccursAt(v, m, i)
    {
      if OccursAt(v, m, i) { NoNewHeader(text, arr, end, body, m, i); }
    }
  }

  lemma FoundHere(text: string, pat: string, start: nat)
    requires OccursAt(text, pat, start)
    ensures Find(text, pat, start) == At(start)
  {
  }

  // A place behind `from`, after that position has moved to `to`.
  function Moved(q: Place, from: nat, to: nat): Place {
    if q.Missing? || !(from <= q.start <= q.arr <= q.end) then Missing
    else Found(to + (q.start - from), to + (q.arr - from), to + (q.end - from))
  }

  // Splicing a clean body in front of the first header of a section moves the
  // section's array and changes nothing else about it.
  lemma PlaceMoves(text: string, m: string, start: nat, arr: nat, end: nat, body: string)
    requires Header(m) && Find(text, m, 0) == At(start) && Clean(body)
    requires 0 < arr <= end < start && text[arr - 1] == '\n' && text[end] == ']'
    ensures var q := Locate(text, m);
      (q.Found? ==> end <= q.start <= q.arr <= q.end) &&
      Locate(Spliced(text, arr, end, body), m) == Moved(q, end, arr + |body|)
  {
    hide Header, Clean, Spliced, Find;
    var v, n := Spliced(text, arr, end, body), arr + |body|;
    FirstHeaderMoves(text, m, start, arr, end, body);
    FindShifted(text, arr, end, body, BEGIN, start - end);
    var a := Find(text, BEGIN, start);
    if a.At? { FindShifted(text, arr, end, body, CLOSE, a.pos + |BEGIN| - end); }
    SplicedLength(text, arr, end, body);
  }

  lemma SplicedLength(text: string, arr: nat, end: nat, body: string)
    requires arr <= end <= |text|
    ensures |Spliced(text, arr, end, body)| == arr + |body| + |text| - end
  {
  }

  // `p` is where the build array is, and it already holds `core`.
  predicate Holds(text: string, p: Place, core: string) {
    p == Locate(text, BUILD) && p.Found? && p.end == p.arr + |core| && text[p.arr..p.end] == core
  }

  lemma HeldIsRewritten(text: string, p: Place, core: string)
    requires Holds(text, p, core)
    ensures ReplaceArray(text, BUILD, core) == Text(text)
  {
    hide Locate, BUILD;
    SplicedSame(text, p.arr, p.end, core);
  }

  lemma BehindAgain(text: string, p: Place, arr: nat, end: nat, core: string, ares: string)
    requires Holds(text, p, core) && p.end + 2 <= arr <= end <= |text|
    ensures Holds(Spliced(text, arr, end, ares), p, core)
  {
    BehindKeepsBuild(text, p, arr, end, ares);
    hide Locate, BUILD;
    var u := Spliced(text, arr, end, ares);
    assert u[p.arr..p.end] == text[p.arr..p.end];
  }

  lemma InFrontAgain(text: string, p: Place, arr: nat, end: nat, core: string, ares: string)
    requires Holds(text, p, core) && Clean(ares)
    requires 0 < arr <= end < p.start && text[arr - 1] == '\n' && text[end] == ']'
    ensures Holds(Spliced(text, arr, end, ares), Moved(p, end, arr + |ares|), core)
  {
    BuildIsHeader();
    hide Locate, BUILD, Clean;
    LocatedFirst(text, BUILD);
    PlaceMoves(text, BUILD, p.start, arr, end, ares);
    SliceMoves(text, arr, end, ares, p.arr, p.end);
  }

  lemma SliceMoves(text: string, arr: nat, end: nat, body: string, i: nat, j: nat)
    requires arr <= end <= i <= j <= |text|
    ensures var u, n := Spliced(text, arr, end, body), arr + |body|;
      n + (j - end) <= |u| && u[n + (i - end)..n + (j - end)] == text[i..j]
  {
  }

  lemma LocatedFirst(text: string, marker: string)
    requires Locate(text, marker).Found?
    ensures Find(text, marker, 0) == At(Locate(text, marker).start)
  {
  }

  lemma SameAgain(text: string, p: Place, core: string, ares: string)
    requires Holds(text, p, core) && Clean(ares)
    ensures ReplaceArray(Spliced(text, p.arr, p.end, ares), BUILD, core) == Text(text)
  {
    BuildIsHeader();
    HeaderBeforeArray(text, BUILD);
    hide Locate, BUILD;
    LocateReplaced(text, BUILD, ares);
    SplicedAgain(text, p.arr, p.end, ares, core);
    SplicedSame(text, p.arr, p.end, core);
  }

  // After the rewrite, rewriting the build array again gives either the same
  // text or, when both sections share the array, the text between the steps.
  lemma BuildAgain(text: string, p: Place, q: Place, l: Layout, core: string, ares: string)
    requires Holds(text, p, core) && q == Locate(text, ARES) && q.Found? && Clean(ares)
    requires LaidOut(p, q, l) && l != OpenUpToBuild
    ensures ReplaceArray(Spliced(text, q.arr, q.end, ares), BUILD, core) ==
            Text(if l == Same then text else Spliced(text, q.arr, q.end, ares))
  {
    hide Locate, BUILD, ARES, Clean, ReplaceArray, Holds;
    LocatedBrackets(text, ARES);
    var u := Spliced(text, q.arr, q.end, ares);
    match l
    case Behind =>
      BehindAgain(text, p, q.arr, q.end, core, ares);
      HeldIsRewritten(u, p, core);
    case Same => SameAgain(text, p, core, ares);
    case InFront =>
      InFrontAgain(text, p, q.arr, q.end, core, ares);
      HeldIsRewritten(u, Moved(p, q.end, q.arr + |ares|), core);
  }

  // The same for the second array, which is always there again.
  lemma AresAgain(text: string, ares: string)
    requires Locate(text, ARES).Found? && Clean(ares)
    ensures var q := Locate(text, ARES);
      var u := Spliced(text, q.arr, q.end, ares);
      ReplaceArray(text, ARES, ares) == Text(u) && ReplaceArray(u, ARES, ares) == Text(u)
  {
    var q := Locate(text, ARES);
    AresIsHeader();
    HeaderBeforeArray(text, ARES);
    hide ARES, Locate;
    LocateReplaced(text, ARES, ares);
    SplicedAgain(text, q.arr, q.end, ares, ares);
  }

  lemma SecondStepIdempotent(text: string, p: Place, q: Place, core: string, ares: string)
    requires Holds(text, p, core) && q == Locate(text, ARES) && q.Found? && Clean(core) && Clean(ares)
    requires q.end != p.start + 7
    ensures var u := Spliced(text, q.arr, q.end, ares); Rewrite(u, core, ares) == Text(u)
  {
    hide Locate, BUILD, ARES, ReplaceArray, Clean;
    var l := Layouts(text, p, q, core);
    BuildAgain(text, p, q, l, core, ares);
    AresAgain(text, ares);
  }

  // The array of the second section is left open, and the bracket that ends
  // the search is that of the build header behind it.
  predicate LeftOpen(text: string) {
    var p, q := Locate(text, BUILD), Locate(text, ARES);
    p.Found? && q.Found? && q.end == p.start + 7
  }

  ghost predicate OneBuildHeader(text: string) {
    forall i: nat, j: nat {:trigger OccursAt(text, BUILD, i), OccursAt(text, BUILD, j)} ::
      OccursAt(text, BUILD, i) && OccursAt(text, BUILD, j) ==> i == j
  }

  // Writing the build array does not change whether the second one is left
  // open: both are decided in front of the build array.
  lemma LeftOpenKept(text: string, core: string)
    requires Locate(text, BUILD).Found? && Clean(core)
    ensures var p := Locate(text, BUILD);
      var u := Spliced(text, p.arr, p.end, core);
      Locate(u, BUILD) == Found(p.start, p.arr, p.arr + |core|) && u[p.arr..p.arr + |core|] == core &&
      (LeftOpen(text) <==> LeftOpen(u))
  {
    var p := Locate(text, BUILD);
    var u := Spliced(text, p.arr, p.end, core);
    BuildIsHeader();
    HeaderBeforeArray(text, BUILD);
    hide BUILD, ARES, Find;
    LocateReplaced(text, BUILD, core);
    assert u[..p.arr] == text[..p.arr];
    OpenCarriesOver(text, u, p.arr, p.start);
    OpenCarriesOver(u, text, p.arr, p.start);
  }

  lemma OpenCarriesOver(s: string, t: string, n: nat, start: nat)
    requires n <= |s| && n <= |t| && s[..n] == t[..n] && start + 9 <= n
    ensures Locate(s, ARES).Found? && Locate(s, ARES).end == start + 7 ==>
            Locate(t, ARES) == Locate(s, ARES)
  {
    AresIsHeader();
    hide ARES;
    var q := Locate(s, ARES);
    if q.Found? && q.end == start + 7 {
      HeaderBeforeArray(s, ARES);
      FindInPrefix(s, t, ARES, 0, q.start, n);
      FindInPrefix(s, t, BEGIN, q.start, q.arr - |BEGIN|, n);
      FindInPrefix(s, t, CLOSE, q.arr, q.end, n);
    }
  }

  // Rewriting twice is rewriting once, unless the second array was left open
  // up to the build header.
  lemma RewriteTwice(text: string, core: string, ares: string)
    requires Clean(core) && Clean(ares) && Rewrite(text, core, ares).Text? && !LeftOpen(text)
    ensures var u := Rewrite(text, core, ares).text; Rewrite(u, core, ares) == Text(u)
  {
    hide Locate, BUILD, ARES;
    var p := Locate(text, BUILD);
    LeftOpenKept(text, core);
    var u := Spliced(text, p.arr, p.end, core);
    SecondStepIdempotent(u, Locate(u, BUILD), Locate(u, ARES), core, ares);
  }

  // If it was, and the manifest has one build header, that header is gone
  // afterwards and the second rewrite fails.
  lemma LeftOpenBreaks(text: string, core: string, ares: string)
    requires Clean(core) && Clean(ares) && Rewrite(text, core, ares).Text? && LeftOpen(text) && OneBuildHeader(text)
    ensures Rewrite(Rewrite(text, core, ares).text, core, ares) == Error
  {
    hide Locate, BUILD, ARES;
    var p := Locate(text, BUILD);
    LeftOpenKept(text, core);
    var u := Spliced(text, p.arr, p.end, core);
    var q := Locate(u, ARES);
    OneBuildHeaderKept(text, core);
    var v := Spliced(u, q.arr, q.end, ares);
    HeaderLost(u, ares);
    NotLocated(v, BUILD);
  }

  lemma OneBuildHeaderKept(text: string, core: string)
    requires Clean(core) && Locate(text, BUILD).Found? && OneBuildHeader(text)
    ensures var p := Locate(text, BUILD); OneBuildHeader(Spliced(text, p.arr, p.end, core))
  {
    var p := Locate(text, BUILD);
    var u := Spliced(text, p.arr, p.end, core);
    BuildIsHeader();
    HeaderBeforeArray(text, BUILD);
    LocatedBrackets(text, BUILD);
    LocatedOccurs(text, BUILD);
    hide Locate, BUILD, Clean;
    forall i: nat | OccursAt(u, BUILD, i)
      ensures i == p.start
    {
      NoNewHeader(text, p.arr, p.end, core, BUILD, i);
    }
  }

  lemma HeaderLost(text: string, ares: string)
    requires LeftOpen(text) && OneBuildHeader(text) && Clean(ares)
    ensures var q := Locate(text, ARES); forall i: nat :: !OccursAt(Spliced(text, q.arr, q.end, ares), BUILD, i)
  {
    var p, q := Locate(text, BUILD), Locate(text, ARES);
    var v := Spliced(text, q.arr, q.end, ares);
    BuildIsHeader();
    LocatedBrackets(text, ARES);
    LocatedOccurs(text, BUILD);
    OpenStart(text);
    hide Locate, BUILD, ARES, Clean;
    forall i: nat ensures !OccursAt(v, BUILD, i) {
      if OccursAt(v, BUILD, i) { NoNewHeader(text, q.arr, q.end, ares, BUILD, i); }
    }
  }

  lemma OpenStart(text: string)
    requires LeftOpen(text)
    ensures Locate(text, ARES).arr <= Locate(text, BUILD).start + 1
  {
    var p, q := Locate(text, BUILD), Locate(text, ARES);
    BuildIsHeader();
    LocatedOccurs(text, BUILD);
    LocatedOccurs(text, ARES);
    BeginShape();
    hide BUILD, ARES;
    NoOverlap(text, BUILD, p.start, q.arr - |BEGIN|);
  }

  lemma NotLocated(text: string, marker: string)
    requires forall i: nat :: !OccursAt(text, marker, i)
    ensures Locate(text, marker) == Missing
  {
  }

  // For a manifest with one build header: exactly when the rewrite is
  // idempotent.
  lemma RewriteIdempotentIff(text: string, core: string, ares: string)
    requires Clean(core) && Clean(ares) && Rewrite(text, core, ares).Text? && OneBuildHeader(text)
    ensures var u := Rewrite(text, core, ares).text; Rewrite(u, core, ares) == Text(u) <==> !LeftOpen(text)
  {
    if LeftOpen(text) {
      LeftOpenBreaks(text, core, ares);
    } else {
      RewriteTwice(text, core, ares);
    }
  }

  // When the build array closes in front of the second section, the rewrite
  // changes the two array bodies and nothing else.
  lemma OnlyBodiesChange(text: string, core: string, ares: string)
    requires Clean(core) && Clean(ares) && Locate(text, BUILD).Found?
    requires Find(text, ARES, 0).At? && Locate(text, BUILD).end < Find(text, ARES, 0).pos
    requires Rewrite(text, core, ares).Text?
    ensures var p, q := Locate(text, BUILD), Locate(text, ARES);
      q.Found? && p.end <= q.arr &&
      Rewrite(text, core, ares).text == text[..p.arr] + core + text[p.end..q.arr] + ares + text[q.end..]
  {
    AresIsHeader();
    hide BUILD, ARES, Locate;
    var p, q := Locate(text, BUILD), Locate(text, ARES);
    LocatedBrackets(text, BUILD);
    PlaceMoves(text, ARES, Find(text, ARES, 0).pos, p.arr, p.end, core);
    RewrittenText(text, core, ares);
    hide Clean, Rewrite, Spliced;
    SplicedTwice(text, p.arr, p.end, core, q.arr, q.end, ares);
  }

  lemma RewrittenText(text: string, core: string, ares: string)
    requires Rewrite(text, core, ares).Text?
    ensures Locate(text, BUILD).Found?
    ensures var p := Locate(text, BUILD);
      var u := Spliced(text, p.arr, p.end, core);
      var q := Locate(u, ARES);
      q.Found? && Rewrite(text, core, ares).text == Spliced(u, q.arr, q.end, ares)
  {
    hide Locate, BUILD, ARES, Spliced;
  }

  lemma SplicedTwice(text: string, arr: nat, end: nat, body: string, arr': nat, end': nat, body': string)
    requires arr <= end <= arr' <= end' <= |text|
    ensures var u, n := Spliced(text, arr, end, body), arr + |body|;
      n + (end' - end) <= |u| &&
      Spliced(u, n + (arr' - end), n + (end' - end), body') ==
        text[..arr] + body + text[end..arr'] + body' + text[end'..]
  {
    var u, n := Spliced(text, arr, end, body), arr + |body|;
    assert u[..n + (arr' - end)] == text[..arr] + body + text[end..arr'];
    assert u[n + (end' - end)..] == text[end'..];
  }
}
