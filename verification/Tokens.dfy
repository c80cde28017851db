// Splitting and joining: tokenize of generator_helpers.h, the getline loops of
// generator_helpers.h and ruby_generator_string-inl.h, and the Python Split.
module Tokens {

  // std::string::find_first_of: the first position at or after the start of
  // `s` holding one of the delimiters, or |s|.
  function FirstOf(s: string, delims: string): (p: nat)
    ensures p <= |s|
    ensures forall i :: 0 <= i < p ==> s[i] !in delims
    ensures p < |s| ==> s[p] in delims
  {
    if s == [] || s[0] in delims then 0 else 1 + FirstOf(s[1..], delims)
  }

  // The pieces between delimiters, one more than there are delimiters.
  function Pieces(s: string, delims: string): (r: seq<string>)
    ensures |r| > 0
    decreases |s|
  {
    var p := FirstOf(s, delims);
    if p == |s| then [s] else [s[..p]] + Pieces(s[p + 1..], delims)
  }

  function Join(parts: seq<string>, sep: string): string {
    if parts == [] then ""
    else if |parts| == 1 then parts[0]
    else parts[0] + sep + Join(parts[1..], sep)
  }

  predicate FreeOf(s: string, delims: string) { forall c :: c in s ==> c !in delims }

  predicate AllFreeOf(parts: seq<string>, delims: string) { forall t :: t in parts ==> FreeOf(t, delims) }

  lemma FirstOfAt(s: string, t: string, delims: string)
    requires FreeOf(s, delims)
    ensures FirstOf(s, delims) == |s|
    ensures |t| > 0 && t[0] in delims ==> FirstOf(s + t, delims) == |s|
  {
    var u := s + t;
    assert forall i :: 0 <= i < |s| ==> u[i] == s[i] && s[i] in s;
    assert |t| > 0 ==> u[|s|] == t[0];
  }

  lemma {:induction false} PiecesAreFree(s: string, delims: string)
    ensures AllFreeOf(Pieces(s, delims), delims)
    decreases |s|
  {
    var p := FirstOf(s, delims);
    if p < |s| {
      PiecesAreFree(s[p + 1..], delims);
    }
  }

  // Joining what a one-character tokenize returned gives the input back.
  lemma {:induction false} JoinPieces(s: string, c: char)
    ensures Join(Pieces(s, [c]), [c]) == s
    decreases |s|
  {
    var p := FirstOf(s, [c]);
    if p < |s| {
      JoinPieces(s[p + 1..], c);
      var rest := Pieces(s[p + 1..], [c]);
      assert ([s[..p]] + rest)[1..] == rest;
      assert s == s[..p] + [s[p]] + s[p + 1..];
    }
  }

  // Tokenizing a join of delimiter-free tokens gives the tokens back.
  lemma {:induction false} PiecesJoin(parts: seq<string>, c: char)
    requires |parts| > 0 && AllFreeOf(parts, [c])
    ensures Pieces(Join(parts, [c]), [c]) == parts
  {
    assert parts[0] in parts;
    if |parts| == 1 {
      FirstOfAt(parts[0], "", [c]);
    } else {
      var tail := parts[1..];
      var t := [c] + Join(tail, [c]);
      assert Join(parts, [c]) == parts[0] + t;
      FirstOfAt(parts[0], t, [c]);
      assert (parts[0] + t)[..|parts[0]|] == parts[0];
      assert (parts[0] + t)[|parts[0]| + 1..] == Join(tail, [c]);
      forall u | u in tail ensures FreeOf(u, [c]) { assert u in parts; }
      PiecesJoin(tail, c);
    }
  }

  // One step of either splitting, taken at a position of the whole string.
  lemma PiecesFrom(s: string, delims: string, pos: nat, next: nat)
    requires pos <= |s| && next == pos + FirstOf(s[pos..], delims)
    ensures Pieces(s[pos..], delims) ==
      if next == |s| then [s[pos..next]] else [s[pos..next]] + Pieces(s[next + 1..], delims)
  {
    var rest := s[pos..];
    if next == |s| {
      assert s[pos..next] == rest;
    } else {
      assert rest[..next - pos] == s[pos..next];
      assert rest[next - pos + 1..] == s[next + 1..];
    }
  }

  // tokenize(input, delimiters)
  method Tokenize(input: string, delims: string) returns (tokens: seq<string>)
    ensures tokens == Pieces(input, delims)
  {
    hide Pieces;
    tokens := [];
    var lastPos := 0;
    assert input[0..] == input;
    while true
      invariant lastPos <= |input|
      invariant tokens + Pieces(input[lastPos..], delims) == Pieces(input, delims)
      decreases |input| - lastPos
    {
      var pos := lastPos + FirstOf(input[lastPos..], delims);
      PiecesFrom(input, delims, lastPos, pos);
      var done := pos == |input|;
      if !done { Taken(tokens, input[lastPos..pos], Pieces(input[pos + 1..], delims)); }
      tokens := tokens + [input[lastPos..pos]];
      if done {
        return;
      }
      lastPos := pos + 1;
    }
  }

  // What the getline loops and the Python Split produce from a position on: a
  // piece is read only while input remains, so a final delimiter ends the last
  // piece instead of starting an empty one.
  function Lines(s: string, c: char): seq<string>
    decreases |s|
  {
    if s == [] then []
    else
      var p := FirstOf(s, [c]);
      if p == |s| then [s] else [s[..p]] + Lines(s[p + 1..], c)
  }

  // Exactly what Lines drops from Pieces: one empty token, when the input is
  // empty or ends in the delimiter.
  lemma {:induction false} LinesDropTrailingEmpty(s: string, c: char)
    ensures s == [] || s[|s| - 1] == c ==> Pieces(s, [c]) == Lines(s, c) + [""]
    ensures s != [] && s[|s| - 1] != c ==> Pieces(s, [c]) == Lines(s, c)
    decreases |s|
  {
    if s != [] {
      var p := FirstOf(s, [c]);
      if p < |s| {
        var rest := s[p + 1..];
        LinesDropTrailingEmpty(rest, c);
        if rest != [] { assert rest[|rest| - 1] == s[|s| - 1]; }
      } else {
        assert s[|s| - 1] in s;
      }
    }
  }

  lemma LinesFrom(s: string, c: char, pos: nat, next: nat)
    requires pos < |s| && next == pos + FirstOf(s[pos..], [c])
    ensures Lines(s[pos..], c) ==
      if next == |s| then [s[pos..next]] else [s[pos..next]] + Lines(s[next + 1..], c)
  {
    var rest := s[pos..];
    if next == |s| {
      assert s[pos..next] == rest;
    } else {
      assert rest[..next - pos] == s[pos..next];
      assert rest[next - pos + 1..] == s[next + 1..];
    }
  }

  lemma LinesEmpty(c: char)
    ensures Lines("", c) == []
  {
  }

  // Adding a piece to the result while the rest of the input shrinks by it.
  lemma Taken(elems: seq<string>, piece: string, rest: seq<string>)
    ensures elems + ([piece] + rest) == (elems + [piece]) + rest
  {
  }

  // std::getline(stream, item, delim) called until it fails.
  method GetlineSplit(s: string, c: char) returns (elems: seq<string>)
    ensures elems == Lines(s, c)
  {
    elems := [];
    var pos := 0;
    assert s[0..] == s;
    while pos < |s|
      invariant pos <= |s|
      invariant elems + Lines(s[pos..], c) == Lines(s, c)
    {
      hide Lines;
      var end := pos + FirstOf(s[pos..], [c]);
      LinesFrom(s, c, pos, end);
      LinesEmpty(c);
      Taken(elems, s[pos..end], if end < |s| then Lines(s[end + 1..], c) else []);
      elems := elems + [s[pos..end]];
      pos := if end < |s| then end + 1 else end;
    }
  }

  // Split of python_generator_helpers.h: the empty string gives one empty
  // element, everything else what the getline loop gives.
  method PythonSplit(s: string, delim: char) returns (elems: seq<string>)
    ensures elems == if s == [] then [""] else Lines(s, delim)
  {
    elems := [];
    if s == [] {
      elems := elems + [""];
    } else {
      var current := 0;
      assert s[0..] == s;
      while current < |s|
        invariant current <= |s|
        invariant elems + Lines(s[current..], delim) == Lines(s, delim)
      {
        hide Lines;
        var next := current + FirstOf(s[current..], [delim]);
        LinesFrom(s, delim, current, next);
        LinesEmpty(delim);
        Taken(elems, s[current..next], if next < |s| then Lines(s[next + 1..], delim) else []);
        elems := elems + [s[current..next]];
        current := next;
        if current != |s| {
          current := current + 1;
        }
      }
    }
  }

  // The three splits against each other. `LinesDropTrailingEmpty` ties the
  // getline loop to tokenize; the Python form differs from it on "" only.
  lemma SplitsCompared(s: string, c: char)
    ensures (if s == [] then [""] else Lines(s, c)) == Lines(s, c) <==> s != []
    ensures Pieces(s, [c]) == Lines(s, c) <==> s != [] && s[|s| - 1] != c
  {
    LinesDropTrailingEmpty(s, c);
  }
}
