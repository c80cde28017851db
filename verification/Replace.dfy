// Substring replacement and suffix stripping: StringReplace, StripSuffix,
// and StripProto of generator_helpers.h; ReplaceAll and ReplacePrefix of
// ruby_generator_string-inl.h.
module Replace {

  predicate OccursAt(s: string, pat: string, i: nat) {
    i + |pat| <= |s| && s[i..i + |pat|] == pat
  }

  datatype Position = Npos | At(pos: nat)

  // std::string::find(pat, from)
  function Find(s: string, pat: string, from: nat): (r: Position)
    ensures r.At? ==> from <= r.pos && OccursAt(s, pat, r.pos)
    ensures forall i :: from <= i && (r.At? ==> i < r.pos) ==> !OccursAt(s, pat, i)
    decreases |s| - from
  {
    if from + |pat| > |s| then Npos
    else if OccursAt(s, pat, from) then At(from)
    else Find(s, pat, from + 1)
  }

  function Intersperse(parts: seq<string>, to: string): string {
    if parts == [] then ""
    else if |parts| == 1 then parts[0]
    else parts[0] + to + Intersperse(parts[1..], to)
  }

  // The leftmost non-overlapping split of `s` on `from`.
  function SplitOn(s: string, from: string): (parts: seq<string>)
    requires from != ""
    ensures |parts| > 0
    decreases |s|
  {
    var r := Find(s, from, 0);
    if r.Npos? then [s] else [s[..r.pos]] + SplitOn(s[r.pos + |from|..], from)
  }

  // What makes a split the leftmost one: `from` does not occur in the last
  // part, and after every other part its first occurrence is the next one.
  predicate Leftmost(parts: seq<string>, from: string) {
    && |parts| > 0
    && Find(parts[|parts| - 1], from, 0).Npos?
    && forall i :: 0 <= i < |parts| - 1 ==> Find(parts[i] + from, from, 0) == At(|parts[i]|)
  }

  lemma FindAgrees(s: string, t: string, pat: string, n: nat)
    requires n <= |s| && n <= |t| && s[..n] == t[..n]
    ensures forall i: nat {:trigger OccursAt(s, pat, i)} {:trigger OccursAt(t, pat, i)} ::
      i + |pat| <= n ==> (OccursAt(s, pat, i) <==> OccursAt(t, pat, i))
  {
    forall i: nat | i + |pat| <= n
      ensures OccursAt(s, pat, i) <==> OccursAt(t, pat, i)
    {
      assert s[i..i + |pat|] == s[..n][i..i + |pat|];
      assert t[i..i + |pat|] == t[..n][i..i + |pat|];
    }
  }

  // The first occurrence is found the same in any string that goes on
  // differently after it.
  lemma FindFirst(s: string, t: string, pat: string, p: nat)
    requires pat != "" && p + |pat| <= |s| && p + |pat| <= |t| && s[..p + |pat|] == t[..p + |pat|]
    ensures Find(s, pat, 0) == At(p) <==> Find(t, pat, 0) == At(p)
  {
    FindAgrees(s, t, pat, p + |pat|);
  }

  lemma {:induction false} SplitIsLeftmost(s: string, from: string)
    requires from != ""
    ensures Leftmost(SplitOn(s, from), from)
    ensures Intersperse(SplitOn(s, from), from) == s
    decreases |s|
  {
    var r := Find(s, from, 0);
    if r.At? {
      var head, tail := s[..r.pos], s[r.pos + |from|..];
      SplitIsLeftmost(tail, from);
      var rest := SplitOn(tail, from);
      var parts := [head] + rest;
      assert parts[1..] == rest;
      assert s == head + from + tail;
      FindFirst(s, head + from, from, r.pos);
      assert forall i :: 1 <= i < |parts| ==> parts[i] == rest[i - 1];
    }
  }

  // The first part of a leftmost split ends where the first occurrence starts.
  lemma LeftmostHead(parts: seq<string>, from: string)
    requires from != "" && Leftmost(parts, from) && |parts| > 1
    ensures Leftmost(parts[1..], from)
    ensures var s, p := Intersperse(parts, from), |parts[0]|;
      Find(s, from, 0) == At(p) && p + |from| <= |s| && s[..p] == parts[0] &&
      s[p + |from|..] == Intersperse(parts[1..], from)
  {
    hide Find;
    var tail, p := parts[1..], |parts[0]|;
    var s, rest := Intersperse(parts, from), Intersperse(tail, from);
    assert forall i :: 0 <= i < |tail| ==> tail[i] == parts[i + 1];
    assert s == parts[0] + from + rest;
    assert s[..p + |from|] == (parts[0] + from)[..p + |from|];
    FindFirst(s, parts[0] + from, from, p);
  }

  // The two properties determine the split.
  lemma {:induction false} LeftmostIsUnique(parts: seq<string>, from: string)
    requires from != "" && Leftmost(parts, from)
    ensures SplitOn(Intersperse(parts, from), from) == parts
  {
    hide Find, Leftmost, Intersperse;
    if |parts| > 1 {
      LeftmostHead(parts, from);
      LeftmostIsUnique(parts[1..], from);
      assert parts == [parts[0]] + parts[1..];
    } else {
      OnePart(parts, from);
    }
  }

  lemma OnePart(parts: seq<string>, from: string)
    requires from != "" && Leftmost(parts, from) && |parts| <= 1
    ensures SplitOn(Intersperse(parts, from), from) == parts
  {
  }

  function Replaced(s: string, from: string, to: string): string
    requires from != ""
  {
    Intersperse(SplitOn(s, from), to)
  }

  lemma ReplacedStep(s: string, from: string, to: string)
    requires from != ""
    ensures var r := Find(s, from, 0);
      Replaced(s, from, to) == if r.Npos? then s else s[..r.pos] + to + Replaced(s[r.pos + |from|..], from, to)
  {
    var r := Find(s, from, 0);
    if r.At? {
      var rest := SplitOn(s[r.pos + |from|..], from);
      assert ([s[..r.pos]] + rest)[1..] == rest;
    }
  }

  // An occurrence at or after `pos` is one in the part from `pos` on.
  lemma {:induction false} FindInSuffix(s: string, pat: string, pos: nat, k: nat)
    requires pos <= |s| && k <= |s| - pos
    ensures var r, q := Find(s, pat, pos + k), Find(s[pos..], pat, k);
      r.At? == q.At? && (r.At? ==> r.pos == pos + q.pos)
    decreases |s| - pos - k
  {
    var t := s[pos..];
    if pos + k + |pat| <= |s| {
      assert t[k..k + |pat|] == s[pos + k..pos + k + |pat|];
      if !OccursAt(s, pat, pos + k) && k < |s| - pos {
        FindInSuffix(s, pat, pos, k + 1);
      }
    }
  }

  // One round of the replacement loops, which edit `s` in place and go on
  // after the inserted text: what is done plus what is still to be replaced
  // does not change.
  lemma ReplacedAt(s: string, from: string, to: string, pos: nat, found: nat)
    requires from != "" && pos <= |s| && Find(s, from, pos) == At(found)
    ensures var s' := s[..found] + to + s[found + |from|..];
      var pos' := found + |to|;
      pos' <= |s'| && |s'| - pos' < |s| - pos &&
      s'[..pos'] + Replaced(s'[pos'..], from, to) == s[..pos] + Replaced(s[pos..], from, to)
  {
    hide Replaced, Find;
    FindInSuffix(s, from, pos, 0);
    ReplacedStep(s[pos..], from, to);
    var before, rest := s[pos..found], s[found + |from|..];
    assert s[pos..][..found - pos] == before && s[pos..][found - pos + |from|..] == rest;
    var s' := s[..found] + to + rest;
    assert s'[found + |to|..] == rest;
    assert s'[..found + |to|] == s[..pos] + (before + to);
    var r := Replaced(rest, from, to);
    assert (s[..pos] + (before + to)) + r == s[..pos] + (before + to + r);
  }

  lemma ReplacedNone(s: string, from: string, to: string, pos: nat)
    requires from != "" && pos <= |s| && Find(s, from, pos) == Npos
    ensures s == s[..pos] + Replaced(s[pos..], from, to)
  {
    FindInSuffix(s, from, pos, 0);
    ReplacedStep(s[pos..], from, to);
  }

  // StringReplace(str, from, to, replace_all). With an empty `from` and
  // replace_all the loop would not end, so that is the one case excluded.
  method StringReplace(original: string, from: string, to: string, replaceAll: bool) returns (str: string)
    requires replaceAll ==> from != ""
    ensures replaceAll ==> str == Replaced(original, from, to)
    ensures !replaceAll ==> str == ReplacedOnce(original, from, to)
  {
    hide Replaced;
    str := original;
    var pos: nat := 0;
    assert original[0..] == original;
    while true
      invariant pos <= |str|
      invariant replaceAll ==> str[..pos] + Replaced(str[pos..], from, to) == Replaced(original, from, to)
      invariant !replaceAll ==> pos == 0 && str == original
      decreases |str| - pos
    {
      var found := Find(str, from, pos);
      if found == Npos {
        if replaceAll { ReplacedNone(str, from, to, pos); }
        break;
      }
      if replaceAll { ReplacedAt(str, from, to, pos, found.pos); }
      pos := found.pos;
      str := str[..pos] + to + str[pos + |from|..];
      pos := pos + |to|;
      if !replaceAll { break; }
    }
  }

  // The first occurrence only.
  function ReplacedOnce(s: string, from: string, to: string): string {
    var r := Find(s, from, 0);
    if r.Npos? then s else s[..r.pos] + to + s[r.pos + |from|..]
  }

  // ReplaceAll of ruby_generator_string-inl.h
  method ReplaceAll(original: string, search: string, replacement: string) returns (s: string)
    requires search != ""
    ensures s == Replaced(original, search, replacement)
  {
    hide Replaced;
    s := original;
    var pos: nat := 0;
    assert original[0..] == original;
    var found := Find(s, search, pos);
    while found.At?
      invariant pos <= |s| && found == Find(s, search, pos)
      invariant s[..pos] + Replaced(s[pos..], search, replacement) == Replaced(original, search, replacement)
      decreases |s| - pos
    {
      ReplacedAt(s, search, replacement, pos, found.pos);
      pos := found.pos;
      s := s[..pos] + replacement + s[pos + |search|..];
      pos := pos + |replacement|;
      found := Find(s, search, pos);
    }
    ReplacedNone(s, search, replacement, pos);
  }

  // ReplacePrefix of ruby_generator_string-inl.h: it searches the whole
  // string, but replaces exactly when `from` is a prefix.
  function ReplacePrefix(s: string, from: string, to: string): (r: (bool, string))
    ensures r.0 <==> from <= s
    ensures r.1 == if from <= s then to + s[|from|..] else s
  {
    var p := Find(s, from, 0);
    if p.Npos? || p.pos != 0 then
      assert !OccursAt(s, from, 0);
      (false, s)
    else
      assert s[..|from|] == from && s[..0] + to + s[|from|..] == to + s[|from|..];
      (true, s[..p.pos] + to + s[p.pos + |from|..])
  }

  function Lower(c: char): char { if 'A' <= c <= 'Z' then c - 'A' + 'a' else c }

  function ToLower(s: string): (r: string)
    ensures |r| == |s|
  {
    seq(|s|, i requires 0 <= i < |s| => Lower(s[i]))
  }

  predicate EndsIn(s: string, suffix: string) {
    |suffix| <= |s| && ToLower(s[|s| - |suffix|..]) == ToLower(suffix)
  }

  // StripSuffix(filename, suffix), on an in-out string
  method StripSuffix(filename: string, suffix: string) returns (stripped: bool, result: string)
    ensures stripped <==> EndsIn(filename, suffix)
    ensures result == if stripped then filename[..|filename| - |suffix|] else filename
  {
    result := filename;
    if |result| >= |suffix| {
      var suffixPos := |result| - |suffix|;
      var filenameSuffix := result[suffixPos..];
      if ToLower(filenameSuffix) == ToLower(suffix) {
        return true, result[..|result| - |suffix|];
      }
    }
    return false, result;
  }

  function Stripped(filename: string): string {
    if EndsIn(filename, ".protodevel") then filename[..|filename| - 11]
    else if EndsIn(filename, ".proto") then filename[..|filename| - 6]
    else filename
  }

  method StripProto(filename: string) returns (result: string)
    ensures result == Stripped(filename)
  {
    var stripped;
    stripped, result := StripSuffix(filename, ".protodevel");
    if !stripped {
      stripped, result := StripSuffix(result, ".proto");
    }
  }

  // A text reads like a word of small letters, in letters of either case.
  predicate Reads(t: string, word: string) {
    |t| == |word| &&
    forall i :: 0 <= i < |t| ==> t[i] == word[i] || ('a' <= word[i] <= 'z' && t[i] as int == word[i] as int - 32)
  }

  predicate NoCapitals(word: string) { forall i :: 0 <= i < |word| ==> !('A' <= word[i] <= 'Z') }

  lemma LowerIff(t: string, word: string)
    requires NoCapitals(word)
    ensures ToLower(t) == ToLower(word) <==> Reads(t, word)
  {
    if Reads(t, word) {
      forall i | 0 <= i < |t| ensures Lower(t[i]) == Lower(word[i]) { LetterIff(t[i], word[i]); }
    }
    if ToLower(t) == ToLower(word) {
      forall i | 0 <= i < |t|
        ensures t[i] == word[i] || ('a' <= word[i] <= 'z' && t[i] as int == word[i] as int - 32)
      {
        assert ToLower(t)[i] == ToLower(word)[i];
        LetterIff(t[i], word[i]);
      }
    }
  }

  lemma LetterIff(c: char, w: char)
    requires !('A' <= w <= 'Z')
    ensures Lower(c) == Lower(w) <==> c == w || ('a' <= w <= 'z' && c as int == w as int - 32)
  {
  }

  // What a file name is stripped of: .protodevel or else .proto, in letters of
  // either case, and nothing else.
  lemma StrippedIs(s: string)
    ensures Stripped(s) ==
            if |s| >= 11 && Reads(s[|s| - 11..], ".protodevel") then s[..|s| - 11]
            else if |s| >= 6 && Reads(s[|s| - 6..], ".proto") then s[..|s| - 6]
            else s
  {
    assert |".protodevel"| == 11 && |".proto"| == 6;
    assert NoCapitals(".protodevel") && NoCapitals(".proto");
    if |s| >= 11 { LowerIff(s[|s| - 11..], ".protodevel"); }
    if |s| >= 6 { LowerIff(s[|s| - 6..], ".proto"); }
  }
}
