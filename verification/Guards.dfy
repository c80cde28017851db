// FilenameIdentifier, and the include guards built from it.
module Guards {

  // File names are byte strings: every char stands for one byte.
  predicate Bytes(s: string) { forall c :: c in s ==> c as int < 256 }

  predicate Alnum(c: char) { '0' <= c <= '9' || 'a' <= c <= 'z' || 'A' <= c <= 'Z' }

  function Hex(n: nat): char
    requires n < 16
  {
    "0123456789abcdef"[n]
  }

  function Nibble(c: char): nat {
    if '0' <= c <= '9' then (c - '0') as int
    else if 'a' <= c <= 'f' then 10 + (c - 'a') as int
    else 0
  }

  // One byte of the name: itself, or an underscore and two hex digits.
  function Code(c: char): string { if Alnum(c) then [c] else "_" + Digits(c) }

  // hex[(c >> 4) & 0xf] and hex[c & 0xf]
  function Digits(c: char): string { [Hex(c as int / 16 % 16), Hex(c as int % 16)] }

  function Identifier(s: string): string {
    if s == "" then "" else Code(s[0]) + Identifier(s[1..])
  }

  lemma {:induction false} IdentifierSnoc(s: string, c: char)
    ensures Identifier(s + [c]) == Identifier(s) + Code(c)
  {
    if s == "" {
      assert [c][1..] == "";
    } else {
      assert (s + [c])[1..] == s[1..] + [c];
      IdentifierSnoc(s[1..], c);
    }
  }

  // FilenameIdentifier
  method FilenameIdentifier(filename: string) returns (result: string)
    ensures result == Identifier(filename)
  {
    result := "";
    for i := 0 to |filename|
      invariant result == Identifier(filename[..i])
    {
      var c := filename[i];
      assert filename[..i + 1] == filename[..i] + [c];
      IdentifierSnoc(filename[..i], c);
      if Alnum(c) {
        result := result + [c];
      } else {
        result := result + ['_'];
        result := result + [Hex(c as int / 16 % 16)];
        result := result + [Hex(c as int % 16)];
      }
    }
    assert filename[..|filename|] == filename;
  }

  // Reads an identifier back.
  function Decoded(t: string): string {
    if t == "" then ""
    else if t[0] != '_' then [t[0]] + Decoded(t[1..])
    else if |t| < 3 then ""
    else [(16 * Nibble(t[1]) + Nibble(t[2])) as char] + Decoded(t[3..])
  }

  lemma HexNibble(n: nat)
    requires n < 16
    ensures Nibble(Hex(n)) == n && Alnum(Hex(n))
  {
  }

  lemma DigitsSpellByte(c: char)
    requires c as int < 256
    ensures 16 * Nibble(Digits(c)[0]) + Nibble(Digits(c)[1]) == c as int
  {
    HexNibble(c as int / 16 % 16);
    HexNibble(c as int % 16);
  }

  lemma {:induction false} DecodedIdentifier(s: string)
    requires Bytes(s)
    ensures Decoded(Identifier(s)) == s
  {
    hide Nibble, Digits, Alnum;
    if s != "" {
      var c, rest := s[0], Identifier(s[1..]);
      assert c in s;
      assert forall x :: x in s[1..] ==> x in s;
      DecodedIdentifier(s[1..]);
      assert s == [c] + s[1..];
      var t := Identifier(s);
      if Alnum(c) {
        assert t[1..] == rest;
        AlnumIsNoUnderscore(c);
      } else {
        DigitsSpellByte(c);
        DigitsLength(c);
        assert t[1] == Digits(c)[0] && t[2] == Digits(c)[1] && t[3..] == rest;
      }
    }
  }

  lemma AlnumIsNoUnderscore(c: char)
    ensures Alnum(c) ==> c != '_'
  {
  }

  lemma DigitsLength(c: char)
    ensures |Digits(c)| == 2
  {
  }

  // A name of letters and digits is its own identifier, and no other is.
  lemma {:induction false} OwnIdentifierIff(s: string)
    ensures Identifier(s) == s <==>
            forall c :: c in s ==> '0' <= c <= '9' || 'a' <= c <= 'z' || 'A' <= c <= 'Z'
  {
    if s != "" {
      OwnIdentifierIff(s[1..]);
      IdentifierShape(s[1..]);
      assert s == [s[0]] + s[1..];
      assert forall c :: c in s <==> c == s[0] || c in s[1..];
      if Alnum(s[0]) {
        var rest := Identifier(s[1..]);
        assert Identifier(s) == [s[0]] + rest;
        assert ([s[0]] + rest)[1..] == rest;
      } else {
        DigitsLength(s[0]);
        assert s[0] in s && |Identifier(s)| > |s|;
      }
    }
  }

  // Only letters, digits and underscores; between n and 3n characters.
  lemma {:induction false} IdentifierShape(s: string)
    ensures forall c :: c in Identifier(s) ==>
      '0' <= c <= '9' || 'a' <= c <= 'z' || 'A' <= c <= 'Z' || c == '_'
    ensures |s| <= |Identifier(s)| <= 3 * |s|
  {
    if s != "" {
      IdentifierShape(s[1..]);
      if !Alnum(s[0]) {
        HexNibble(s[0] as int / 16 % 16);
        HexNibble(s[0] as int % 16);
      }
    }
  }

  function HeaderGuard(filename: string): string { "GRPC_" + Identifier(filename) + "__INCLUDED" }

  function MockGuard(filename: string): string { "GRPC_MOCK_" + Identifier(filename) + "__INCLUDED" }

  lemma Cancel(a: string, x: string, y: string, b: string)
    ensures a + x + b == a + y + b <==> x == y
  {
    if a + x + b == a + y + b {
      assert |x| == |y|;
      assert x == (a + x + b)[|a|..|a| + |x|];
      assert y == (a + y + b)[|a|..|a| + |x|];
    }
  }

  // Distinct .proto files get distinct guards, in either family.
  lemma GuardsAreInjective(f: string, g: string)
    requires Bytes(f) && Bytes(g)
    ensures HeaderGuard(f) == HeaderGuard(g) <==> f == g
    ensures MockGuard(f) == MockGuard(g) <==> f == g
  {
    DecodedIdentifier(f);
    DecodedIdentifier(g);
    Cancel("GRPC_", Identifier(f), Identifier(g), "__INCLUDED");
    Cancel("GRPC_MOCK_", Identifier(f), Identifier(g), "__INCLUDED");
  }

  // The two families do meet. A header's guard is the guard of another file's
  // mock exactly when the header's file is named MOCK, a byte that is escaped,
  // and a rest, and the mock's file is that byte's two hex digits and the rest.
  predicate GuardClash(header: string, mock: string) {
    |header| >= 5 && header[..4] == "MOCK" && !Alnum(header[4]) && mock == Digits(header[4]) + header[5..]
  }

  lemma GuardFamiliesClash(header: string, mock: string)
    requires Bytes(header) && Bytes(mock)
    ensures HeaderGuard(header) == MockGuard(mock) <==> GuardClash(header, mock)
  {
    var id := "MOCK_" + Identifier(mock);
    assert MockGuard(mock) == "GRPC_" + id + "__INCLUDED" by {
      assert "GRPC_MOCK_" == "GRPC_" + "MOCK_";
      assert ("GRPC_" + "MOCK_") + Identifier(mock) == "GRPC_" + ("MOCK_" + Identifier(mock));
    }
    Cancel("GRPC_", Identifier(header), id, "__INCLUDED");
    MockIdentifier(header, mock);
  }

  // For instance: the header of MOCK_abc.proto and the mock of 5fabc.proto.
  lemma HeaderAndMockShareGuard()
    ensures HeaderGuard("MOCK_abc.proto") == MockGuard("5fabc.proto")
  {
    hide HeaderGuard, MockGuard, GuardClash, Bytes;
    ExampleNames("MOCK_abc.proto", "5fabc.proto");
    GuardFamiliesClash("MOCK_abc.proto", "5fabc.proto");
  }

  lemma ExampleNames(header: string, mock: string)
    requires header == "MOCK_abc.proto" && mock == "5fabc.proto"
    ensures Bytes(header) && Bytes(mock) && GuardClash(header, mock)
  {
    hide Identifier;
    assert header[4] == '_' && header[5..] == "abc.proto" && Digits('_') == "5f";
    assert mock == "5f" + "abc.proto";
  }

  lemma IdentifierCons(s: string)
    requires s != ""
    ensures Identifier(s)[0] == (if Alnum(s[0]) then s[0] else '_')
    ensures Identifier(s)[1..] == (if Alnum(s[0]) then "" else Digits(s[0])) + Identifier(s[1..])
  {
  }

  // An identifier that begins with a letter or digit spells that character.
  lemma Peel(s: string, x: char, t: string)
    requires Identifier(s) == [x] + t && x != '_'
    ensures s != "" && s[0] == x && Identifier(s[1..]) == t
  {
    assert ([x] + t)[0] == x && ([x] + t)[1..] == t;
    IdentifierCons(s);
  }

  lemma PeelEscaped(s: string, t: string)
    requires Identifier(s) == ['_'] + t
    ensures s != "" && !Alnum(s[0]) && t == Digits(s[0]) + Identifier(s[1..])
  {
    assert (['_'] + t)[0] == '_' && (['_'] + t)[1..] == t;
    IdentifierCons(s);
  }

  lemma MockSpelled(t: string)
    ensures "MOCK_" + t == ['M'] + (['O'] + (['C'] + (['K'] + (['_'] + t))))
  {
  }

  lemma PeelMock(header: string, t: string)
    requires Identifier(header) == "MOCK_" + t
    ensures |header| >= 5 && header[..4] == "MOCK" && !Alnum(header[4]) &&
            t == Digits(header[4]) + Identifier(header[5..])
  {
    hide Identifier, Digits, Alnum;
    var t1 := ['_'] + t;
    var t2 := ['K'] + t1;
    var t3 := ['C'] + t2;
    var t4 := ['O'] + t3;
    MockSpelled(t);
    Peel(header, 'M', t4);
    Peel(header[1..], 'O', t3);
    assert header[1..][1..] == header[2..];
    Peel(header[2..], 'C', t2);
    assert header[2..][1..] == header[3..];
    Peel(header[3..], 'K', t1);
    assert header[3..][1..] == header[4..];
    PeelEscaped(header[4..], t);
    assert header[4..][1..] == header[5..];
  }

  lemma {:induction false} IdentifierConcat(s: string, t: string)
    ensures Identifier(s + t) == Identifier(s) + Identifier(t)
  {
    if s == "" {
      assert s + t == t;
    } else {
      assert (s + t)[1..] == s[1..] + t;
      IdentifierConcat(s[1..], t);
    }
  }

  lemma {:induction false} IdentifierOfAlnum(s: string)
    requires forall c :: c in s ==> Alnum(c)
    ensures Identifier(s) == s
  {
    if s != "" {
      IdentifierOfAlnum(s[1..]);
    }
  }

  lemma DigitsIdentifier(c: char, rest: string)
    ensures Identifier(Digits(c) + rest) == Digits(c) + Identifier(rest)
  {
    HexNibble(c as int / 16 % 16);
    HexNibble(c as int % 16);
    IdentifierOfAlnum(Digits(c));
    IdentifierConcat(Digits(c), rest);
  }

  lemma MockIsAlnum()
    ensures Identifier("MOCK") == "MOCK"
  {
    IdentifierOfAlnum("MOCK");
  }

  lemma EscapedCons(c: char, rest: string)
    requires !Alnum(c)
    ensures Identifier([c] + rest) == "_" + (Digits(c) + Identifier(rest))
  {
    assert ([c] + rest)[1..] == rest;
  }

  lemma Assoc(a: string, b: string, c: string)
    ensures (a + b) + c == a + (b + c)
  {
  }

  lemma ClashingIdentifier(c: char, rest: string)
    requires !Alnum(c)
    ensures Identifier("MOCK" + [c] + rest) == "MOCK" + "_" + (Digits(c) + Identifier(rest))
  {
    hide Digits, Identifier;
    MockIsAlnum();
    EscapedCons(c, rest);
    Assoc("MOCK", [c], rest);
    IdentifierConcat("MOCK", [c] + rest);
    Assoc("MOCK", "_", Digits(c) + Identifier(rest));
  }

  lemma MockIdentifier(header: string, mock: string)
    requires Bytes(header) && Bytes(mock)
    ensures Identifier(header) == "MOCK_" + Identifier(mock) <==> GuardClash(header, mock)
  {
    hide Digits, Code, Identifier;
    if GuardClash(header, mock) {
      var c, rest := header[4], header[5..];
      assert header == "MOCK" + [c] + rest;
      ClashingIdentifier(c, rest);
      DigitsIdentifier(c, rest);
    }
    if Identifier(header) == "MOCK_" + Identifier(mock) {
      PeelMock(header, Identifier(mock));
      var c, rest := header[4], header[5..];
      DigitsIdentifier(c, rest);
      DecodedIdentifier(mock);
      DigitsAreBytes(c, header, rest);
      DecodedIdentifier(Digits(c) + rest);
    }
  }

  lemma DigitsAreBytes(c: char, header: string, rest: string)
    requires Bytes(header) && |header| >= 5 && rest == header[5..]
    ensures Bytes(Digits(c) + rest)
  {
    HexNibble(c as int / 16 % 16);
    HexNibble(c as int % 16);
    forall x | x in Digits(c) + rest
      ensures x as int < 256
    {
      assert x in rest ==> x in header;
    }
  }
}
