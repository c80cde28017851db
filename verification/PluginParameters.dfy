// The parameter string of the C++ plugin: the parsing loop of
// CppGrpcGenerator::Generate in cpp_plugin.h.
module PluginParameters {
  import opened Schema
  import opened Tokens

  datatype Setting =
    | ServicesNamespace | UseSystemHeaders | GrpcSearchPath | GenerateMockCode | AllowSyncServerApi | AllowCqApi
    | GmockSearchPath | AdditionalHeaderIncludes | MessageHeaderExtension | IncludeImportHeaders | AllowDeprecated
    | NoSuchSetting

  function SettingOf(key: string): Setting {
    if key == "services_namespace" then ServicesNamespace
    else if key == "use_system_headers" then UseSystemHeaders
    else if key == "grpc_search_path" then GrpcSearchPath
    else if key == "generate_mock_code" then GenerateMockCode
    else if key == "allow_sync_server_api" then AllowSyncServerApi
    else if key == "allow_cq_api" then AllowCqApi
    else if key == "gmock_search_path" then GmockSearchPath
    else if key == "additional_header_includes" then AdditionalHeaderIncludes
    else if key == "message_header_extension" then MessageHeaderExtension
    else if key == "include_import_headers" then IncludeImportHeaders
    else if key == "allow_deprecated" then AllowDeprecated
    else NoSuchSetting
  }

  predicate IsBoolean(s: Setting) {
    s in {UseSystemHeaders, GenerateMockCode, AllowSyncServerApi, AllowCqApi, IncludeImportHeaders, AllowDeprecated}
  }

  // `key=value`; a second '=' ends the value.
  function Set(token: string): Setting { SettingOf(Pieces(token, "=")[0]) }

  predicate HasValue(token: string) { |Pieces(token, "=")| > 1 }

  function Value(token: string): string { if HasValue(token) then Pieces(token, "=")[1] else "" }

  predicate Unknown(token: string) { Set(token) == NoSuchSetting }

  // A known key without '=': the source reads the vector past its end.
  predicate Valueless(token: string) { !Unknown(token) && !HasValue(token) }

  predicate BadBoolean(token: string) {
    IsBoolean(Set(token)) && HasValue(token) && Value(token) != "true" && Value(token) != "false"
  }

  predicate Fine(token: string) { !Unknown(token) && !Valueless(token) && !BadBoolean(token) }

  predicate AllFine(tokens: seq<string>) { forall t :: t in tokens ==> Fine(t) }

  datatype Outcome = Parsed(params: Parameters) | Failed(error: string) | OutOfRange(token: string)

  datatype LastValue = Unset | Last(value: string)

  // The value of the last token for a setting.
  function LastOf(tokens: seq<string>, s: Setting): LastValue {
    if tokens == [] then Unset
    else
      var t := tokens[|tokens| - 1];
      if Set(t) == s then Last(Value(t)) else LastOf(tokens[..|tokens| - 1], s)
  }

  function TextOf(v: LastValue): string { if v.Unset? then "" else v.value }

  function BooleanOf(v: LastValue, unset: bool): bool { if v.Unset? then unset else v.value == "true" }

  // Whether any token switches the setting on.
  predicate EverTrue(tokens: seq<string>, s: Setting) {
    exists t :: t in tokens && Set(t) == s && Value(t) == "true"
  }

  // The options a parameter list without a faulty token leads to. Two of the
  // booleans can be switched on but not off again; the others take their last
  // value.
  function Settled(tokens: seq<string>): Parameters {
    Parameters(
      TextOf(LastOf(tokens, ServicesNamespace)),
      BooleanOf(LastOf(tokens, UseSystemHeaders), true),
      TextOf(LastOf(tokens, GrpcSearchPath)),
      EverTrue(tokens, GenerateMockCode),
      TextOf(LastOf(tokens, GmockSearchPath)),
      if LastOf(tokens, AdditionalHeaderIncludes).Unset? then []
      else Pieces(LastOf(tokens, AdditionalHeaderIncludes).value, ":"),
      TextOf(LastOf(tokens, MessageHeaderExtension)),
      EverTrue(tokens, IncludeImportHeaders),
      BooleanOf(LastOf(tokens, AllowSyncServerApi), true),
      BooleanOf(LastOf(tokens, AllowCqApi), true),
      BooleanOf(LastOf(tokens, AllowDeprecated), false))
  }

  function ParameterTokens(parameter: string): seq<string> { if parameter == "" then [] else Pieces(parameter, ",") }

  // `o` is what the loop makes of the tokens: all of them are fine and the
  // options are settled, or it stops at the first one that is not.
  predicate IsOutcome(tokens: seq<string>, o: Outcome) {
    match o
    case Parsed(params) => AllFine(tokens) && params == Settled(tokens)
    case Failed(error) =>
      exists i :: 0 <= i < |tokens| && AllFine(tokens[..i]) &&
        ((Unknown(tokens[i]) && error == "Unknown parameter: " + tokens[i]) ||
         (BadBoolean(tokens[i]) && error == "Invalid parameter: " + tokens[i]))
    case OutOfRange(token) =>
      exists i :: 0 <= i < |tokens| && AllFine(tokens[..i]) && Valueless(tokens[i]) && token == tokens[i]
  }

  lemma LastOfSnoc(tokens: seq<string>, t: string, s: Setting)
    ensures LastOf(tokens + [t], s) == if Set(t) == s then Last(Value(t)) else LastOf(tokens, s)
    ensures EverTrue(tokens + [t], s) <==> EverTrue(tokens, s) || (Set(t) == s && Value(t) == "true")
  {
    hide Set, Value;
    var u := tokens + [t];
    assert u[..|u| - 1] == tokens;
    assert t in u;
    assert forall x :: x in tokens ==> x in u;
  }

  // What one fine token does to the options.
  function Applied(p: Parameters, s: Setting, v: string): Parameters {
    match s
    case ServicesNamespace => p.(servicesNamespace := v)
    case UseSystemHeaders => p.(useSystemHeaders := v == "true")
    case GrpcSearchPath => p.(grpcSearchPath := v)
    case GenerateMockCode => p.(generateMockCode := p.generateMockCode || v == "true")
    case AllowSyncServerApi => p.(allowSyncServerApi := v == "true")
    case AllowCqApi => p.(allowCqApi := v == "true")
    case GmockSearchPath => p.(gmockSearchPath := v)
    case AdditionalHeaderIncludes => p.(additionalHeaderIncludes := Pieces(v, ":"))
    case MessageHeaderExtension => p.(messageHeaderExtension := v)
    case IncludeImportHeaders => p.(includeImportHeaders := p.includeImportHeaders || v == "true")
    case AllowDeprecated => p.(allowDeprecated := v == "true")
    case NoSuchSetting => p
  }

  lemma SettledSnoc(tokens: seq<string>, t: string)
    ensures Settled(tokens + [t]) == Applied(Settled(tokens), Set(t), Value(t))
  {
    hide LastOf, EverTrue, Set, Value, Pieces;
    LastOfSnoc(tokens, t, ServicesNamespace);
    LastOfSnoc(tokens, t, UseSystemHeaders);
    LastOfSnoc(tokens, t, GrpcSearchPath);
    LastOfSnoc(tokens, t, GenerateMockCode);
    LastOfSnoc(tokens, t, AllowSyncServerApi);
    LastOfSnoc(tokens, t, AllowCqApi);
    LastOfSnoc(tokens, t, GmockSearchPath);
    LastOfSnoc(tokens, t, AdditionalHeaderIncludes);
    LastOfSnoc(tokens, t, MessageHeaderExtension);
    LastOfSnoc(tokens, t, IncludeImportHeaders);
    LastOfSnoc(tokens, t, AllowDeprecated);
  }

  const MOCK_KEY: string := "generate_mock_code"

  lemma MockTokens(value: string)
    requires value == "true" || value == "false"
    ensures var t := MOCK_KEY + "=" + value; Set(t) == GenerateMockCode && Value(t) == value && Fine(t)
  {
    PiecesJoin([MOCK_KEY, value], '=');
    assert Join([MOCK_KEY, value], "=") == MOCK_KEY + "=" + value by { assert [MOCK_KEY, value][1..] == [value]; }
    MockKey();
  }

  lemma MockKey()
    ensures SettingOf(MOCK_KEY) == GenerateMockCode
  {
    assert "services_namespace"[0] == 's' && "use_system_headers"[0] == 'u' && "grpc_search_path"[1] == 'r';
  }

  // For instance: true, then false. Both tokens are fine, and mocks stay on.
  lemma MocksStayOn()
    ensures var tokens := [MOCK_KEY + "=" + "true", MOCK_KEY + "=" + "false"];
      AllFine(tokens) && Settled(tokens).generateMockCode && LastOf(tokens, GenerateMockCode) == Last("false")
  {
    hide Set, Value, Fine, MOCK_KEY;
    MockTokens("true");
    MockTokens("false");
    var tokens := [MOCK_KEY + "=" + "true", MOCK_KEY + "=" + "false"];
    assert tokens[0] in tokens;
  }

  // And a known key by itself: there is no value to read.
  lemma KeyAloneIsOutOfRange()
    ensures IsOutcome([MOCK_KEY], OutOfRange(MOCK_KEY))
  {
    PiecesJoin([MOCK_KEY], '=');
    MockKey();
    hide MOCK_KEY;
    assert [MOCK_KEY][..0] == [];
  }

  function TokenOutcome(p: Parameters, token: string): Outcome {
    if Unknown(token) then Failed("Unknown parameter: " + token)
    else if Valueless(token) then OutOfRange(token)
    else if BadBoolean(token) then Failed("Invalid parameter: " + token)
    else Parsed(Applied(p, Set(token), Value(token)))
  }

  // The boolean settings that can be switched both ways.
  method ParseBoolean(token: string, value: string) returns (ok: bool, setting: bool, error: string)
    ensures ok <==> value == "true" || value == "false"
    ensures ok ==> setting == (value == "true")
    ensures !ok ==> error == "Invalid parameter: " + token
  {
    if value == "true" {
      return true, true, "";
    } else if value == "false" {
      return true, false, "";
    } else {
      return false, false, "Invalid parameter: " + token;
    }
  }

  // The body of the loop: one token against the options so far. SettingOf is
  // the chain of key comparisons.
  method ParseToken(p: Parameters, parameterString: string) returns (o: Outcome)
    ensures o == TokenOutcome(p, parameterString)
  {
    hide Pieces, SettingOf;
    var param := Tokenize(parameterString, "=");
    var ok, setting, error := true, false, "";
    if SettingOf(param[0]) != NoSuchSetting && |param| == 1 {
      return OutOfRange(parameterString);
    }
    match SettingOf(param[0])
    case ServicesNamespace =>
      return Parsed(p.(servicesNamespace := param[1]));
    case UseSystemHeaders =>
      ok, setting, error := ParseBoolean(parameterString, param[1]);
      return if ok then Parsed(p.(useSystemHeaders := setting)) else Failed(error);
    case GrpcSearchPath =>
      return Parsed(p.(grpcSearchPath := param[1]));
    case GenerateMockCode =>
      if param[1] == "true" {
        return Parsed(p.(generateMockCode := true));
      } else if param[1] != "false" {
        return Failed("Invalid parameter: " + parameterString);
      }
      return Parsed(p);
    case AllowSyncServerApi =>
      ok, setting, error := ParseBoolean(parameterString, param[1]);
      return if ok then Parsed(p.(allowSyncServerApi := setting)) else Failed(error);
    case AllowCqApi =>
      ok, setting, error := ParseBoolean(parameterString, param[1]);
      return if ok then Parsed(p.(allowCqApi := setting)) else Failed(error);
    case GmockSearchPath =>
      return Parsed(p.(gmockSearchPath := param[1]));
    case AdditionalHeaderIncludes =>
      var includes := Tokenize(param[1], ":");
      return Parsed(p.(additionalHeaderIncludes := includes));
    case MessageHeaderExtension =>
      return Parsed(p.(messageHeaderExtension := param[1]));
    case IncludeImportHeaders =>
      if param[1] == "true" {
        return Parsed(p.(includeImportHeaders := true));
      } else if param[1] != "false" {
        return Failed("Invalid parameter: " + parameterString);
      }
      return Parsed(p);
    case AllowDeprecated =>
      ok, setting, error := ParseBoolean(parameterString, param[1]);
      return if ok then Parsed(p.(allowDeprecated := setting)) else Failed(error);
    case NoSuchSetting =>
      return Failed("Unknown parameter: " + parameterString);
  }

  lemma FaultIsOutcome(tokens: seq<string>, i: nat)
    requires i < |tokens| && AllFine(tokens[..i]) && !Fine(tokens[i])
    ensures IsOutcome(tokens, TokenOutcome(Settled(tokens[..i]), tokens[i]))
  {
    hide Settled, Set, HasValue, Value, AllFine;
  }

  lemma TokenStep(tokens: seq<string>, i: nat)
    requires i < |tokens| && AllFine(tokens[..i])
    ensures var o := TokenOutcome(Settled(tokens[..i]), tokens[i]);
      if o.Parsed? then AllFine(tokens[..i + 1]) && o.params == Settled(tokens[..i + 1]) else IsOutcome(tokens, o)
  {
    hide Settled, Applied, Set, HasValue, Value;
    assert tokens[..i + 1] == tokens[..i] + [tokens[i]];
    if Fine(tokens[i]) {
      SettledSnoc(tokens[..i], tokens[i]);
    } else {
      FaultIsOutcome(tokens, i);
    }
  }

  lemma NothingSet()
    ensures Settled([]) == Parameters("", true, "", false, "", [], "", false, true, true, false)
  {
  }

  // The loop of Generate over the parameter string.
  method ParseParameters(parameter: string) returns (o: Outcome)
    ensures IsOutcome(ParameterTokens(parameter), o)
  {
    hide Settled, TokenOutcome;
    NothingSet();
    var p := Parameters("", true, "", false, "", [], "", false, true, true, false);
    if parameter == "" {
      return Parsed(p);
    }
    var parametersList := Tokenize(parameter, ",");
    hide IsOutcome;
    for i := 0 to |parametersList|
      invariant AllFine(parametersList[..i]) && p == Settled(parametersList[..i])
    {
      hide AllFine;
      TokenStep(parametersList, i);
      var token := ParseToken(p, parametersList[i]);
      if !token.Parsed? {
        return token;
      }
      p := token.params;
    }
    AllRead(parametersList, p);
    return Parsed(p);
  }

  lemma AllRead(tokens: seq<string>, p: Parameters)
    requires AllFine(tokens[..|tokens|]) && p == Settled(tokens[..|tokens|])
    ensures IsOutcome(tokens, Parsed(p))
  {
    hide Settled, AllFine;
    assert tokens[..|tokens|] == tokens;
  }

  // Parsing succeeds exactly when every token is fine.
  lemma ParsedIffAllFine(tokens: seq<string>, o: Outcome)
    requires IsOutcome(tokens, o)
    ensures o.Parsed? <==> AllFine(tokens)
  {
    if o.Failed? {
      var i :| 0 <= i < |tokens| && (Unknown(tokens[i]) || BadBoolean(tokens[i]));
      assert tokens[i] in tokens;
    }
    if o.OutOfRange? {
      var i :| 0 <= i < |tokens| && Valueless(tokens[i]);
      assert tokens[i] in tokens;
    }
  }

  // The outcome is determined by the tokens: the faulty token an error names
  // is the first one, and there is one error for it.
  lemma OutcomeIsUnique(tokens: seq<string>, o: Outcome, o': Outcome)
    requires IsOutcome(tokens, o) && IsOutcome(tokens, o')
    ensures o == o'
  {
    ParsedIffAllFine(tokens, o);
    ParsedIffAllFine(tokens, o');
    if !o.Parsed? {
      var i, i' := FaultAt(tokens, o), FaultAt(tokens, o');
      assert i == i';
    }
  }

  // Where the outcome says the first faulty token is.
  ghost function FaultAt(tokens: seq<string>, o: Outcome): (i: nat)
    requires IsOutcome(tokens, o) && !o.Parsed?
    ensures i < |tokens| && AllFine(tokens[..i]) && !Fine(tokens[i])
    ensures o == TokenOutcome(Settled(tokens[..i]), tokens[i])
  {
    if o.Failed? then
      var i :| 0 <= i < |tokens| && AllFine(tokens[..i]) &&
        ((Unknown(tokens[i]) && o.error == "Unknown parameter: " + tokens[i]) ||
         (BadBoolean(tokens[i]) && o.error == "Invalid parameter: " + tokens[i]));
      i
    else
      var i :| 0 <= i < |tokens| && AllFine(tokens[..i]) && Valueless(tokens[i]) && o.token == tokens[i];
      i
  }
}
