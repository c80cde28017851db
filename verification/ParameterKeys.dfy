// What each key of the parameter string does, spelled out: the field it sets,
// or the error it gives.
module ParameterKeys {
  import opened Schema
  import opened Tokens
  import opened PluginParameters

  // What the plugin starts from.
  function Defaults(): Parameters {
    Parameters(
      servicesNamespace := "",
      useSystemHeaders := true,
      grpcSearchPath := "",
      generateMockCode := false,
      gmockSearchPath := "",
      additionalHeaderIncludes := [],
      messageHeaderExtension := "",
      includeImportHeaders := false,
      allowSyncServerApi := true,
      allowCqApi := true,
      allowDeprecated := false)
  }

  // What the loop makes of a parameter string.
  predicate Yields(parameter: string, o: Outcome) { IsOutcome(ParameterTokens(parameter), o) }

  // A boolean's outcome: the options it leads to, or an error that quotes it.
  predicate YieldsBoolean(key: string, v: string, p: Parameters) {
    Yields(key + "=" + v, if v == "true" || v == "false" then Parsed(p)
      else Failed("Invalid parameter: " + key + "=" + v))
  }

  lemma KeysOfEighteen()
    ensures SettingOf("services_namespace") == ServicesNamespace
    ensures SettingOf("use_system_headers") == UseSystemHeaders
    ensures SettingOf("generate_mock_code") == GenerateMockCode
  {
    assert "services_namespace"[0] == 's' && "use_system_headers"[0] == 'u' && "generate_mock_code"[0] == 'g';
    assert |"grpc_search_path"| == 16;
  }

  lemma KeysOfSixteen()
    ensures SettingOf("grpc_search_path") == GrpcSearchPath
    ensures SettingOf("allow_deprecated") == AllowDeprecated
  {
    assert |"services_namespace"| == 18 && |"use_system_headers"| == 18 && |"generate_mock_code"| == 18;
    assert "grpc_search_path"[0] == 'g' && "allow_deprecated"[0] == 'a';
    assert |"allow_sync_server_api"| == 21 && |"allow_cq_api"| == 12 && |"gmock_search_path"| == 17;
    assert |"additional_header_includes"| == 26 && |"message_header_extension"| == 24;
    assert |"include_import_headers"| == 22;
  }

  lemma LongKeys()
    ensures SettingOf("allow_sync_server_api") == AllowSyncServerApi
    ensures SettingOf("allow_cq_api") == AllowCqApi
    ensures SettingOf("gmock_search_path") == GmockSearchPath
  {
    assert |"services_namespace"| == 18 && |"use_system_headers"| == 18 && |"generate_mock_code"| == 18;
    assert |"grpc_search_path"| == 16;
    assert |"allow_sync_server_api"| == 21 && |"allow_cq_api"| == 12 && |"gmock_search_path"| == 17;
  }

  lemma LongestKeys()
    ensures SettingOf("additional_header_includes") == AdditionalHeaderIncludes
    ensures SettingOf("message_header_extension") == MessageHeaderExtension
    ensures SettingOf("include_import_headers") == IncludeImportHeaders
  {
    assert |"services_namespace"| == 18 && |"use_system_headers"| == 18 && |"generate_mock_code"| == 18;
    assert |"grpc_search_path"| == 16;
    assert |"allow_sync_server_api"| == 21 && |"allow_cq_api"| == 12 && |"gmock_search_path"| == 17;
    assert |"additional_header_includes"| == 26 && |"message_header_extension"| == 24;
    assert |"include_import_headers"| == 22;
  }

  // Text that is not split any further.
  predicate Unsplit(s: string) { forall i :: 0 <= i < |s| ==> s[i] != '=' && s[i] != ',' }

  lemma UnsplitIsFree(s: string, t: string)
    requires Unsplit(s) && Unsplit(t)
    ensures AllFreeOf([s, t], "=") && AllFreeOf([s + "=" + t], ",")
  {
  }

  lemma OneToken(key: string, v: string)
    requires Unsplit(key) && Unsplit(v)
    ensures var t := key + "=" + v;
      ParameterTokens(t) == [t] && Set(t) == SettingOf(key) && HasValue(t) && Value(t) == v
  {
    hide Pieces, SettingOf;
    var t := key + "=" + v;
    UnsplitIsFree(key, v);
    PiecesJoin([key, v], '=');
    PiecesJoin([t], ',');
    assert [key, v][1..] == [v];
    assert [','] == "," && ['='] == "=";
  }

  lemma OneOutcome(key: string, v: string)
    requires Unsplit(key) && Unsplit(v)
    ensures Yields(key + "=" + v,
              if SettingOf(key) == NoSuchSetting then Failed("Unknown parameter: " + (key + "=" + v))
              else if IsBoolean(SettingOf(key)) && v != "true" && v != "false"
              then Failed("Invalid parameter: " + (key + "=" + v))
              else Parsed(Applied(Defaults(), SettingOf(key), v)))
  {
    hide Settled, Applied, SettingOf, Pieces, AllFine, IsBoolean, ParameterTokens;
    var t := key + "=" + v;
    OneToken(key, v);
    NothingSet();
    assert [t][..0] == [] && [t][..1] == [t];
    assert AllFine([]) by { NothingIsFine(); }
    hide Set, HasValue, Value;
    TokenStep([t], 0);
  }

  lemma NothingIsFine()
    ensures AllFine([])
  {
  }

  // ---- The keys ----

  predicate IsKey(key: string) {
    key in {"services_namespace", "use_system_headers", "grpc_search_path", "generate_mock_code",
            "allow_sync_server_api", "allow_cq_api", "gmock_search_path", "additional_header_includes",
            "message_header_extension", "include_import_headers", "allow_deprecated"}
  }

  lemma TextKey(key: string, v: string)
    requires Unsplit(key) && Unsplit(v) && SettingOf(key) != NoSuchSetting && !IsBoolean(SettingOf(key))
    ensures Yields(key + "=" + v, Parsed(Applied(Defaults(), SettingOf(key), v)))
  {
    hide Applied, SettingOf, IsBoolean, Yields;
    OneOutcome(key, v);
  }

  lemma BooleanKey(key: string, v: string, p: Parameters)
    requires Unsplit(key) && Unsplit(v) && IsBoolean(SettingOf(key)) && p == Applied(Defaults(), SettingOf(key), v)
    ensures YieldsBoolean(key, v, p)
  {
    hide Applied, SettingOf, Yields;
    OneOutcome(key, v);
    assert "Invalid parameter: " + key + "=" + v == "Invalid parameter: " + (key + "=" + v);
  }

  lemma TextKeysAreUnsplit()
    ensures Unsplit("services_namespace") && Unsplit("grpc_search_path") && Unsplit("gmock_search_path")
    ensures Unsplit("additional_header_includes") && Unsplit("message_header_extension")
  {
  }

  lemma BooleanKeysAreUnsplit()
    ensures Unsplit("use_system_headers") && Unsplit("generate_mock_code") && Unsplit("allow_sync_server_api")
    ensures Unsplit("allow_cq_api") && Unsplit("include_import_headers") && Unsplit("allow_deprecated")
  {
  }

  // The five keys that take any text each set the field of their name, and
  // nothing else.
  lemma TextKeys(v: string)
    requires Unsplit(v)
    ensures Yields("services_namespace=" + v, Parsed(Defaults().(servicesNamespace := v)))
    ensures Yields("grpc_search_path=" + v, Parsed(Defaults().(grpcSearchPath := v)))
    ensures Yields("gmock_search_path=" + v, Parsed(Defaults().(gmockSearchPath := v)))
    ensures Yields("message_header_extension=" + v, Parsed(Defaults().(messageHeaderExtension := v)))
    ensures Yields("additional_header_includes=" + v, Parsed(Defaults().(additionalHeaderIncludes := Pieces(v, ":"))))
  {
    hide SettingOf, Yields, Unsplit, Pieces;
    TextKeysAreUnsplit();
    KeysOfEighteen();
    KeysOfSixteen();
    LongKeys();
    LongestKeys();
    TextKey("services_namespace", v);
    TextKey("grpc_search_path", v);
    TextKey("gmock_search_path", v);
    TextKey("message_header_extension", v);
    TextKey("additional_header_includes", v);
    Equals();
    Parted("services_namespace", v);
    Parted("grpc_search_path", v);
    Parted("gmock_search_path", v);
    Parted("message_header_extension", v);
    Parted("additional_header_includes", v);
  }

  lemma Parted(key: string, v: string)
    ensures key + "=" + v == (key + "=") + v
  {
  }

  lemma Equals()
    ensures "services_namespace" + "=" == "services_namespace=" && "grpc_search_path" + "=" == "grpc_search_path="
    ensures "gmock_search_path" + "=" == "gmock_search_path="
    ensures "message_header_extension" + "=" == "message_header_extension="
    ensures "additional_header_includes" + "=" == "additional_header_includes="
  {
  }

  // The six booleans each set the field of their name to what they say, and
  // anything but true and false is an error that quotes the parameter.
  lemma BooleanKeys(v: string)
    requires Unsplit(v)
    ensures YieldsBoolean("use_system_headers", v, Defaults().(useSystemHeaders := v == "true"))
    ensures YieldsBoolean("generate_mock_code", v, Defaults().(generateMockCode := v == "true"))
    ensures YieldsBoolean("allow_sync_server_api", v, Defaults().(allowSyncServerApi := v == "true"))
    ensures YieldsBoolean("allow_cq_api", v, Defaults().(allowCqApi := v == "true"))
    ensures YieldsBoolean("include_import_headers", v, Defaults().(includeImportHeaders := v == "true"))
    ensures YieldsBoolean("allow_deprecated", v, Defaults().(allowDeprecated := v == "true"))
  {
    hide SettingOf, YieldsBoolean, Unsplit;
    BooleanKeysAreUnsplit();
    KeysOfEighteen();
    KeysOfSixteen();
    LongKeys();
    LongestKeys();
    BooleanKey("use_system_headers", v, Defaults().(useSystemHeaders := v == "true"));
    BooleanKey("generate_mock_code", v, Defaults().(generateMockCode := v == "true"));
    BooleanKey("allow_sync_server_api", v, Defaults().(allowSyncServerApi := v == "true"));
    BooleanKey("allow_cq_api", v, Defaults().(allowCqApi := v == "true"));
    BooleanKey("include_import_headers", v, Defaults().(includeImportHeaders := v == "true"));
    BooleanKey("allow_deprecated", v, Defaults().(allowDeprecated := v == "true"));
  }

  // Any other key is refused as unknown, and the error quotes the parameter.
  lemma OtherKeys(key: string, v: string)
    requires Unsplit(key) && Unsplit(v) && !IsKey(key)
    ensures Yields(key + "=" + v, Failed("Unknown parameter: " + key + "=" + v))
  {
    hide Yields, Unsplit;
    OneOutcome(key, v);
    assert SettingOf(key) == NoSuchSetting;
    assert "Unknown parameter: " + key + "=" + v == "Unknown parameter: " + (key + "=" + v);
  }

  // And no parameters leave the options as they start.
  lemma NothingYieldsDefaults()
    ensures Yields("", Parsed(Defaults()))
  {
    NothingSet();
    hide Settled;
  }
}
