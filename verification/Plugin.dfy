// CppGrpcGenerator::Generate: from a parameter string to the generated files.
module Plugin {
  import opened Schema
  import opened Emit
  import opened Structure
  import opened Replace
  import opened PluginParameters
  import opened Outputs
  import opened FileStructure
  import opened Queries
  import TableAgreement

  datatype OutputFile = OutputFile(name: string, items: seq<Item>)

  datatype Generation =
    | Files(files: seq<OutputFile>)
    | GenericServices                // cc_generic_services is set
    | BadParameter(error: string)
    | Undefined(token: string)       // a known key without a value
    | PrinterFails                   // a fatal error in an import line

  function FilesOf(f: File, ps: Parameters): seq<OutputFile> {
    var name := Stripped(f.filename);
    [OutputFile(name + ".grpc.pb.h", HeaderFile(f, ps))] + [OutputFile(name + ".grpc.pb.cc", SourceOfFile(f, ps))] +
    (if ps.generateMockCode then [OutputFile(name + "_mock.grpc.pb.h", MockFile(f, ps))] else [])
  }

  // Nothing is written unless every parameter is fine and the printer takes the
  // import lines; then the header and the source are, and the mock exactly if
  // it is asked for.
  method Generate(f: File, genericServices: bool, parameter: string) returns (r: Generation)
    ensures genericServices ==> r == GenericServices
    ensures !genericServices && AllFine(ParameterTokens(parameter)) ==>
      var ps := Settled(ParameterTokens(parameter));
      r == if ImportsPaired(f, ps) then Files(FilesOf(f, ps)) else PrinterFails
    ensures !genericServices && !AllFine(ParameterTokens(parameter)) ==>
      (r.BadParameter? && IsOutcome(ParameterTokens(parameter), Failed(r.error))) ||
      (r.Undefined? && IsOutcome(ParameterTokens(parameter), OutOfRange(r.token)))
  {
    hide Settled, AllFine, ParameterTokens, ImportsPaired, ImportsExpand, HeaderPrologue, HeaderIncludes,
      HeaderServices, HeaderEpilogue, SourcePrologue, SourceIncludes, SourceServices, SourceEpilogue, MockPrologue,
      MockIncludes, MockServices, MockEpilogue, Stripped;
    if genericServices {
      return GenericServices;
    }
    var o := ParseParameters(parameter);
    ParsedIffAllFine(ParameterTokens(parameter), o);
    if o.Failed? {
      return BadParameter(o.error);
    } else if o.OutOfRange? {
      return Undefined(o.token);
    }
    var ps := o.params;
    var name := StripProto(f.filename);
    var ok, header := WriteHeader(f, ps);
    if !ok {
      return PrinterFails;
    }
    var source := WriteSource(f, ps);
    var files := [OutputFile(name + ".grpc.pb.h", header)] + [OutputFile(name + ".grpc.pb.cc", source)];
    if !ps.generateMockCode {
      assert files + [] == files;
      return Files(files);
    }
    var mock;
    MockImportsExpand(f, ps);
    ok, mock := WriteMock(f, ps);
    return Files(files + [OutputFile(name + "_mock.grpc.pb.h", mock)]);
  }

  method WriteHeader(f: File, ps: Parameters) returns (ok: bool, code: seq<Item>)
    ensures ok <==> ImportsPaired(f, ps)
    ensures ok ==> code == HeaderFile(f, ps)
  {
    hide ImportsPaired, ExtEnv, HeaderPrologue, HeaderIncludes, HeaderServices, HeaderEpilogue;
    code := GetHeaderPrologue(f, ps, []);
    ok, code := GetHeaderIncludes(f, ps, code);
    if !ok {
      return;
    }
    code := GetHeaderServices(f, ps, code);
    code := GetHeaderEpilogue(f, ps, code);
  }

  method WriteSource(f: File, ps: Parameters) returns (code: seq<Item>)
    ensures code == SourceOfFile(f, ps)
  {
    hide SourcePrologue, SourceIncludes, SourceServices, SourceEpilogue;
    code := GetSourcePrologue(f, ps, []);
    code := GetSourceIncludes(f, ps, code);
    code := GetSourceServices(f, ps, code);
    code := GetSourceEpilogue(f, ps, code);
  }

  method WriteMock(f: File, ps: Parameters) returns (ok: bool, code: seq<Item>)
    ensures ok <==> ImportsExpand(f, ps, NamesEnv(f, ps))
    ensures ok ==> code == MockFile(f, ps)
  {
    hide ImportsExpand, NamesEnv, MockPrologue, MockIncludes, MockServices, MockEpilogue;
    ok, code := GetMockPrologue(f, ps, []);
    if !ok {
      return;
    }
    code := GetMockIncludes(f, ps, code);
    code := GetMockServices(f, ps, code);
    code := GetMockEpilogue(f, ps, code);
  }

  // ---- The generated files include each other, and protoc's header. ----

  predicate IncludesHeader(f: Fact, name: string) { f.ServiceIncluded? && Spelled(f.spelled) == name + ".grpc.pb.h" }

  // The include of the messages, with the extension asked for.
  predicate IncludesMessages(f: Fact, name: string, ps: Parameters) {
    f.MessageIncluded? &&
    Spelled(f.spelled) == name + (if ps.messageHeaderExtension == "" then ".pb.h" else ps.messageHeaderExtension)
  }

  // The messages' header first, then the service's.
  predicate IncludesBoth(fs: seq<Fact>, name: string, ps: Parameters) {
    |fs| >= 2 && IncludesMessages(fs[0], name, ps) && IncludesHeader(fs[1], name)
  }

  // All of a text stands in one guard, and these are its facts.
  function GuardedFacts(o: seq<Item>): seq<Fact> {
    if |Facts(o)| == 1 && Facts(o)[0].GuardedText? then Facts(o)[0].members else []
  }

  // The header includes the messages it is generated for; the source and the
  // mock include those and then the header that is written beside them.
  lemma GeneratedHeaderIsIncluded(f: File, ps: Parameters)
    ensures var name := Stripped(f.filename);
      GuardedFacts(HeaderFile(f, ps)) != [] && IncludesMessages(GuardedFacts(HeaderFile(f, ps))[0], name, ps) &&
      IncludesBoth(Facts(SourceOfFile(f, ps)), name, ps) && IncludesBoth(GuardedFacts(MockFile(f, ps)), name, ps) &&
      FilesOf(f, ps)[0] == OutputFile(name + ".grpc.pb.h", HeaderFile(f, ps))
  {
    hide After, SourceOfFile, MockFile, HeaderFile, SourceInner, WrappedFrom, Wrapped, MirroredUpTo, GuardRefs,
      PackageParts, MockServicesFacts, HeaderServicesFacts, Named, Spelled, Stripped, HeaderPorts;
    HeaderFileRead(f, ps);
    SourceFileRead(f, ps);
    MockFileRead(f, ps);
    TableAgreement.SpelledPair(Stripped(f.filename), ".grpc.pb.h");
    TableAgreement.SpelledPair(Stripped(f.filename), ".pb.h");
    TableAgreement.SpelledPair(Stripped(f.filename), ps.messageHeaderExtension);
  }
}
