# A verified model of the gRPC C++ code generator and its build rule

The repository turns `.proto` service descriptions into C++. A vendored protoc
plugin writes a header, a source and optionally a mock for each file; a build
rule plans the protoc runs; a script keeps the list of vendored sources in the
package manifest. This project models these parts in Dafny and proves that they
do what the C++ compiler, the linker, the wire and the build graph need of them.

## The emitter

`cpp_generator.cc` prints one service in some twenty passes over its methods.
All passes share one mutable variable map and one printer. The model keeps that
form: the map and the printer are objects (`Emit.Vars`, `Emit.Printer`), every
pass is a method on them, and templates are structured values with holes for the
variables. `Print` has two preconditions: every variable of the template is set
at that moment, and it holds what the caller means it to hold. So each pass is
shown to print its own method's values and never a leftover of an earlier pass,
and its contract gives what it adds as a function of the method alone. `Outdent`
requires a positive indent and every pass restores the indent it found, so the
level never drops below its start.

What was printed is then read back by a reader that knows nothing of the passes
(`Structure`). It matches braces, class heads, namespaces, include guards and
typedefs over the flat sequence of printed items, and builds the tree of what
each scope declares. The theorems compare these trees, across classes and across
files: what is declared and what is defined, what is pure, overridden and
mocked, the table of method names with both of its users, the members of every
mixin, and the parsed typedefs.

| files | part |
|---|---|
| `Schema`, `Decimal`, `Emit` | descriptors, numerals, templates, printer and variables |
| `ClientTemplates`, `ClientHeader`, `ServerTemplates`, `ServerHeader`, `HeaderService` | header passes |
| `SourceTemplates`, `SourceService`, `MockService` | source and mock passes |
| `TemplatePieces`, `ImportLines`, `Outputs`, `Plugin` | import lines, prologues, includes, epilogues, whole files, the plugin's entry |
| `Structure`, `Queries`, `PortsIncludes` | the reader and questions to ask of what it read |
| `ClientFacts`, `ServerFacts`, `HeaderFacts`, `SourceFacts`, `MockFacts`, `Signatures`, `ClientPasses`, `HeaderClasses` | what the reader finds in each pass |
| `MixinLists` | the members of every mixin class, written down from its method |
| `ClientAgreement`, `MockAgreement`, `ServerAgreement`, `MixinFamilies`, `TypedefAgreement`, `HeaderDeclarations`, `DefinitionAgreement`, `TableAgreement`, `StubBodies`, `OverloadClashes` | the theorems about one service |
| `FileStructure`, `FileDefinitions`, `FileAgreement` | the theorems about whole files |

## The other parts

`Guards`, `VariableText`, `Tokens`, `Replace`, `CamelCase` and `PythonNames` model
the string helpers: loops over buffers edited in place, proved against
specifications, with decoders, round trips and exact comparisons.
`PluginParameters` is the plugin's parameter string and `ParameterKeys` what each
of its keys does. `NameOrder`, `BuildPlanner` and `PlanProperties` are the build
planner; `ProtocWords` reads the commands it plans as protoc does, and
`PlannedPlugin` holds them against the files the plugin writes. `SourceLists`,
`ManifestArrays` and `GenSources` are the manifest rewriter, `OpenManifest` a
manifest it spoils, `ManifestEntries` reads back what the arrays list, and
`SharedManifest` is a manifest whose two sections share one.

## Where the code differs from what a reader might expect

These are results: each is stated with the exact condition under which the
expected property holds, and with an input for which it does not.

- The closing comments of a source name its namespaces in opening order. They
  are right exactly if the package reads the same from both ends
  (`FileStructure.SourceIsBalanced`); for package `a.b` they are wrong
  (`FileStructure.TwoPartsAreMislabeled`).
- A source without a package never includes `ports_undef.inc`
  (`FileStructure.SourcePortsAreUndefined`). A header does, but it leaves the
  macros undefined exactly if the user's additional includes undefine what they
  define before they define it again (`FileStructure.HeaderPortsAreUndefined`);
  `ports_def.inc` alone is a counterexample (`FileStructure.AdditionalPortsDef`).
- File-level comments are printed raw and keep the doubled `$` of their escaped
  form (`VariableText.RawCommentsIff`, `VariableText.RawDollarIsDoubled`).
- Header guards and mock guards are injective each, but a header and a mock can
  share a guard (`Guards.GuardFamiliesClash`): the header of `MOCK_abc.proto` and
  the mock of `5fabc.proto` do (`Guards.HeaderAndMockShareGuard`).
- The planned edges depend on the order a directory is enumerated in exactly if
  the plan is not refused and some root holds both a `.proto` and a file whose
  status cannot be read: the error ends the scan of the root in front of the next
  file (`PlanProperties.OrderFreeIff`). A link that leads nowhere hides a
  `.proto` listed behind it (`PlanProperties.DanglingLinkHidesProto`).
- Rewriting a manifest with one build header is idempotent exactly if the ares
  array is not left open in front of that header
  (`ManifestArrays.RewriteIdempotentIff`). A comment behind the array's bracket
  leaves it open in valid TOML, and the second run of the script fails
  (`OpenManifest.RewriteOnceOnly`, `GenSources.OpenManifestRunsOnce`).
- A planned command says to protoc what it is meant to exactly if no plugin's name
  holds an `=` and neither a parameter nor the output directory holds a colon
  (`ProtocWords.CommandReadIff`); with the built-in plugin that leaves the colon in
  the output directory (`PlannedPlugin.PlannerMeetsPlugin`), as in `c:/out`
  (`ProtocWords.ColonIsMisread`).
- A run of the script lists the core sources under `[build]` exactly if the two
  sections do not stand in front of one array and the ares array is not left open,
  on a manifest with one build header (`ManifestEntries.WrittenArrays`). An empty
  `[features.ares]` in front of `[build]` shares its array
  (`SharedManifest.SharedManifestListsAres`).
- The two camel-case forms differ on names that begin with an underscore
  (`CamelCase.CamelFormsAgree`, `CamelCase.LeadingUnderscoreDiffers`), and the two
  line splits on the empty string (`Tokens.SplitsCompared`).
- `generate_mock_code=false` does not switch mocks off again
  (`PluginParameters.SettledSnoc`, `PluginParameters.MocksStayOn`), and a known
  key without a value makes the parser read past the end of a vector, which the
  model reports as an outcome of its own (`PluginParameters.KeyAloneIsOutOfRange`).
- The include line of an import is printed as a template, so a `$` in the name of
  an imported file is read as the printer reads it. The line can be printed
  exactly if the `$` of the name without its last six characters are paired
  around nothing or `message_header_ext` (`ImportLines.ImportExpandsIff`);
  otherwise the plugin fails, as on `a$b.proto` (`ImportLines.DollarImportFails`).
  It includes the import's own header exactly if there is no such `$`, provided
  the extension holds none (`ImportLines.ImportLineIff`); for `a$$b.proto` the
  plugin succeeds and includes the header of `a$b.proto`
  (`ImportLines.DoubleDollarImport`).
- Methods with distinct names can still get functions that C++ cannot tell apart,
  exactly if one is named like another with `Raw` behind it and their calls take
  the same (`OverloadClashes.StubClashIff`), such as `Foo` and `FooRaw`
  (`OverloadClashes.FooRawClashes`).

Nothing was executed: the results rest on the verifier and on the model's
reading of the sources. Run `dafny verify dfyconfig.toml` to check the project.

## Model

| member | source | states |
|---|---|---|
| FileDefinitions.EveryFileIsDefined | plugin/src/compiler/cpp_generator.cc:1402-1710 | for every file, number of services, package, services namespace and options: the functions the whole header declares and neither defines inline nor leaves pure, and the functions the whole source defines, are the same multiset of (qualified scope, name, result and parameter types) |
| FileDefinitions.ServiceDefines | plugin/src/compiler/cpp_generator.cc:2070-2208 | the same for one service, its source standing in any namespaces |
| DefinitionAgreement.EveryDeclarationHasOneDefinition | plugin/src/compiler/cpp_generator.cc:1774-2068 | the same for the text of one service: every Stub, Stub::async and Service member, NewStub, both constructors and the destructor have exactly one definition, under the scope spelled with `$ns$` |
| DefinitionAgreement.MethodDefines | plugin/src/compiler/cpp_generator.cc:1774-1996 | one method's definitions are a permutation of what its public, callback and private Stub passes declare (the unary PrepareAsync comes before Async in the source, after it in the header) |
| DefinitionAgreement.SourceDefines | plugin/src/compiler/cpp_generator.cc:2070-2208 | a service's source defines exactly the functions listed by streaming kind and options |
| HeaderDeclarations.HeaderDeclares | plugin/src/compiler/cpp_generator.cc:1402-1647 | a service's header leaves exactly those functions to define; interface and mixin classes leave none |
| ClientAgreement.StubImplementsInterface | plugin/src/compiler/cpp_generator.cc:193-620 | Stub overrides exactly the pure virtual functions of StubInterface, in the same order, with equal names and parameters and the concrete stream type for each interface type; Stub::async overrides exactly those of async_interface |
| ClientAgreement.WrappersMatchPrivates | plugin/src/compiler/cpp_generator.cc:193-620 | the inline wrappers of StubInterface and of Stub are exactly those for the private Raw functions declared behind them, and each calls its own with as many arguments as it has parameters, `$AsyncMethodParams$` and `$AsyncRawArgs$` included, and passes a tag on under its own name |
| ClientAgreement.PrivatesAreRaw | plugin/src/compiler/cpp_generator.cc:1446-1487 | behind the access label private: of StubInterface, and of Stub, stand exactly the Raw functions, and no wrapper |
| MockAgreement.MockMocksInterface | plugin/src/compiler/cpp_generator.cc:2343-2451 | the mock mocks every pure virtual function of StubInterface once and nothing else, with the same types, and the number in each MOCK_METHOD is the number of parameters |
| TableAgreement.ClientAndServerAgree | plugin/src/compiler/cpp_generator.cc:2070-2208 | entry i of the names table is "/Package.Service/Method_i"; the i-th rpcmethod_ member the header declares is the i-th initialized, from entry i; the i-th AddMethod uses entry i, the same streaming type and the handler of the method's kind, made for the method's request and response types in this order, which are those in the parameters of the function it calls: the one Service declares for the method, defined in the source under the class the handler names; one of each per method, no table without methods |
| TableAgreement.FullNameIsInPaths | plugin/src/compiler/cpp_generator.cc:1420-1424 | service_full_name() is the package and the service's name, and every path of the names table is "/" + that string + "/" + the method's name |
| StubBodies.StubsCallTheirOwnMethod | plugin/src/compiler/cpp_generator.cc:1774-1996 | every client body stands right behind the head of a definition, and the pairs of head name and body are, one after the other, exactly those of the methods in order: each calls its kind's function through its own method's table member, made for the types the kind calls for (request and response, what a writer writes, what a reader reads); AsyncM passes the tag and starts the call, PrepareAsyncM does neither, and the unary AsyncM goes through its own PrepareAsyncM |
| OverloadClashes.StubClashIff | plugin/src/compiler/cpp_generator.cc:193-620 | for distinct method names: two functions of StubInterface, or of Stub, have one name and the same parameters if and only if some method is named like another with Raw behind it and their calls take the same, neither of them unary where there are no asynchronous calls |
| OverloadClashes.ClashMeans | plugin/src/compiler/cpp_generator.cc:193-620 | two functions that clash are always M's raw one and that of the method called MRaw |
| OverloadClashes.OthersNeverClash | plugin/src/compiler/cpp_generator.cc:637-810 | the functions of async, async_interface and Service never clash |
| OverloadClashes.FooRawClashes | plugin/src/compiler/cpp_generator.cc:193-620 | a counterexample: bidirectional methods Foo and FooRaw |
| ServerAgreement.EveryMixinFitsItsMethod | plugin/src/compiler/cpp_generator.cc:812-1400 | no mixin class stands outside the families: each is, member for member, the one some family has for some method i (MixinLists.MixinFor); which method, by place, is TypedefAgreement.MixinsFitInOrder |
| MixinLists.RoundIsMixin | plugin/src/compiler/cpp_generator.cc:812-1400 | a round of any mixin pass makes the one class written down from the method alone: public; the mark with the method's index, and in the callback and streamed families the handler of its kind over the request and response types in this order; the destructor; the override of the Service function where it is disabled; and the Request, reactor or Streamed function with its signature per kind, over the method's own types, or over ::grpc::ByteBuffer in the raw families |
| ServerAgreement.MixinsOverrideVirtuals | plugin/src/compiler/cpp_generator.cc:771-913 | whatever a mixin overrides to disable it, Service declares with that signature and virtual; without the synchronous API nothing is overridden |
| TypedefAgreement.TypedefsNestDeclaredMixins | plugin/src/compiler/cpp_generator.cc:1515-1641 | each service typedef, parsed as nested template applications, applies exactly the mixins of its family declared in the same class, in order; StreamedService those of both streamed families in method order; and there are no other typedefs |
| TypedefAgreement.OneMixinPerMethod | plugin/src/compiler/cpp_generator.cc:1507-1605 | each family has one mixin class per matching method in declaration order, and none if its API is off |
| TypedefAgreement.StreamedNamesAreDeclared | plugin/src/compiler/cpp_generator.cc:1618-1641 | a name is nested in StreamedService exactly if one of the two streamed families declares it |
| TypedefAgreement.MixinsFitInOrder | plugin/src/compiler/cpp_generator.cc:1507-1605 | the k-th mixin class of each generated family is, member for member, the one for the k-th matching method: its index, handler, override, signatures and message types are that method's; a family that is off has none |
| TypedefAgreement.EveryMixinHasItsPlace | plugin/src/compiler/cpp_generator.cc:1507-1605 | every mixin class of a service is found at one place of one generated family, and is the mixin of the method at that place |
| MixinFamilies.MatchingAscends | plugin/src/compiler/cpp_generator.cc:1582-1641 | the methods a family has mixins for: all of them and no others, in ascending order |
| FileAgreement.FilesAgree | plugin/src/compiler/cpp_generator.cc:1649-1678 | in the whole header and mock of any file, for each of its services in order: Stub implements StubInterface, wrappers match their private functions, the mock mocks the interface, the mixins of each family are member for member those of the matching methods and override virtual functions, and the typedefs nest the declared mixins |
| FileAgreement.ServiceClassesAre | plugin/src/compiler/cpp_generator.cc:1649-1678 | inside all guards and namespaces, behind the include of the messages, a whole header holds one final class per service, in order, with the members of that service, deprecated exactly if the service is and the option allows it |
| FileAgreement.MockClassesAre | plugin/src/compiler/cpp_generator.cc:2453-2482 | the same for the mock, behind its two includes: one class per service, based on its StubInterface |
| FileAgreement.FileTablesAgree | plugin/src/compiler/cpp_generator.cc:2210-2237 | in the whole source the tables, initializers and registrations stand service by service, one initializer and one registration per method of the file, and those of each service agree index by index, message types included, with its table, whose paths start with the package and a dot if there is a package, with its classes in the header and with the functions the file defines |
| FileStructure.HeaderAndMockAreBalanced | plugin/src/compiler/cpp_generator.cc:87-188 | braces, classes, typedefs, namespaces and include guards match over the whole header and the whole mock, for any services, methods and package parts; every closing comment names what it closes; all of the text is inside one guard |
| FileStructure.SourceIsBalanced | plugin/src/compiler/cpp_generator.cc:2239-2258 | the source is balanced too; its closing comments are right if and only if the package's parts read the same from both ends |
| FileStructure.HeaderPortsAreUndefined | plugin/src/compiler/cpp_generator.cc:128-165 | a header ends with the ports macros undefined and never defines them twice if and only if, among the additional includes, every ports_def.inc (by that name or behind a directory) is followed by a ports_undef.inc before the next ports_def.inc and before the end |
| FileStructure.AdditionalPortsDef | plugin/src/compiler/cpp_generator.cc:136-139 | a counterexample: with ports_def.inc as the one additional include, every header defines the macros twice |
| PortsIncludes.PortsOverIff | plugin/src/compiler/cpp_generator.cc:136-165 | over any list of includes, read one after the other, the macros end undefined without being defined twice exactly if every definition is undone before the next |
| FileStructure.TwoPartsAreMislabeled | plugin/src/compiler/cpp_generator.cc:2242-2250 | a counterexample: the closing comments of a source in package a.b are wrong |
| FileStructure.SourcePortsAreUndefined | plugin/src/compiler/cpp_generator.cc:2239-2258 | a source ends with the ports macros undefined if and only if the package is not empty; a mock always does |
| FileStructure.DistinctFilesHaveDistinctGuards | plugin/src/compiler/cpp_generator.cc:111-112 | the guards the reader finds around two headers, or two mocks, are equal exactly if the file names are |
| FileStructure.ClosedForwardRead | plugin/src/compiler/cpp_generator.cc:2242-2250 | closing n namespaces in the order of opening closes the right braces, with right labels exactly as far as the parts are mirrored |
| FileStructure.PartsSpellPackage | plugin/src/compiler/protobuf_plugin.h:165-167 | the parts a file's namespaces are named after hold no dot and, joined with dots, are the package |
| PlannedPlugin.PlannerMeetsPlugin | rules/src/grpcgen.cppm:334-366 | with the built-in plugin, whatever words the author adds: from an edge's command protoc reads its own generator into the output directory, the generator grpc bound to the plugin's executable, and parameters that parse without error; and the outputs the edge declares are, as a multiset, protoc's two files and the files the plugin writes when run with the parameters read; all this if and only if the output directory holds no colon |
| PlannedPlugin.IncludesAreDeclared | plugin/src/compiler/cpp_generator.cc:112-126 | the headers that the generated header, source and mock include first are, in the output directory, outputs of the planned edge |
| ProtocWords.CommandReadIff | rules/src/grpcgen.cppm:335-348 | read word by word, the command of any edge searches proto_dir, extra_dirs, imports and the well-known types in this order, runs protoc's generator and each plugin's into the output directory with its parameters, and binds each plugin's name to its executable, then come the author's words and the source: if and only if no plugin's name holds an '=' and neither a parameter nor the output directory a colon |
| ProtocWords.PluginsReadIff | rules/src/grpcgen.cppm:337-347 | the part of that for a list of plugins, two words each |
| ProtocWords.ColonIsMisread | rules/src/grpcgen.cppm:333-333 | a counterexample: with the output directory c:/out protoc's generator is told to write to /out, with the parameter c |
| Plugin.GeneratedHeaderIsIncluded | plugin/src/compiler/cpp_generator.cc:1712-1737 | the header includes first the file's stem with .pb.h, or the extension asked for; the source and the mock include that and then, by name, the header file the plugin writes |
| Plugin.Generate | plugin/src/compiler/cpp_plugin.h:58-180 | nothing is written unless every parameter is fine and, if import headers are asked for, every '$' in the kept part of an import's name has a partner with nothing or the extension's variable between them; then the header and source, each the join of its four parts, and the mock exactly if it is asked for |
| Emit.RenderAgrees | plugin/src/compiler/cpp_generator.cc:193-205 | a template whose variables are covered by an environment prints the same under every shared map that agrees with it there, whatever earlier passes left in the map |
| Emit.Printer.Print | plugin/src/compiler/cpp_generator.cc:193-205 | Print(vars, template): needs every variable of the template set to the value meant, and appends the template with those values |
| Emit.Printer.PrintComments | plugin/src/compiler/cpp_generator.cc:1407-1407 | an escaped comment printed as a template comes out as the comment of the .proto |
| Emit.Printer.Outdent | plugin/src/compiler/cpp_generator.cc:1461-1463 | refused at indent zero, so no run can drop below its start |
| Emit.SetMethod | plugin/src/compiler/cpp_generator.cc:197-199 | the assignments every pass begins with set the method's three values and leave the service's variables alone |
| ClientHeader.PrintHeaderClientMethodInterfaces | plugin/src/compiler/cpp_generator.cc:193-411 | adds the wrappers or pure virtual functions of StubInterface for the method's kind, each with the values of this method only; indent restored |
| ClientHeader.PrintHeaderClientMethod | plugin/src/compiler/cpp_generator.cc:413-620 | the same for Stub |
| ClientHeader.PrintHeaderClientMethodCallbackInterfaces | plugin/src/compiler/cpp_generator.cc:637-671 | adds the callback interface of the method's kind; two functions for a unary method |
| ClientHeader.PrintHeaderClientMethodCallback | plugin/src/compiler/cpp_generator.cc:706-741 | adds the overrides of Stub::async |
| ClientHeader.PrintHeaderClientMethodData | plugin/src/compiler/cpp_generator.cc:763-769 | adds the method's RpcMethod member, setting the method's name in the map and nothing else |
| ClientHeader.PrintHeaderClientMethodCallbackInterfacesStart | plugin/src/compiler/cpp_generator.cc:622-635 | opens async_interface and indents |
| ClientHeader.PrintHeaderClientMethodCallbackInterfacesEnd | plugin/src/compiler/cpp_generator.cc:673-694 | outdents and closes it |
| ClientHeader.PrintHeaderClientMethodCallbackStart | plugin/src/compiler/cpp_generator.cc:696-704 | opens async, whose brace comes with its second print, and indents |
| ClientHeader.PrintHeaderClientMethodCallbackEnd | plugin/src/compiler/cpp_generator.cc:743-761 | closes it |
| ClientHeader.PrintAsyncBlocks | plugin/src/compiler/cpp_generator.cc:216-234 | the loop over async_prefixes: each round with the entry's own prefix, parameters and arguments |
| ServerHeader.PrintHeaderServerMethodSync | plugin/src/compiler/cpp_generator.cc:771-810 | adds the Service function, virtual exactly under the synchronous API, between its comments |
| ServerHeader.PrintHeaderServerAsyncMethodsHelper | plugin/src/compiler/cpp_generator.cc:812-913 | adds the disabling override, if any, and the Request function with the index |
| ServerHeader.PrintHeaderServerMethodAsync | plugin/src/compiler/cpp_generator.cc:915-949 | adds the asynchronous mixin of method i |
| ServerHeader.PrintHeaderServerCallbackMethodsHelper | plugin/src/compiler/cpp_generator.cc:951-1030 | adds the disabling override, if any, and the virtual reactor function |
| ServerHeader.PrintHeaderServerMethodCallback | plugin/src/compiler/cpp_generator.cc:1032-1113 | adds the callback mixin; the unary one splits its constructor from SetMessageAllocatorFor across prints |
| ServerHeader.PrintHeaderServerMethodRawCallback | plugin/src/compiler/cpp_generator.cc:1115-1185 | adds the raw callback mixin over byte buffers |
| ServerHeader.PrintHeaderServerMethodStreamedUnary | plugin/src/compiler/cpp_generator.cc:1187-1239 | adds the streamed mixin for a unary method, nothing otherwise |
| ServerHeader.PrintHeaderServerMethodSplitStreaming | plugin/src/compiler/cpp_generator.cc:1241-1294 | adds the split mixin for a server-streaming method, nothing otherwise |
| ServerHeader.PrintHeaderServerMethodGeneric | plugin/src/compiler/cpp_generator.cc:1296-1368 | adds the generic mixin |
| ServerHeader.PrintHeaderServerMethodRaw | plugin/src/compiler/cpp_generator.cc:1370-1400 | adds the raw asynchronous mixin over byte buffers |
| HeaderService.PrintHeaderService | plugin/src/compiler/cpp_generator.cc:1402-1647 | the passes in the source's order under the three API options; indent restored, and of the shared map only per-method variables and the service's name change |
| HeaderService.PrintEvery | plugin/src/compiler/cpp_generator.cc:1439-1444 | one loop over the methods: the pass's output for each in turn, with `$Idx$` the method's place for the mixin passes |
| HeaderService.PrintTypedef | plugin/src/compiler/cpp_generator.cc:1515-1527 | the two loops of a typedef, openers and closers |
| HeaderFacts.HeaderServiceRead | plugin/src/compiler/cpp_generator.cc:1402-1647 | after any well-formed text, a service's header text is read as one closed class, and the reader is back in the scope it came from with nothing else changed |
| HeaderFacts.TypedefRead | plugin/src/compiler/cpp_generator.cc:1515-1527 | a typedef's openers and closers are read as the nested application over the filtered methods |
| HeaderFacts.OneCloserPerOpener | plugin/src/compiler/cpp_generator.cc:1623-1640 | each of the five filters prints as many closers as openers, the two-test opener loop of StreamedService included |
| ServerFacts.CallbackMarksRead | plugin/src/compiler/cpp_generator.cc:1047-1096 | the split constructor text of the callback mixin balances for all kinds |
| SourceService.PrintSourceClientMethod | plugin/src/compiler/cpp_generator.cc:1774-1996 | adds the definitions of the method's kind, each head with its body |
| SourceService.PrintSourceServerMethod | plugin/src/compiler/cpp_generator.cc:1998-2068 | adds the unimplemented default, aborting without the synchronous API |
| SourceService.PrintSourceService | plugin/src/compiler/cpp_generator.cc:2070-2208 | table, NewStub, stub constructor, client definitions, service constructor and destructor, server defaults |
| SourceService.PrintSourceEvery | plugin/src/compiler/cpp_generator.cc:2096-2126 | one loop over the methods, with `$StreamingType$` or `$Idx$` of the method at hand |
| SourceFacts.SourceServiceRead | plugin/src/compiler/cpp_generator.cc:2070-2208 | after any well-formed text, a service's source is read completely and leaves the reader in the same scope |
| MockService.PrintMockClientMethods | plugin/src/compiler/cpp_generator.cc:2343-2434 | adds the mocks of the method's kind, the parameter count of the streaming ones computed from the prefix table |
| MockService.PrintMockService | plugin/src/compiler/cpp_generator.cc:2436-2451 | adds the mock class of a service |
| MockFacts.MockServiceRead | plugin/src/compiler/cpp_generator.cc:2436-2451 | a mock service is read as one closed class |
| Signatures.InterfaceSigs | plugin/src/compiler/cpp_generator.cc:193-411 | the templates of the blocking functions of StubInterface, which the source spells out per kind, all render to the one signature the streaming kind calls for |
| Signatures.InterfaceAsyncSigs | plugin/src/compiler/cpp_generator.cc:193-411 | the templates of the asynchronous functions of StubInterface, which the source spells out per kind, all render to the one signature the streaming kind calls for |
| Signatures.StubSigs | plugin/src/compiler/cpp_generator.cc:413-620 | the templates of the blocking functions of Stub, which the source spells out per kind, all render to the one signature the streaming kind calls for |
| Signatures.StubAsyncSigs | plugin/src/compiler/cpp_generator.cc:413-620 | the templates of the asynchronous functions of Stub, which the source spells out per kind, all render to the one signature the streaming kind calls for |
| Signatures.CallbackSigs | plugin/src/compiler/cpp_generator.cc:637-741 | the templates of async_interface and async, which the source spells out per kind, all render to the one signature the streaming kind calls for |
| Signatures.DefinitionSigs | plugin/src/compiler/cpp_generator.cc:1774-1996 | the templates of the blocking and callback definitions, which the source spells out per kind, all render to the one signature the streaming kind calls for |
| Signatures.AsyncDefinitionSigs | plugin/src/compiler/cpp_generator.cc:1848-1994 | the templates of the asynchronous definitions, which the source spells out per kind, all render to the one signature the streaming kind calls for |
| Signatures.ServiceSigs | plugin/src/compiler/cpp_generator.cc:771-1030 | the templates of Service, its definitions and every override that disables it, which the source spells out per kind, all render to the one signature the streaming kind calls for |
| Signatures.MockSigs | plugin/src/compiler/cpp_generator.cc:2343-2434 | the templates of the blocking mocks, which the source spells out per kind, all render to the one signature the streaming kind calls for |
| Signatures.MockAsyncSigs | plugin/src/compiler/cpp_generator.cc:2343-2434 | the templates of the asynchronous mocks, which the source spells out per kind, all render to the one signature the streaming kind calls for |
| Outputs.PrintIncludes | plugin/src/compiler/cpp_generator.cc:66-85 | one include per header, between the delimiters and behind the search path |
| Outputs.IncludesAre | plugin/src/compiler/cpp_generator.cc:66-85 | each in a line of its own, in order: angle brackets for system headers and quotes otherwise, the search path closed by one slash |
| Outputs.GetHeaderPrologue | plugin/src/compiler/cpp_generator.cc:87-119 | banner, raw file comments if there are any, guard, message header |
| Outputs.GetHeaderIncludes | plugin/src/compiler/cpp_generator.cc:128-191 | additional and standard includes, imports, namespaces opened in order; fails exactly if some import's name has an unpaired '$' or another name between two of them |
| Outputs.GetHeaderServices | plugin/src/compiler/cpp_generator.cc:1649-1678 | every service, inside the services namespace if there is one |
| Outputs.GetHeaderEpilogue | plugin/src/compiler/cpp_generator.cc:1680-1710 | namespaces closed in reverse, ports_undef.inc, end of guard, trailing comments |
| Outputs.GetSourcePrologue | plugin/src/compiler/cpp_generator.cc:1712-1737 | banner, message and service header |
| Outputs.GetSourceIncludes | plugin/src/compiler/cpp_generator.cc:1739-1772 | standard includes, namespaces opened in order |
| Outputs.GetSourceServices | plugin/src/compiler/cpp_generator.cc:2210-2237 | every service, with `$ns$` and `$prefix$` from the services namespace |
| Outputs.GetSourceEpilogue | plugin/src/compiler/cpp_generator.cc:2239-2258 | closing lines in forward order and ports_undef.inc, for a package only |
| Outputs.GetMockPrologue | plugin/src/compiler/cpp_generator.cc:2260-2298 | banner, guard, headers, imports; fails exactly if the printer does on an import line |
| Outputs.GetMockIncludes | plugin/src/compiler/cpp_generator.cc:2301-2341 | includes with the gmock search path rule, namespaces |
| Outputs.GetMockServices | plugin/src/compiler/cpp_generator.cc:2453-2482 | the mock of every service |
| Outputs.GetMockEpilogue | plugin/src/compiler/cpp_generator.cc:2484-2507 | namespaces closed in reverse, end of guard |
| Guards.FilenameIdentifier | plugin/src/compiler/cpp_generator.cc:43-57 | the loop computes the per-character code of the file name |
| Guards.DecodedIdentifier | plugin/src/compiler/cpp_generator.cc:43-57 | an explicit decoder gives every byte string back, so the identifier is injective |
| Guards.IdentifierShape | plugin/src/compiler/cpp_generator.cc:43-57 | letters, digits and underscores only; between n and 3n characters |
| Guards.OwnIdentifierIff | plugin/src/compiler/cpp_generator.cc:43-57 | a name is its own identifier if and only if it holds letters and digits alone |
| Guards.GuardsAreInjective | plugin/src/compiler/cpp_generator.cc:111-112 | header guards, and mock guards, are equal exactly for equal file names |
| Guards.GuardFamiliesClash | plugin/src/compiler/cpp_generator.cc:2278-2279 | a header's guard equals a mock's exactly if the header's file is named MOCK, an escaped byte and a rest, and the mock's file that byte's two hex digits and the rest |
| Guards.HeaderAndMockShareGuard | plugin/src/compiler/cpp_generator.cc:2278-2279 | a counterexample: the header of MOCK_abc.proto and the mock of 5fabc.proto have one guard |
| TemplatePieces.ExpandIsSubstituted | plugin/src/compiler/cpp_generator.cc:81-84 | the printer's left-to-right reading of any template is its split at '$' with every second piece looked up, or a '$' if it is empty |
| TemplatePieces.ExpandsIff | plugin/src/compiler/cpp_generator.cc:81-84 | a template can be printed if and only if its split at '$' has an odd number of pieces and every second one is empty or a known name |
| ImportLines.ImportExpandsIff | plugin/src/compiler/cpp_generator.cc:168-175 | a header's import line can be printed if and only if the '$' of the name's kept part are paired around nothing or the extension's variable |
| ImportLines.ImportLineIff | plugin/src/compiler/cpp_generator.cc:168-175 | if the extension holds no '$': the line includes the import's own message header if and only if the name's kept part holds none either; any other line that can be printed has fewer |
| Outputs.ImportsExpandIff | plugin/src/compiler/cpp_generator.cc:171-177 | over all imports of a file: the header's import lines can be printed if and only if all names are paired like that |
| Outputs.ImportsRightIff | plugin/src/compiler/cpp_generator.cc:171-177 | over all imports of a file: every line includes its import's own header if and only if no kept part holds a '$' |
| Outputs.ImportsAre | plugin/src/compiler/cpp_generator.cc:121-126 | where they do, the lines come out one each, in the order of the imports, each the quoted stem and extension |
| ImportLines.PlainImport | plugin/src/compiler/cpp_generator.cc:121-126 | for a name whose part without the last six characters holds no dollar, the import line is that part and the message header extension, under any variables |
| ImportLines.ExpandMore | plugin/src/compiler/cpp_generator.cc:168-175 | an import line that expands in the header, where the extension is the only variable, expands to the same with the mock's variables |
| ImportLines.DollarImportFails | plugin/src/compiler/cpp_generator.cc:121-126 | a counterexample: the printer fails on the import line of a$b.proto |
| ImportLines.DoubleDollarImport | plugin/src/compiler/cpp_generator.cc:121-126 | a counterexample: for a$$b.proto the line is printed, and it includes the header of a$b.proto |
| VariableText.ExpandSpelled | plugin/src/compiler/cpp_generator.cc:81-84 | variables and escapes read left to right: a template spelled from pieces expands to the pieces' values |
| VariableText.AdjacentVariables | plugin/src/compiler/cpp_generator.cc:83-83 | `$l$$h$$r$` is three variables, not an escaped dollar |
| VariableText.EscapeVariableDelimiters | plugin/src/compiler/proto_parser_helper.cc:19-27 | the in-place loop doubles every dollar |
| VariableText.ExpandEscaped | plugin/src/compiler/proto_parser_helper.cc:19-27 | printing an escaped text gives the text, whatever the variables |
| VariableText.GenerateCommentsWithPrefix | plugin/src/compiler/generator_helpers.h:250-264 | one prefixed, escaped line per comment line |
| VariableText.CommentsSurvivePrinting | plugin/src/compiler/generator_helpers.h:250-264 | printed as a template, the comment text has the .proto's characters, for any bindings |
| VariableText.CommentLines | plugin/src/compiler/generator_helpers.h:250-264 | every resulting line starts with the prefix, one for each comment line |
| VariableText.RawCommentsIff | plugin/src/compiler/cpp_generator.cc:106-110 | printed raw, as file comments are, the text is the comment if and only if no line holds a dollar |
| VariableText.RawDollarIsDoubled | plugin/src/compiler/cpp_generator.cc:106-110 | a counterexample: a$b comes out as a$$b |
| Tokens.Tokenize | plugin/src/compiler/generator_helpers.h:91-109 | the find_first_of loop computes the delimiter-free pieces |
| Tokens.JoinPieces | plugin/src/compiler/generator_helpers.h:91-109 | joining the pieces of a one-character tokenize gives the input back |
| Tokens.PiecesJoin | plugin/src/compiler/generator_helpers.h:91-109 | tokenizing a join of delimiter-free tokens gives the tokens back |
| Tokens.PiecesAreFree | plugin/src/compiler/generator_helpers.h:91-109 | no piece holds a delimiter |
| Tokens.LinesDropTrailingEmpty | plugin/src/compiler/ruby_generator_string-inl.h:36-51 | the getline split is tokenize without one trailing empty piece of a non-empty input |
| Tokens.GetlineSplit | plugin/src/compiler/ruby_generator_string-inl.h:36-51 | the getline loop computes it |
| Tokens.PythonSplit | plugin/src/compiler/python_generator_helpers.h:139-156 | the index loop computes it too, except on the empty string |
| Tokens.SplitsCompared | plugin/src/compiler/python_generator_helpers.h:139-156 | the two splits differ on the empty string and nowhere else |
| Replace.StringReplace | plugin/src/compiler/generator_helpers.h:70-84 | for a non-empty pattern the loop ends and gives the leftmost split joined with the replacement, even if that contains the pattern |
| Replace.SplitIsLeftmost | plugin/src/compiler/generator_helpers.h:70-84 | the split is at leftmost, non-overlapping occurrences and joins back to the input |
| Replace.LeftmostIsUnique | plugin/src/compiler/generator_helpers.h:70-84 | there is only one such split |
| Replace.ReplaceAll | plugin/src/compiler/ruby_generator_string-inl.h:65-73 | Ruby's loop computes the same function |
| Replace.ReplacePrefix | plugin/src/compiler/ruby_generator_string-inl.h:76-84 | replaces at the start only, and says whether it did |
| Replace.StripSuffix | plugin/src/compiler/generator_helpers.h:39-51 | strips the suffix, compared without case, and says whether it did |
| Replace.StripProto | plugin/src/compiler/generator_helpers.h:63-68 | strips .protodevel or else .proto |
| Replace.StrippedIs | plugin/src/compiler/generator_helpers.h:39-68 | in letters of either case, .protodevel first, and nothing else |
| CamelCase.LowerUnderscoreToUpperCamel | plugin/src/compiler/generator_helpers.h:127-134 | tokenize, capitalise, concatenate |
| CamelCase.Modularize | plugin/src/compiler/ruby_generator_string-inl.h:87-103 | the one-pass state machine computes its specification |
| CamelCase.CapitalizedIs | plugin/src/compiler/generator_helpers.h:111-117 | a capitalized word starts with no small letter and is otherwise unchanged |
| CamelCase.CamelKeepsLetters | plugin/src/compiler/generator_helpers.h:127-134 | the tokenizing form changes the case of letters and drops underscores, and does nothing else |
| CamelCase.ModularizeKeepsLetters | plugin/src/compiler/ruby_generator_string-inl.h:87-103 | so does the state machine |
| CamelCase.CamelFormsAgree | plugin/src/compiler/ruby_generator_string-inl.h:87-103 | the two forms agree if and only if the name does not begin with an underscore |
| CamelCase.LeadingUnderscoreDiffers | plugin/src/compiler/ruby_generator_string-inl.h:87-103 | a counterexample: _a becomes _a by one form and A by the other |
| PythonNames.StripModulePrefixes | plugin/src/compiler/python_generator_helpers.h:52-62 | removes the first prefix in the list that the name starts with |
| PythonNames.ModuleName | plugin/src/compiler/python_generator_helpers.h:67-75 | the in-place passes equal one per-character map and a suffix, prefixes stripped |
| PythonNames.ModuleAlias | plugin/src/compiler/python_generator_helpers.h:80-91 | the two in-place passes compute the per-character prefix code |
| PythonNames.TwoPasses | plugin/src/compiler/python_generator_helpers.h:80-91 | doubling underscores and then spelling dots out equals one pass, because the first introduces no dot |
| PythonNames.UnaliasAlias | plugin/src/compiler/python_generator_helpers.h:80-91 | a decoder gives the module name back from the alias |
| PythonNames.AliasHasNoDot | plugin/src/compiler/python_generator_helpers.h:80-91 | an alias holds no dot |
| PythonNames.AliasesCollide | plugin/src/compiler/python_generator_helpers.h:80-91 | two aliases are equal exactly if the module names are |
| PythonNames.GetModuleAndMessagePath | plugin/src/compiler/python_generator_helpers.h:93-125 | the outermost name first, dotted; behind the module's alias and a dot exactly if the message is of another file or the module is _pb2_grpc; `find_last_of` tests the last character only |
| PluginParameters.ParseParameters | plugin/src/compiler/cpp_plugin.h:80-153 | the loop succeeds with the settled options, or stops at the first unknown, badly valued or valueless token and names it; which field each key sets is ParameterKeys.TextKeys and BooleanKeys |
| ParameterKeys.TextKeys | plugin/src/compiler/cpp_plugin.h:83-142 | for each of the five text keys, spelled out, and every value free of '=' and ',': key=value parses to the defaults with exactly the field of that name set to the value, the additional includes split at colons |
| ParameterKeys.BooleanKeys | plugin/src/compiler/cpp_plugin.h:85-148 | for each of the six boolean keys: to the defaults with exactly the field of that name set to whether the value is true, and to an error that quotes the parameter for anything but true and false |
| ParameterKeys.OtherKeys | plugin/src/compiler/cpp_plugin.h:148-151 | any other key is refused as unknown, quoting the parameter |
| ParameterKeys.NothingYieldsDefaults | plugin/src/compiler/cpp_plugin.h:70-76 | no parameters leave the defaults |
| PluginParameters.ParsedIffAllFine | plugin/src/compiler/cpp_plugin.h:80-153 | it succeeds exactly if every token is fine |
| PluginParameters.OutcomeIsUnique | plugin/src/compiler/cpp_plugin.h:80-153 | tokens determine the outcome, the error included |
| PluginParameters.SettledSnoc | plugin/src/compiler/cpp_plugin.h:80-153 | last setting wins, but generate_mock_code and include_import_headers stay on once on |
| PluginParameters.MocksStayOn | plugin/src/compiler/cpp_plugin.h:96-104 | a counterexample to last setting wins: true and then false leaves mocks on |
| PluginParameters.KeyAloneIsOutOfRange | plugin/src/compiler/cpp_plugin.h:82-104 | a known key by itself is an access past the vector's end |
| PluginParameters.ParseToken | plugin/src/compiler/cpp_plugin.h:82-152 | one token against the options so far; what each key does, by name, is ParameterKeys.TextKeys and BooleanKeys |
| BuildPlanner.JoinParams | rules/src/grpcgen.cppm:338-342 | the loop joins the parameters with commas, leading empty ones dropped |
| BuildPlanner.FillCommand | rules/src/grpcgen.cppm:335-348 | the command line, word for word; what protoc reads in it is ProtocWords.CommandReadIff |
| BuildPlanner.FillOutputs | rules/src/grpcgen.cppm:364-366 | protoc's two outputs, then every suffix of every plugin |
| BuildPlanner.FillInputs | rules/src/grpcgen.cppm:350-350 | every .proto of the plan |
| BuildPlanner.Describe | rules/src/grpcgen.cppm:186-223 | the loops build the description: plugins with their mock marks, then the author's roots, relative where that is readable |
| BuildPlanner.PlanEntriesInto | rules/src/grpcgen.cppm:262-371 | one edge per entry, with its description, command, inputs and outputs, or the first reason to refuse |
| BuildPlanner.PlanAllFrom | rules/src/grpcgen.cppm:407-457 | scans the roots in order and plans what it found, each root up to the first file whose status is an error |
| BuildPlanner.ScanRoots | rules/src/grpcgen.cppm:418-450 | stops at the first missing root, one glob per root looked at |
| BuildPlanner.CollectNames | rules/src/grpcgen.cppm:433-441 | regular files with extension .proto, by relative stem, up to the file behind one whose status is an error |
| BuildPlanner.Submit | rules/src/grpcgen.cppm:464-487 | one source action per edge, each field the edge's own, and the output directory; nothing without edges |
| PlanProperties.PlanIsDeterministic | rules/src/grpcgen.cppm:433-445 | listings that are permutations of one another give the same plan, refusals included, if no file of unreadable status stands in a root that holds a .proto |
| PlanProperties.OrderFreeIff | rules/src/grpcgen.cppm:432-441 | the edges are the same for all orders of enumeration if and only if the plan is refused anyway or no root holds both a .proto and a file of unreadable status |
| PlanProperties.DanglingLinkHidesProto | rules/src/grpcgen.cppm:432-441 | a counterexample: beside a link that leads nowhere, a .proto is planned in one order and missed in the other |
| PlanProperties.GroupedAndSorted | rules/src/grpcgen.cppm:418-448 | entries come by root in order, each group sorted and a permutation of the root's names |
| PlanProperties.PlannedByRoot | rules/src/grpcgen.cppm:415-457 | the edges of plan_all: first those of proto_dir, then those of each of extra_dirs in the author's order, in each group one edge per .proto reached, by sorted name, with its id and its source; as many as that in all, so none for the imports |
| PlanProperties.EveryEdgeHasAllInputs | rules/src/grpcgen.cppm:310-350 | all edges of plan_all have the same inputs, one per edge: a path is among them exactly if it is a .proto the scan of some root reached; an edge's own source is the input at its own place and the last word of its command |
| PlanProperties.ShareOutputIff | rules/src/grpcgen.cppm:364-366 | with any plugins, two edges share an output exactly if some suffixes make their names meet |
| PlanProperties.ShareOutputBuiltIn | rules/src/grpcgen.cppm:113-124 | with the built-in plugin: exactly if the names are equal or one is the other plus .grpc, _mock or _mock.grpc; fewer without mocks or gRPC |
| NameOrder.SortSorts | rules/src/grpcgen.cppm:444-445 | sorting gives a sorted permutation |
| NameOrder.SortedIsUnique | rules/src/grpcgen.cppm:444-445 | there is only one, so the algorithm does not matter |
| NameOrder.LessEqIff | rules/src/grpcgen.cppm:444-445 | the order is that of a dictionary: a prefix first, otherwise the first character that differs decides |
| SourceLists.Collect | tools/gen_sources.py:57-79 | first occurrences in order, split into core and c-ares |
| SourceLists.CollectPartitions | tools/gen_sources.py:67-79 | the c-ares list holds the sources with /c_ares/ in them or ares_resolver.cc at the end, the core list all others but the duplicate descriptor; there are no lists exactly if that one is missing or no source is of c-ares |
| SourceLists.CollectedInOrder | tools/gen_sources.py:57-79 | within each list the sources come in the order the targets first name them |
| SourceLists.FirstsAreDistinct | tools/gen_sources.py:59-64 | no source is listed twice |
| SourceLists.RenderedIsClean | tools/gen_sources.py:91-93 | a rendered body holds neither the end of an array nor the start of one nor a section marker |
| ManifestEntries.RenderedEntriesIff | tools/gen_sources.py:82-93 | reading the quoted entries of a rendered body, comments skipped, gives the two library roots, if asked for, and then every path under third_party/grpc-1.83.0, in order: if and only if no path holds a quote or a line end |
| ManifestArrays.RewriteTwice | tools/gen_sources.py:116-118 | when both sections are found, rewriting twice is rewriting once, unless the ares array is left open and swallows a build header behind it |
| ManifestArrays.LocateIs | tools/gen_sources.py:96-101 | the array replaced is opened by the first opening line behind the first header of the section and ends at the first bracket at the end of a line behind that; it is missing exactly if one of the three is |
| ManifestArrays.LeftOpenBreaks | tools/gen_sources.py:96-101 | if it is left open like that, and there is one build header, the header is gone after the first rewrite and the second fails |
| ManifestArrays.RewriteIdempotentIff | tools/gen_sources.py:116-118 | with one build header: rewriting is idempotent if and only if the bracket that ends the ares array is not that of the build header |
| ManifestArrays.OnlyBodiesChange | tools/gen_sources.py:96-118 | if the build array closes in front of the ares section, no character outside the two array bodies changes |
| ManifestEntries.RewrittenArrays | tools/gen_sources.py:96-118 | after a rewrite the ares array holds the ares body; the build array the core body, or the ares body if the sections share one array, and with one build header that header is gone if the ares array was left open in front of it |
| OpenManifest.RewriteOnceOnly | tools/gen_sources.py:96-118 | a counterexample in valid TOML: the first rewrite succeeds for any clean bodies, and the second fails |
| GenSources.GenSources | tools/gen_sources.py:104-129 | one run of the script: how it ends and what it leaves in the manifest; what the arrays then list is ManifestEntries.WrittenArrays |
| ManifestEntries.WrittenArrays | tools/gen_sources.py:104-129 | after a run that wrote: the entries of the [features.ares] array are the c-ares sources under the vendored tree, in order; those of the [build] array the two library roots and all other sources, and with one build header this is so if and only if the sections do not share an array and the ares array was not left open |
| SharedManifest.SharedManifestListsAres | tools/gen_sources.py:104-129 | a counterexample: with an empty [features.ares] in front of [build], a run writes the manifest and its [build] array lists the c-ares sources alone |
| GenSources.RunTwice | tools/gen_sources.py:104-129 | for collected and rendered upstream lists: after a run that wrote, a second run writes the same text and a check passes, unless the ares array is left open |
| GenSources.RunTwiceIff | tools/gen_sources.py:104-129 | with one build header this is exact: otherwise the second run and the check both fail for want of a section |
| GenSources.OpenManifestRunsOnce | tools/gen_sources.py:104-129 | the counterexample as runs of the script |
| Decimal.NumberDec | plugin/src/compiler/cpp_generator.cc:28-33 | numerals read back, so different indices have different numerals |

## Left out

- C++ text beyond its structure: a template is a declaration, a call, a class head, a table entry and so on with its names and types; spelling, spacing and the bodies of fixed accessors are not modelled, and the braces of a fixed text are listed in a table (`Emit.BracesOf`, `Emit.BracesOfUse`).
- Parameter names: signatures hold types only, which is what overriding and linking depend on.
- The protobuf printer beyond `$name$`, `$$`, raw text and the indent level; what indentation does to the characters of a line.
- HeaderService.PrintEvery: the loops of one kind over a service's methods are one method, `PrintEvery` or `PrintSourceEvery`, with the pass as its argument, instead of one loop written out for each pass.
- Guards.DecodedIdentifier: characters are bytes, below 256, as in the source's char.
- Descriptors are plain values: lookups, options other than `deprecated`, and editions are not part of this model; `additional_headers()`, which is empty for protobuf files, prints nothing.
- Uniqueness of method names within a service, which protobuf enforces, is assumed where functions of one class are compared (`OverloadClashes`) and nowhere else; clashes with data members, the constructor of Stub and fixed accessors are not modelled.
- ProtocWords.CommandReadIff: protoc's words are read as on a system without drive letters, where a value is split at its first colon; protoc's own checks of the words are not part of this model.
- Replace.StringReplace: an empty pattern, on which the source does not terminate, is excluded by a precondition.
- PluginParameters.ParseParameters: reading past the vector's end for a known key without `=` is undefined in the source and is an outcome of its own here.
- The build tool's calls (dependencies, globs, submission), directory creation, the directory iterator and path normalisation are inputs of the planner or logged results.
- BuildPlanner.PlanAllFrom: the exception that ends the program when the directory iterator cannot advance is not modelled; a root it cannot open at all is an empty listing.
- The regular expression of `target_sources`, argument parsing, file reads and writes and diagnostics of `tools/gen_sources.py`.
- Locale: `isalnum`, `toupper` and `tolower` are the ASCII ones.
- Further helpers of the header-only files (Ruby type names, file names in camel case, prefixes, C#, Objective-C, PHP, Node and Python emitters), which would add only easy members.
