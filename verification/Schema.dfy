// The descriptors the generator walks over, as plain values, and the options
// that reach it from the plugin's parameter string.
module Schema {

  // The four streaming shapes. Each emitter pass branches over them.
  datatype Kind = Unary | ClientStreaming | ServerStreaming | BidiStreaming

  datatype Method = Method(
    name: string,
    inputType: string,
    outputType: string,
    clientStreaming: bool,
    serverStreaming: bool,
    leading: seq<string>,   // comment lines, as written in the .proto
    trailing: seq<string>)
  {
    predicate NoStreaming() { !clientStreaming && !serverStreaming }
    predicate ClientOnlyStreaming() { clientStreaming && !serverStreaming }
    predicate ServerOnlyStreaming() { !clientStreaming && serverStreaming }
    predicate IsBidiStreaming() { clientStreaming && serverStreaming }

    function Kind(): Kind {
      if clientStreaming then
        if serverStreaming then BidiStreaming else ClientStreaming
      else
        if serverStreaming then ServerStreaming else Unary
    }
  }

  datatype Service = Service(
    name: string,
    deprecated: bool,
    methods: seq<Method>,
    leading: seq<string>,
    trailing: seq<string>)

  datatype File = File(
    filename: string,
    package: string,
    importNames: seq<string>,
    services: seq<Service>,
    leading: seq<string>,
    trailing: seq<string>)

  datatype Parameters = Parameters(
    servicesNamespace: string,
    useSystemHeaders: bool,
    grpcSearchPath: string,
    generateMockCode: bool,
    gmockSearchPath: string,
    additionalHeaderIncludes: seq<string>,
    messageHeaderExtension: string,
    includeImportHeaders: bool,
    allowSyncServerApi: bool,
    allowCqApi: bool,
    allowDeprecated: bool)
}
