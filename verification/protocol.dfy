/** The messages exchanged with the server. The wire encoding is out of the
    model: each message is a plain datatype whose fields are the fields the
    client reads or writes. */
module Protocol {
  import opened Wrappers

  datatype Service = Service(address: string)

  /** The session announcement sent once after connecting. */
  datatype Hello = Hello(
    workingDirectory: string,
    ciProvider: string,
    slug: string,
    commitHash: string,
    branchName: string,
    pullRequest: string,
    tag: string,
    jobId: string,
    buildUrl: string,
    buildId: string,
    authorName: string,
    authorEmail: string,
    authorEmailDomain: string,
    authorAvatar: string,
    services: seq<Service>)

  const EmptyHello := Hello("", "", "", "", "", "", "", "", "", "", "", "", "", "", [])

  // ---- server to client ----

  datatype TcpWriteCall = TcpWriteCall(connectionId: uint32, writerId: uint32, data: seq<byte>)
  datatype TcpReadCall = TcpReadCall(connectionId: uint32, readerId: uint32, bufferSize: uint32)
  datatype TcpDialCall = TcpDialCall(connectionId: uint32, address: string)
  datatype TerminalData = TerminalData(data: seq<byte>)
  datatype TerminalWidth = TerminalWidth(newWidth: uint32)
  datatype FileRead = FileRead(path: string)
  datatype FileReadDir = FileReadDir(path: string)
  datatype HelloResponse = HelloResponse(dashboardUrl: string)

  /** An inbound message: every payload is optional, and more than one may be
      present; the dispatcher decides which one counts. */
  datatype Inbound = Inbound(
    listenerId: uint32,
    tcpWriteCall: Option<TcpWriteCall>,
    tcpReadCall: Option<TcpReadCall>,
    tcpDialCall: Option<TcpDialCall>,
    terminalWrite: Option<TerminalData>,
    terminalWidth: Option<TerminalWidth>,
    fileRead: Option<FileRead>,
    fileReadDir: Option<FileReadDir>,
    helloResponse: Option<HelloResponse>,
    error: string,
    close: bool)

  const EmptyInbound := Inbound(0, None, None, None, None, None, None, None, None, "", false)

  // ---- client to server ----

  datatype TcpDialResult = TcpDialResult(connectionId: uint32, address: string, error: string)
  datatype TcpReadResult = TcpReadResult(
    connectionId: uint32, readerId: uint32, bytesRead: uint32, data: seq<byte>, error: string)
  datatype TcpWriteResult = TcpWriteResult(
    connectionId: uint32, writerId: uint32, bytesWritten: uint32, error: string)
  datatype FileReadResult = FileReadResult(data: seq<byte>, path: string, mimeType: string, error: string)
  datatype DirEntry = DirEntry(name: string, isDir: bool, isEmpty: bool, path: string, mimeType: string)
  datatype FileReadDirResult = FileReadDirResult(entries: seq<DirEntry>, path: string, error: string)

  datatype OutboundSpec =
    | HelloMessage(hello: Hello)
    | DialResult(dial: TcpDialResult)
    | ReadResult(read: TcpReadResult)
    | WriteResult(write: TcpWriteResult)
    | TerminalOutput(output: TerminalData)
    | FileResult(file: FileReadResult)
    | DirResult(dir: FileReadDirResult)

  /** An outbound message; only the file handlers fill in `listenerId`, every
      other sender leaves it at its zero value. */
  datatype Outbound = Outbound(listenerId: uint32, spec: OutboundSpec)

  predicate IsFileResponse(o: Outbound)
  {
    o.spec.FileResult? || o.spec.DirResult?
  }
}
