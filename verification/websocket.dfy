/** The websocket transport: the frame-type check of a read, the send of
    one encoded message, the connect with its status mapping, and the
    classification of read errors. The websocket library and the protobuf
    encoder are abstract: their outcomes are parameters. */
module Websocket {
  import opened Wrappers
  import opened GoStrings

  /** The websocket message type of binary frames. */
  const BinaryMessage := 2

  /** Close codes for a peer that went away and for a connection that
      dropped without a close frame (section 7.4.1 of RFC 6455). */
  const CloseGoingAway := 1001
  const CloseAbnormalClosure := 1006

  /** The error a read reports, by the cause the receive loop looks at. */
  datatype WsError =
    | Eof
    | CloseError(code: int, text: ErrorText)
    | OtherError(text: ErrorText)

  /** What the library yields for one read: the reader could not be
      obtained, or a frame of some type whose body was copied, possibly
      with an error part way. */
  datatype WsRead =
    | NextReaderFailed(error: WsError)
    | Frame(messageType: nat, body: seq<byte>, copyError: Option<WsError>)

  datatype ReadResult = Received(data: seq<byte>) | ReadError(error: WsError)

  const UnexpectedMessageType := "unexpected message type: "

  /** `read`: only a complete binary frame yields bytes. */
  function Read(r: WsRead): (res: ReadResult)
    ensures res.Received? <==> r.Frame? && r.messageType == BinaryMessage && r.copyError.None?
    ensures res.Received? ==> res.data == r.body
    ensures r.Frame? && r.messageType != BinaryMessage ==>
              res == ReadError(OtherError(UnexpectedMessageType + DecimalString(r.messageType)))
    ensures r.NextReaderFailed? ==> res == ReadError(r.error)
  {
    match r
    case NextReaderFailed(e) => ReadError(e)
    case Frame(t, body, copyError) =>
      if t != BinaryMessage then ReadError(OtherError(UnexpectedMessageType + DecimalString(t)))
      else if copyError.Some? then ReadError(copyError.value)
      else Received(body)
  }

  /** The message type is reported in decimal and can be recovered from
      the error text. */
  lemma NonBinaryFrameNamesItsType(t: nat, body: seq<byte>)
    requires t != BinaryMessage
    ensures Read(Frame(t, body, None)).ReadError?
    ensures var e := Read(Frame(t, body, None)).error;
      e.OtherError? && HasPrefix(e.text, UnexpectedMessageType)
      && DecimalValue(e.text[|UnexpectedMessageType|..]) == t
  {
    var text := UnexpectedMessageType + DecimalString(t);
    assert text[..|UnexpectedMessageType|] == UnexpectedMessageType;
    assert text[|UnexpectedMessageType|..] == DecimalString(t);
    DecimalRoundTrip(t);
  }

  /** The receive loop's report for a read error: nothing for an orderly
      end (end of stream, going away, abnormal closure), a wrapped message
      otherwise. Every class ends the session all the same. */
  function ReadFailureReport(e: WsError): (r: Option<string>)
    ensures r.None? <==> e.Eof? || (e.CloseError? && (e.code == CloseGoingAway || e.code == CloseAbnormalClosure))
    ensures e.CloseError? && r.Some? ==> r.value == Wrap("connection error", e.text)
    ensures e.OtherError? ==> r == Some(Wrap("invalid message data received", e.text))
  {
    match e
    case Eof => None
    case CloseError(code, text) =>
      if code == CloseGoingAway || code == CloseAbnormalClosure then None
      else Some(Wrap("connection error", text))
    case OtherError(text) => Some(Wrap("invalid message data received", text))
  }

  /** What a send did: the frame written, if any, and the error returned. */
  datatype SendOutcome = SendOutcome(frame: Option<seq<byte>>, error: Option<ErrorText>)

  /** `send`: encode, then write one binary frame. An encode failure writes
      nothing; a write failure is wrapped; `errors.Wrap` of no error is no
      error. */
  function Send(encoded: Result<seq<byte>>, writeError: Option<ErrorText>): (r: SendOutcome)
    ensures encoded.Err? ==> r == SendOutcome(None, Some(Wrap("could not encode message to server", encoded.error)))
    ensures encoded.Ok? ==> r.frame == Some(encoded.value)
    ensures encoded.Ok? ==> (r.error.None? <==> writeError.None?)
    ensures encoded.Ok? && writeError.Some? ==> r.error == Some(Wrap("could not write message to server", writeError.value))
  {
    match encoded
    case Err(e) => SendOutcome(None, Some(Wrap("could not encode message to server", e)))
    case Ok(b) =>
      SendOutcome(Some(b), if writeError.Some? then Some(Wrap("could not write message to server", writeError.value)) else None)
  }

  /** An established websocket, abstractly: the location it was dialled at. */
  datatype WsConn = WsConn(location: string)

  /** The dial: a connection, or the error with the HTTP status of the
      handshake response when there was one. */
  datatype DialResponse =
    | Connected(conn: WsConn)
    | DialFailed(status: Option<int>, error: ErrorText)

  const StatusNotFound := 404
  const AuthenticationFailed := "could not authenticate with wrap.sh server"

  /** The result of a connect: the websocket the client holds afterwards,
      the frame written for the announcement, and the error returned. */
  datatype ConnectOutcome = ConnectOutcome(ws: Option<WsConn>, sent: Option<seq<byte>>, error: Option<ErrorText>)

  /** `connectToServer`: a 404 handshake means the token was refused; any
      other failure is a wrapped dial error. Only a success stores the
      websocket, and it then sends the announcement (already encoded here)
      and returns what that send returns. */
  function Connect(current: Option<WsConn>, dial: DialResponse, hello: Result<seq<byte>>,
                   helloWriteError: Option<ErrorText>): (r: ConnectOutcome)
    ensures dial.DialFailed? ==> r.ws == current && r.sent.None?
    ensures dial.DialFailed? && dial.status == Some(StatusNotFound) ==> r.error == Some(AuthenticationFailed)
    ensures dial.DialFailed? && dial.status != Some(StatusNotFound) ==> r.error == Some(Wrap("dial wrap.sh server", dial.error))
    ensures dial.Connected? ==> r.ws == Some(dial.conn)
    ensures dial.Connected? ==> r.sent == Send(hello, helloWriteError).frame && r.error == Send(hello, helloWriteError).error
  {
    match dial
    case DialFailed(status, e) =>
      ConnectOutcome(current, None,
        Some(if status == Some(StatusNotFound) then AuthenticationFailed else Wrap("dial wrap.sh server", e)))
    case Connected(conn) =>
      var sent := Send(hello, helloWriteError);
      ConnectOutcome(Some(conn), sent.frame, sent.error)
  }

  /** A connect succeeds exactly when the dial does and the announcement
      is encoded and written. */
  lemma ConnectSucceedsIff(current: Option<WsConn>, dial: DialResponse, hello: Result<seq<byte>>,
                           helloWriteError: Option<ErrorText>)
    ensures Connect(current, dial, hello, helloWriteError).error.None?
            <==> dial.Connected? && hello.Ok? && helloWriteError.None?
  {
  }
}
