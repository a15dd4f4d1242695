/** The proxied TCP sockets: a table from connection id to connection
    record, the synchronous admission checks of the read, write and dial
    handlers, and the asynchronous completions that report their results.
    The sockets themselves are abstract: a completion takes the outcome of
    the socket operation as a parameter. */
module TunnelTcp {
  import opened Wrappers
  import opened Protocol

  /** A tunnelled connection: its id and whether it has been closed. */
  datatype TunnelConn = TunnelConn(id: uint32, closed: bool)

  /** `client.connections`; entries are added by a successful dial and never
      removed. */
  type ConnTable = map<uint32, TunnelConn>

  /** Every entry is filed under its own id. */
  predicate WellKeyed(table: ConnTable)
  {
    forall id :: id in table ==> table[id].id == id
  }

  /** `tunnelTcpConn.Close`: the new record, and whether the socket is
      closed by this call. */
  function CloseConn(tc: TunnelConn): (r: (TunnelConn, bool))
    ensures r.0.closed && r.0.id == tc.id
    ensures r.1 <==> !tc.closed
    ensures tc.closed ==> r.0 == tc
  {
    if tc.closed then (tc, false) else (tc.(closed := true), true)
  }

  /** Closing a connection twice is closing it once: the second call
      changes nothing and closes no socket. */
  lemma CloseConnIdempotent(tc: TunnelConn)
    ensures CloseConn(CloseConn(tc).0) == (CloseConn(tc).0, false)
  {
  }

  /** A read or write is accepted only for a known connection that is still
      open. */
  predicate Usable(table: ConnTable, id: uint32)
  {
    id in table && !table[id].closed
  }

  // ---------------------------------------------------------------------
  // Reads
  // ---------------------------------------------------------------------

  const ReadRejected := "read call for unknown or closed connection"

  /** The work a read call schedules. */
  datatype ReadTask = ReadTask(connectionId: uint32, readerId: uint32, bufferSize: uint32)

  /** `handleTcpReadCall` up to the point where the reader is started. */
  function RequestRead(table: ConnTable, msg: TcpReadCall): (r: Result<ReadTask>)
    ensures r.Err? <==> !Usable(table, msg.connectionId)
    ensures r.Err? ==> r.error == ReadRejected
    ensures r.Ok? ==> r.value == ReadTask(msg.connectionId, msg.readerId, msg.bufferSize)
  {
    if Usable(table, msg.connectionId) then Ok(ReadTask(msg.connectionId, msg.readerId, msg.bufferSize))
    else Err(ReadRejected)
  }

  /** One `Read` into the buffer: the bytes it filled and the error it
      reported, which Go allows together. */
  datatype SocketRead = SocketRead(data: seq<byte>, error: Option<ErrorText>)

  function Zeros(n: nat): (r: seq<byte>)
    ensures |r| == n && forall i :: 0 <= i < n ==> r[i] == 0
  {
    if n == 0 then [] else Zeros(n - 1) + [0]
  }

  /** The read result sent back: the whole zero-initialised buffer, with the
      count of the bytes actually read. */
  function CompleteRead(task: ReadTask, outcome: SocketRead): (r: Outbound)
    requires |outcome.data| <= task.bufferSize
    ensures r.spec.ReadResult? && r.listenerId == 0
    ensures r.spec.read.connectionId == task.connectionId && r.spec.read.readerId == task.readerId
    ensures r.spec.read.bytesRead == |outcome.data|
    ensures |r.spec.read.data| == task.bufferSize
    ensures r.spec.read.data[..r.spec.read.bytesRead] == outcome.data
    ensures forall i :: r.spec.read.bytesRead <= i < task.bufferSize ==> r.spec.read.data[i] == 0
    ensures r.spec.read.error == "" <==> outcome.error.None?
    ensures outcome.error.Some? ==> r.spec.read.error == outcome.error.value
  {
    var buffer := outcome.data + Zeros(task.bufferSize - |outcome.data|);
    assert buffer[..|outcome.data|] == outcome.data;
    Outbound(0, ReadResult(TcpReadResult(
      task.connectionId, task.readerId, |outcome.data|, buffer,
      if outcome.error.Some? then outcome.error.value else "")))
  }

  // ---------------------------------------------------------------------
  // Writes
  // ---------------------------------------------------------------------

  const WriteRejected := "write call for unknown or closed connection"

  datatype WriteTask = WriteTask(connectionId: uint32, writerId: uint32, data: seq<byte>)

  /** `handleTcpWriteCall` up to the point where the writer is started. */
  function RequestWrite(table: ConnTable, msg: TcpWriteCall): (r: Result<WriteTask>)
    ensures r.Err? <==> !Usable(table, msg.connectionId)
    ensures r.Err? ==> r.error == WriteRejected
    ensures r.Ok? ==> r.value == WriteTask(msg.connectionId, msg.writerId, msg.data)
  {
    if Usable(table, msg.connectionId) then Ok(WriteTask(msg.connectionId, msg.writerId, msg.data))
    else Err(WriteRejected)
  }

  /** One `Write`: how many bytes went out and the error, if any. */
  datatype SocketWrite = SocketWrite(written: uint32, error: Option<ErrorText>)

  function CompleteWrite(task: WriteTask, outcome: SocketWrite): (r: Outbound)
    ensures r.spec.WriteResult? && r.listenerId == 0
    ensures r.spec.write.connectionId == task.connectionId && r.spec.write.writerId == task.writerId
    ensures r.spec.write.bytesWritten == outcome.written
    ensures r.spec.write.error == "" <==> outcome.error.None?
    ensures outcome.error.Some? ==> r.spec.write.error == outcome.error.value
  {
    Outbound(0, WriteResult(TcpWriteResult(
      task.connectionId, task.writerId, outcome.written,
      if outcome.error.Some? then outcome.error.value else "")))
  }

  // ---------------------------------------------------------------------
  // Dials
  // ---------------------------------------------------------------------

  const DialRejected := "dial for existing connection"

  datatype DialTask = DialTask(connectionId: uint32, address: string)

  /** `handleTcpDialCall` up to the point where the dialer is started. Any
      id already in the table is refused, open or closed. */
  function RequestDial(table: ConnTable, msg: TcpDialCall): (r: Result<DialTask>)
    ensures r.Err? <==> msg.connectionId in table
    ensures r.Err? ==> r.error == DialRejected
    ensures r.Ok? ==> r.value == DialTask(msg.connectionId, msg.address)
  {
    if msg.connectionId in table then Err(DialRejected)
    else Ok(DialTask(msg.connectionId, msg.address))
  }

  /** The dialer's outcome: an error, or the remote address of the new
      socket. */
  datatype DialOutcome = DialFailed(error: ErrorText) | Dialed(remoteAddress: string)

  /** The dialer's completion: a failure only reports; a success files the
      new connection under the id and reports the remote address. */
  function CompleteDial(table: ConnTable, task: DialTask, outcome: DialOutcome): (r: (ConnTable, Outbound))
    ensures r.1.spec.DialResult? && r.1.listenerId == 0 && r.1.spec.dial.connectionId == task.connectionId
    ensures outcome.DialFailed? ==> r.0 == table && r.1.spec.dial == TcpDialResult(task.connectionId, "", outcome.error)
    ensures outcome.Dialed? ==>
              && r.0.Keys == table.Keys + {task.connectionId}
              && r.0[task.connectionId] == TunnelConn(task.connectionId, false)
              && (forall id :: id in table && id != task.connectionId ==> r.0[id] == table[id])
              && r.1.spec.dial == TcpDialResult(task.connectionId, outcome.remoteAddress, "")
  {
    match outcome
    case DialFailed(e) => (table, Outbound(0, DialResult(TcpDialResult(task.connectionId, "", e))))
    case Dialed(remote) =>
      (table[task.connectionId := TunnelConn(task.connectionId, false)],
       Outbound(0, DialResult(TcpDialResult(task.connectionId, remote, ""))))
  }

  /** Two dials for one id that both arrive before either completes are both
      admitted, since admission only looks at the table; if both succeed the
      second overwrites the first, leaving a single open entry. */
  lemma DialWindow(table: ConnTable, first: TcpDialCall, second: TcpDialCall, remote1: string, remote2: string)
    requires first.connectionId == second.connectionId
    requires first.connectionId !in table
    ensures RequestDial(table, first).Ok? && RequestDial(table, second).Ok?
    ensures var after1 := CompleteDial(table, RequestDial(table, first).value, Dialed(remote1)).0;
      var after2 := CompleteDial(after1, RequestDial(table, second).value, Dialed(remote2)).0;
      after2.Keys == table.Keys + {first.connectionId} &&
      after2[first.connectionId] == TunnelConn(first.connectionId, false)
  {
  }

  // ---------------------------------------------------------------------
  // The table over time
  // ---------------------------------------------------------------------

  /** What happens to the table: a connection is closed (by the session
      teardown), a dial is admitted, or a dialer completes. */
  datatype TableEvent =
    | CloseEvent(id: uint32)
    | DialCall(call: TcpDialCall)
    | DialDone(task: DialTask, outcome: DialOutcome)

  function Step(table: ConnTable, e: TableEvent): (r: ConnTable)
    ensures table.Keys <= r.Keys
    ensures WellKeyed(table) ==> WellKeyed(r)
  {
    match e
    case CloseEvent(id) => if id in table then table[id := CloseConn(table[id]).0] else table
    case DialCall(_) => table
    case DialDone(task, outcome) => CompleteDial(table, task, outcome).0
  }

  function Run(table: ConnTable, events: seq<TableEvent>): ConnTable
    decreases |events|
  {
    if |events| == 0 then table else Run(Step(table, events[0]), events[1..])
  }

  /** Entries are never removed, so once an id has been used it can never
      be dialled again, whatever happens in between. */
  lemma {:induction false} UsedIdNeverRedialled(table: ConnTable, events: seq<TableEvent>, call: TcpDialCall)
    requires call.connectionId in table
    ensures call.connectionId in Run(table, events)
    ensures RequestDial(Run(table, events), call) == Err(DialRejected)
    decreases |events|
  {
    if |events| > 0 {
      UsedIdNeverRedialled(Step(table, events[0]), events[1..], call);
    }
  }

  /** A successful completion for this id, the only event that can reopen
      it (it can only come from a dial admitted before the id was used). */
  predicate ReopensId(e: TableEvent, id: uint32)
  {
    e.DialDone? && e.task.connectionId == id && e.outcome.Dialed?
  }

  /** A closed connection stays closed unless a dial admitted earlier
      completes for its id. */
  lemma {:induction false} ClosedStaysClosed(table: ConnTable, events: seq<TableEvent>, id: uint32)
    requires id in table && table[id].closed
    requires forall k :: 0 <= k < |events| ==> !ReopensId(events[k], id)
    ensures id in Run(table, events) && Run(table, events)[id].closed
    decreases |events|
  {
    if |events| > 0 {
      assert !ReopensId(events[0], id);
      ClosedStaysClosed(Step(table, events[0]), events[1..], id);
    }
  }

  /** The table stays well keyed over any run. */
  lemma {:induction false} RunKeepsWellKeyed(table: ConnTable, events: seq<TableEvent>)
    requires WellKeyed(table)
    ensures WellKeyed(Run(table, events))
    ensures table.Keys <= Run(table, events).Keys
    decreases |events|
  {
    if |events| > 0 {
      RunKeepsWellKeyed(Step(table, events[0]), events[1..]);
    }
  }
}
