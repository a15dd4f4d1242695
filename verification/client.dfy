/** The client record and its sequential logic: the test command with
    retries, the idle watchdog, the one-shot close, and the dispatch of
    inbound messages to their handlers. The command runner, the clock and
    the handlers' I/O are abstract. */
module Client {
  import opened Wrappers
  import opened Protocol
  import Terminal
  import TunnelTcp
  import FileBrowser
  import HelloHandshake
  import Websocket

  /** The two halves of the Go client as one record; the mutexes, the
      receive buffer and the channel itself are left out (`closedChanClosed`
      says whether `closedChan` has been closed). */
  datatype Client = Client(
    testCommand: string,
    token: string,
    websocketLocation: string,
    dashboardUrl: string,
    timeoutMinutes: int,
    numRetries: int,
    wasAccessed: bool,
    exitCode: int,
    excludedTelemetryFields: map<string, bool>,
    connections: TunnelTcp.ConnTable,
    ws: Option<Websocket.WsConn>,
    closed: bool,
    closedChanClosed: bool,
    terminal: Option<Terminal.Terminal>)

  // ---------------------------------------------------------------------
  // Running the test command
  // ---------------------------------------------------------------------

  /** How one run of the command ends: it succeeded, it exited with a
      non-zero code, or it could not be run at all (a pipe or start error). */
  datatype CommandOutcome = Succeeded | ExitedNonZero(code: int) | SpawnFailed(error: ErrorText)

  /** The outcome of the retry loop and the exit code the client keeps. */
  datatype RetryResult = RetryResult(succeeded: bool, error: Option<ErrorText>, attempts: nat, exitCode: int)

  /** The exit code the client holds after the first `n` attempts: that of
      the last one that exited non-zero, or `initial` if none did. */
  function LastExitCode(outcome: nat -> CommandOutcome, n: nat, initial: int): int
  {
    if n == 0 then initial
    else if outcome(n - 1).ExitedNonZero? then outcome(n - 1).code
    else LastExitCode(outcome, n - 1, initial)
  }

  /** How the last of the first `n` attempts ended. */
  function LastOutcome(outcome: nat -> CommandOutcome, n: nat): CommandOutcome
    requires n > 0
  {
    outcome(n - 1)
  }

  /** The first `n` attempts all ran and exited non-zero. */
  predicate AllExitedNonZero(outcome: nat -> CommandOutcome, n: nat)
  {
    forall k: nat :: k < n ==> outcome(k).ExitedNonZero?
  }

  /** The most attempts the loop makes. */
  function MaxAttempts(numRetries: int): nat
  {
    if numRetries < 0 then 0 else numRetries + 1
  }

  /** The retry loop from attempt `attempt` on, holding exit code `code`:
      a non-zero exit is a failed attempt whose code is kept; a spawn error
      aborts the loop; the first success ends it. */
  function RetryFrom(numRetries: int, attempt: nat, code: int, outcome: nat -> CommandOutcome): RetryResult
    decreases MaxAttempts(numRetries) - attempt
  {
    if attempt >= MaxAttempts(numRetries) then RetryResult(false, None, attempt, code)
    else match outcome(attempt)
      case SpawnFailed(e) => RetryResult(false, Some(e), attempt + 1, code)
      case Succeeded => RetryResult(true, None, attempt + 1, code)
      case ExitedNonZero(k) => RetryFrom(numRetries, attempt + 1, k, outcome)
  }

  /** `runTestCommandWithRetries`, with `outcome(k)` the way attempt `k`
      ends. */
  function Retry(numRetries: int, exitCode: int, outcome: nat -> CommandOutcome): RetryResult
  {
    RetryFrom(numRetries, 0, exitCode, outcome)
  }

  /** What the retry loop promises: at most `numRetries + 1` attempts, none
      for a negative count; success exactly when the last attempt passed; a
      spawn error exactly when the last attempt could not run, and then that
      error; otherwise every attempt ran and exited non-zero. The exit code
      kept is that of the last non-zero exit. */
  lemma RetryOutcome(numRetries: int, exitCode: int, outcome: nat -> CommandOutcome)
    ensures var r := Retry(numRetries, exitCode, outcome);
      && r.attempts <= MaxAttempts(numRetries)
      && (numRetries < 0 ==> r == RetryResult(false, None, 0, exitCode))
      && (r.attempts > 0 ==> AllExitedNonZero(outcome, r.attempts - 1))
      && (r.succeeded <==> r.attempts > 0 && LastOutcome(outcome, r.attempts).Succeeded?)
      && (r.error.Some? <==> r.attempts > 0 && LastOutcome(outcome, r.attempts).SpawnFailed?)
      && (r.error.Some? ==> r.error.value == LastOutcome(outcome, r.attempts).error)
      && (!r.succeeded && r.error.None? ==>
            r.attempts == MaxAttempts(numRetries) && AllExitedNonZero(outcome, r.attempts))
      && r.exitCode == LastExitCode(outcome, r.attempts, exitCode)
  {
    RetryFromOutcome(numRetries, 0, exitCode, exitCode, outcome);
  }

  lemma {:induction false} RetryFromOutcome(numRetries: int, attempt: nat, code: int, exitCode: int,
                                            outcome: nat -> CommandOutcome)
    requires attempt <= MaxAttempts(numRetries)
    requires AllExitedNonZero(outcome, attempt)
    requires code == LastExitCode(outcome, attempt, exitCode)
    ensures var r := RetryFrom(numRetries, attempt, code, outcome);
      && attempt <= r.attempts <= MaxAttempts(numRetries)
      && (r.attempts > 0 ==> AllExitedNonZero(outcome, r.attempts - 1))
      && (r.succeeded <==> r.attempts > attempt && LastOutcome(outcome, r.attempts).Succeeded?)
      && (r.error.Some? <==> r.attempts > attempt && LastOutcome(outcome, r.attempts).SpawnFailed?)
      && (r.error.Some? ==> r.error.value == LastOutcome(outcome, r.attempts).error)
      && (!r.succeeded && r.error.None? ==>
            r.attempts == MaxAttempts(numRetries) && AllExitedNonZero(outcome, r.attempts))
      && r.exitCode == LastExitCode(outcome, r.attempts, exitCode)
    decreases MaxAttempts(numRetries) - attempt
  {
    if attempt < MaxAttempts(numRetries) && outcome(attempt).ExitedNonZero? {
      assert AllExitedNonZero(outcome, attempt + 1);
      RetryFromOutcome(numRetries, attempt + 1, outcome(attempt).code, exitCode, outcome);
    }
  }

  /** The loop as the source writes it computes what `Retry` defines. */
  method RunTestCommandWithRetries(numRetries: int, exitCode: int, outcome: nat -> CommandOutcome)
    returns (r: RetryResult)
    ensures r == Retry(numRetries, exitCode, outcome)
  {
    var code := exitCode;
    var attempt := 0;
    while attempt <= numRetries
      invariant 0 <= attempt <= MaxAttempts(numRetries)
      invariant RetryFrom(numRetries, attempt, code, outcome) == Retry(numRetries, exitCode, outcome)
    {
      var o := outcome(attempt);
      if o.SpawnFailed? {
        return RetryResult(false, Some(o.error), attempt + 1, code);
      }
      if o.Succeeded? {
        return RetryResult(true, None, attempt + 1, code);
      }
      code := o.code;
      attempt := attempt + 1;
    }
    return RetryResult(false, None, attempt, code);
  }

  // ---------------------------------------------------------------------
  // Idle watchdog
  // ---------------------------------------------------------------------

  /** The watchdog: minutes left, and whether it is still waiting. */
  datatype Watchdog = Watchdog(minutesLeft: int, running: bool)

  /** `timeout` before its first tick: a value below one disables it. */
  function StartWatchdog(timeoutMinutes: int): (w: Watchdog)
    ensures w.running <==> timeoutMinutes >= 1
    ensures w.minutesLeft == timeoutMinutes
  {
    Watchdog(timeoutMinutes, timeoutMinutes >= 1)
  }

  datatype TickResult = TickResult(watchdog: Watchdog, close: bool)

  /** One tick: count the minute down, then stop quietly if the client was
      accessed, else close the session when no minutes are left. */
  function Tick(w: Watchdog, wasAccessed: bool): TickResult
  {
    var left := w.minutesLeft - 1;
    if wasAccessed then TickResult(Watchdog(left, false), false)
    else if left == 0 then TickResult(Watchdog(left, false), true)
    else TickResult(Watchdog(left, true), false)
  }

  /** Runs the watchdog over one tick per element of `accessed` (the
      access flag at that tick) until it stops; the count of closes. */
  function Ticks(w: Watchdog, accessed: seq<bool>): nat
    decreases |accessed|
  {
    if !w.running || |accessed| == 0 then 0
    else
      var t := Tick(w, accessed[0]);
      (if t.close then 1 else 0) + Ticks(t.watchdog, accessed[1..])
  }

  function Idle(n: nat): (s: seq<bool>)
    ensures |s| == n && forall i :: 0 <= i < n ==> !s[i]
  {
    if n == 0 then [] else Idle(n - 1) + [false]
  }

  /** A client never accessed is closed exactly once, on the tick that
      uses up its minutes, and not before. */
  lemma {:induction false} IdleClosesOnce(minutes: int, ticks: nat)
    requires minutes >= 1
    ensures Ticks(Watchdog(minutes, true), Idle(ticks)) == if ticks >= minutes then 1 else 0
    decreases ticks
  {
    if ticks > 0 {
      var s := Idle(ticks);
      assert s[1..] == Idle(ticks - 1) by {
        assert forall i :: 0 <= i < ticks - 1 ==> !s[1..][i];
        IdleUnique(s[1..], Idle(ticks - 1));
      }
      if minutes > 1 {
        IdleClosesOnce(minutes - 1, ticks - 1);
      }
    }
  }

  lemma IdleUnique(a: seq<bool>, b: seq<bool>)
    requires |a| == |b|
    requires forall i :: 0 <= i < |a| ==> !a[i] && !b[i]
    ensures a == b
  {
  }

  /** An access seen on any tick up to the last minute cancels the
      watchdog: the access check comes before the count check. */
  lemma {:induction false} AccessCancels(minutes: int, accessed: seq<bool>, k: nat)
    requires minutes >= 1
    requires k < minutes && k < |accessed| && accessed[k]
    ensures Ticks(Watchdog(minutes, true), accessed) == 0
    decreases k
  {
    if k > 0 && !accessed[0] {
      assert accessed[1..][k - 1] == accessed[k];
      AccessCancels(minutes - 1, accessed[1..], k - 1);
    }
  }

  /** A disabled watchdog never closes anything. */
  lemma DisabledNeverCloses(timeoutMinutes: int, accessed: seq<bool>)
    requires timeoutMinutes < 1
    ensures Ticks(StartWatchdog(timeoutMinutes), accessed) == 0
  {
  }

  // ---------------------------------------------------------------------
  // Close
  // ---------------------------------------------------------------------

  /** What the first close does, in order. */
  datatype CloseEffect = KillShell | CloseSocket(id: uint32) | CloseWebsocket | SignalClosed

  /** The close reaches through the terminal and the websocket, so both
      must exist by the time anything closes the session. */
  predicate CanClose(c: Client)
  {
    c.terminal.Some? && c.ws.Some?
  }

  /** The connections whose socket is still open. */
  function OpenIds(table: TunnelTcp.ConnTable): set<uint32>
  {
    set id | id in table && !table[id].closed
  }

  /** Closes every connection of the table, in some order; each socket that
      was open is closed once. */
  method CloseSockets(table: TunnelTcp.ConnTable) returns (r: TunnelTcp.ConnTable, closedIds: seq<uint32>)
    ensures r.Keys == table.Keys
    ensures forall id :: id in table ==> r[id] == TunnelTcp.CloseConn(table[id]).0
    ensures forall id :: id in closedIds <==> id in OpenIds(table)
    ensures forall i, j :: 0 <= i < j < |closedIds| ==> closedIds[i] != closedIds[j]
  {
    r := table;
    closedIds := [];
    var pending := table.Keys;
    while pending != {}
      invariant pending <= table.Keys && r.Keys == table.Keys
      invariant forall id :: id in pending ==> r[id] == table[id]
      invariant forall id :: id in table && id !in pending ==> r[id] == TunnelTcp.CloseConn(table[id]).0
      invariant forall id :: id in closedIds <==> id in OpenIds(table) && id !in pending
      invariant forall i, j :: 0 <= i < j < |closedIds| ==> closedIds[i] != closedIds[j]
      decreases pending
    {
      var id :| id in pending;
      var step := TunnelTcp.CloseConn(r[id]);
      r := r[id := step.0];
      if step.1 {
        closedIds := closedIds + [id];
      }
      pending := pending - {id};
    }
  }

  /** `close`: the first call marks the client closed, tears the terminal
      down, closes every connection, closes the websocket and signals the
      main loop, in that order; later calls do nothing. */
  method Close(c: Client) returns (r: Client, effects: seq<CloseEffect>)
    requires CanClose(c)
    ensures CanClose(r)
    ensures c.closed ==> r == c && effects == []
    ensures !c.closed ==> r.closed && r.closedChanClosed
    ensures !c.closed ==> r.terminal == Some(Terminal.CloseOnce(c.terminal.value).term)
    ensures !c.closed ==> r.connections.Keys == c.connections.Keys
    ensures !c.closed ==> forall id :: id in c.connections ==> r.connections[id] == TunnelTcp.CloseConn(c.connections[id]).0
    ensures r == c.(closed := r.closed, closedChanClosed := r.closedChanClosed, terminal := r.terminal,
                    connections := r.connections)
    ensures !c.closed ==> |effects| >= 2 && effects[|effects| - 2..] == [CloseWebsocket, SignalClosed]
    ensures KillShell in effects <==> !c.closed && !c.terminal.value.closed
    ensures KillShell in effects ==> effects[0] == KillShell
    ensures var first := if KillShell in effects then 1 else 0;
      forall i :: first <= i < |effects| - 2 ==> effects[i].CloseSocket?
    ensures forall id :: CloseSocket(id) in effects <==> !c.closed && id in OpenIds(c.connections)
  {
    if c.closed {
      return c, [];
    }
    var down := Terminal.CloseOnce(c.terminal.value);
    var table, ids := CloseSockets(c.connections);
    effects := CloseEffects(down.kill, ids);
    r := c.(closed := true, terminal := Some(down.term), connections := table, closedChanClosed := true);
  }

  /** The effects of a first close, in order: the shell is killed when the
      terminal had one running, then each connection's socket is closed,
      then the websocket, then the main loop is signalled. */
  function CloseEffects(kill: bool, ids: seq<uint32>): (effects: seq<CloseEffect>)
    ensures |effects| >= 2 && effects[|effects| - 2..] == [CloseWebsocket, SignalClosed]
    ensures KillShell in effects <==> kill
    ensures kill ==> effects[0] == KillShell
    ensures var first := if kill then 1 else 0;
      forall i :: first <= i < |effects| - 2 ==> effects[i].CloseSocket?
    ensures forall id :: CloseSocket(id) in effects <==> id in ids
  {
    var kills := if kill then [KillShell] else [];
    var sockets := seq(|ids|, i requires 0 <= i < |ids| => CloseSocket(ids[i]));
    var effects := kills + sockets + [CloseWebsocket, SignalClosed];
    assert forall id :: CloseSocket(id) in effects <==> id in ids by {
      forall id ensures CloseSocket(id) in effects <==> id in ids {
        if CloseSocket(id) in effects {
          var i :| 0 <= i < |effects| && effects[i] == CloseSocket(id);
          assert ids[i - |kills|] == id;
        }
        if id in ids {
          var i :| 0 <= i < |ids| && ids[i] == id;
          assert effects[|kills| + i] == CloseSocket(id);
        }
      }
    }
    assert KillShell !in sockets + [CloseWebsocket, SignalClosed];
    effects
  }

  // ---------------------------------------------------------------------
  // Message dispatch
  // ---------------------------------------------------------------------

  /** The payload kinds of an inbound message, in the order the dispatcher
      tests them. */
  datatype MessageKind =
    | TcpWriteKind | TcpReadKind | TcpDialKind
    | TerminalWriteKind | TerminalWidthKind
    | FileReadKind | FileReadDirKind
    | HelloResponseKind | ErrorKind | CloseKind
    | Unmatched

  function Rank(k: MessageKind): nat
  {
    match k
    case TcpWriteKind => 0
    case TcpReadKind => 1
    case TcpDialKind => 2
    case TerminalWriteKind => 3
    case TerminalWidthKind => 4
    case FileReadKind => 5
    case FileReadDirKind => 6
    case HelloResponseKind => 7
    case ErrorKind => 8
    case CloseKind => 9
    case Unmatched => 10
  }

  /** Whether the message carries a payload of kind `k`. */
  predicate Present(msg: Inbound, k: MessageKind)
  {
    match k
    case TcpWriteKind => msg.tcpWriteCall.Some?
    case TcpReadKind => msg.tcpReadCall.Some?
    case TcpDialKind => msg.tcpDialCall.Some?
    case TerminalWriteKind => msg.terminalWrite.Some?
    case TerminalWidthKind => msg.terminalWidth.Some?
    case FileReadKind => msg.fileRead.Some?
    case FileReadDirKind => msg.fileReadDir.Some?
    case HelloResponseKind => msg.helloResponse.Some?
    case ErrorKind => msg.error != ""
    case CloseKind => msg.close
    case Unmatched => false
  }

  /** The kind the dispatcher handles: the first one present, in the fixed
      order. */
  function Dispatch(msg: Inbound): (k: MessageKind)
    ensures k != Unmatched ==> Present(msg, k)
    ensures forall j :: Rank(j) < Rank(k) ==> !Present(msg, j)
  {
    if msg.tcpWriteCall.Some? then TcpWriteKind
    else if msg.tcpReadCall.Some? then TcpReadKind
    else if msg.tcpDialCall.Some? then TcpDialKind
    else if msg.terminalWrite.Some? then TerminalWriteKind
    else if msg.terminalWidth.Some? then TerminalWidthKind
    else if msg.fileRead.Some? then FileReadKind
    else if msg.fileReadDir.Some? then FileReadDirKind
    else if msg.helloResponse.Some? then HelloResponseKind
    else if msg.error != "" then ErrorKind
    else if msg.close then CloseKind
    else Unmatched
  }

  /** A kind is handled exactly when it is present and no kind before it
      is. */
  lemma DispatchIsFirstPresent(msg: Inbound, k: MessageKind)
    ensures Dispatch(msg) == k <==>
              (k == Unmatched || Present(msg, k)) && forall j :: Rank(j) < Rank(k) ==> !Present(msg, j)
  {
  }

  /** The kinds that count as access by an operator. */
  predicate Accesses(k: MessageKind)
  {
    Rank(k) < 7
  }

  /** The I/O outcomes the handlers would meet for this message. */
  datatype HandlerInputs = HandlerInputs(
    ptyWriteError: Option<ErrorText>,
    stat: Result<int>,
    content: Result<seq<byte>>,
    fileOutput: Option<string>,
    walk: FileBrowser.Walk)

  /** What handling a message set in motion. */
  datatype Handling =
    | StartWriter(writeTask: TunnelTcp.WriteTask)
    | StartReader(readTask: TunnelTcp.ReadTask)
    | StartDialer(dialTask: TunnelTcp.DialTask)
    | PtyWrite(outcome: Terminal.WriteOutcome)
    | Resize(size: Option<Terminal.WinSize>)
    | Reply(message: Outbound)
    | Closed(effects: seq<CloseEffect>)
    | NoEffect

  const UnexpectedFromServer := "unexpected message type from wrap.sh server"

  /** `HandleMessage`: handles the first payload present and returns the
      handler's error. */
  method HandleMessage(c: Client, msg: Inbound, io: HandlerInputs) returns (r: Client, h: Handling, err: Option<ErrorText>)
    requires Dispatch(msg) == CloseKind ==> CanClose(c)
    ensures CanClose(c) ==> CanClose(r)
    ensures r.wasAccessed == (c.wasAccessed || Accesses(Dispatch(msg)))
    ensures Dispatch(msg) != CloseKind ==> r == c.(wasAccessed := r.wasAccessed, dashboardUrl := r.dashboardUrl)
    ensures Dispatch(msg) != HelloResponseKind ==> r.dashboardUrl == c.dashboardUrl
    ensures Dispatch(msg) == TcpWriteKind ==>
              var a := TunnelTcp.RequestWrite(c.connections, msg.tcpWriteCall.value);
              (a.Ok? ==> h == StartWriter(a.value) && err.None?) && (a.Err? ==> h == NoEffect && err == Some(a.error))
    ensures Dispatch(msg) == TcpReadKind ==>
              var a := TunnelTcp.RequestRead(c.connections, msg.tcpReadCall.value);
              (a.Ok? ==> h == StartReader(a.value) && err.None?) && (a.Err? ==> h == NoEffect && err == Some(a.error))
    ensures Dispatch(msg) == TcpDialKind ==>
              var a := TunnelTcp.RequestDial(c.connections, msg.tcpDialCall.value);
              (a.Ok? ==> h == StartDialer(a.value) && err.None?) && (a.Err? ==> h == NoEffect && err == Some(a.error))
    ensures Dispatch(msg) == TerminalWriteKind ==>
              h == PtyWrite(Terminal.HandleTerminalWrite(c.terminal, msg.terminalWrite.value, io.ptyWriteError))
              && err == h.outcome.error
    ensures Dispatch(msg) == TerminalWidthKind ==>
              h == Resize(Terminal.HandleTerminalWidth(c.terminal, msg.terminalWidth.value)) && err.None?
    ensures h.Reply? <==> Dispatch(msg) == FileReadKind || Dispatch(msg) == FileReadDirKind
    ensures h.Reply? ==> h.message.listenerId == msg.listenerId && err.None?
    ensures Dispatch(msg) == FileReadKind ==>
              h == Reply(FileBrowser.HandleFileRead(msg.fileRead.value, msg.listenerId, io.stat, io.content, io.fileOutput))
    ensures Dispatch(msg) == FileReadDirKind ==>
              h == Reply(FileBrowser.HandleFileReadDir(msg.fileReadDir.value, msg.listenerId, io.walk))
    ensures Dispatch(msg) == HelloResponseKind ==>
              (r.dashboardUrl, err) == HelloHandshake.HandleHelloResponse(c.dashboardUrl, msg.helloResponse.value)
    ensures Dispatch(msg) == ErrorKind ==> err == Some(msg.error) && h == NoEffect
    ensures Dispatch(msg) == CloseKind ==> r.closed && h.Closed? && err == Some(UnexpectedFromServer)
    ensures Dispatch(msg) == CloseKind && !c.closed ==> h.effects != []
    ensures Dispatch(msg) == Unmatched ==> r == c && h == NoEffect && err == Some(UnexpectedFromServer)
  {
    var kind := Dispatch(msg);
    r := if Accesses(kind) then c.(wasAccessed := true) else c;
    match kind
    case TcpWriteKind =>
      match TunnelTcp.RequestWrite(c.connections, msg.tcpWriteCall.value) {
        case Ok(task) => h, err := StartWriter(task), None;
        case Err(e) => h, err := NoEffect, Some(e);
      }
    case TcpReadKind =>
      match TunnelTcp.RequestRead(c.connections, msg.tcpReadCall.value) {
        case Ok(task) => h, err := StartReader(task), None;
        case Err(e) => h, err := NoEffect, Some(e);
      }
    case TcpDialKind =>
      match TunnelTcp.RequestDial(c.connections, msg.tcpDialCall.value) {
        case Ok(task) => h, err := StartDialer(task), None;
        case Err(e) => h, err := NoEffect, Some(e);
      }
    case TerminalWriteKind =>
      var outcome := Terminal.HandleTerminalWrite(c.terminal, msg.terminalWrite.value, io.ptyWriteError);
      h, err := PtyWrite(outcome), outcome.error;
    case TerminalWidthKind =>
      h, err := Resize(Terminal.HandleTerminalWidth(c.terminal, msg.terminalWidth.value)), None;
    case FileReadKind =>
      h := Reply(FileBrowser.HandleFileRead(msg.fileRead.value, msg.listenerId, io.stat, io.content, io.fileOutput));
      err := None;
    case FileReadDirKind =>
      h := Reply(FileBrowser.HandleFileReadDir(msg.fileReadDir.value, msg.listenerId, io.walk));
      err := None;
    case HelloResponseKind =>
      var answer := HelloHandshake.HandleHelloResponse(c.dashboardUrl, msg.helloResponse.value);
      r := r.(dashboardUrl := answer.0);
      h, err := NoEffect, answer.1;
    case ErrorKind =>
      h, err := NoEffect, Some(msg.error);
    case CloseKind =>
      var effects;
      r, effects := Close(c);
      h, err := Closed(effects), Some(UnexpectedFromServer);
    case Unmatched =>
      h, err := NoEffect, Some(UnexpectedFromServer);
  }
}
