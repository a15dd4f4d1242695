/** The session as a whole: `Run` (command, retries, connect) and the
    receive loop that feeds inbound messages to the dispatcher, plus the
    exit status of the process. Frames, their decoding and the handlers'
    I/O are abstract inputs. */
module Session {
  import opened Wrappers
  import opened Protocol
  import Client
  import Websocket
  import Terminal

  // ---------------------------------------------------------------------
  // Receive loop
  // ---------------------------------------------------------------------

  /** Why the receive loop ended: it found the client closed before a
      read, a read failed (the loop closes the session), a frame did not
      decode (fatal to the process), or the modelled frames ran out. */
  datatype ListenStop =
    | FoundClosed
    | ReadFailed(error: Websocket.WsError)
    | Undecodable
    | InputExhausted

  datatype ListenResult = ListenResult(client: Client.Client, consumed: nat, stop: ListenStop)

  /** The frame decoded into a message the dispatcher was given. */
  predicate Delivered(read: Websocket.WsRead, decode: seq<byte> -> Option<Inbound>)
  {
    Websocket.Read(read).Received? && decode(Websocket.Read(read).data).Some?
  }

  function Message(read: Websocket.WsRead, decode: seq<byte> -> Option<Inbound>): Inbound
    requires Delivered(read, decode)
  {
    decode(Websocket.Read(read).data).value
  }

  /** `listenServer`, over the frames the websocket yields in turn;
      `io(k)` holds what the handlers meet for the `k`-th read. The errors
      the dispatcher returns are dropped. */
  method ListenServer(c: Client.Client, frames: seq<Websocket.WsRead>, decode: seq<byte> -> Option<Inbound>,
                      io: nat -> Client.HandlerInputs)
    returns (r: ListenResult)
    requires Client.CanClose(c)
    ensures r.consumed <= |frames|
    ensures c.closed ==> r.consumed == 0 && r.stop == FoundClosed
    ensures r.stop == FoundClosed || r.stop.ReadFailed? ==> r.client.closed
    ensures r.stop == InputExhausted ==> r.consumed == |frames| && !r.client.closed
    ensures r.stop.ReadFailed? || r.stop == Undecodable ==> r.consumed > 0
    ensures r.stop.ReadFailed? ==> Websocket.Read(frames[r.consumed - 1]) == Websocket.ReadError(r.stop.error)
    ensures r.stop == Undecodable ==>
              Websocket.Read(frames[r.consumed - 1]).Received?
              && decode(Websocket.Read(frames[r.consumed - 1]).data).None?
    ensures var handled := if r.stop.ReadFailed? || r.stop == Undecodable then r.consumed - 1 else r.consumed;
      forall k :: 0 <= k < handled ==> Delivered(frames[k], decode)
    ensures r.stop == FoundClosed && !c.closed ==>
              r.consumed > 0 && Client.Dispatch(Message(frames[r.consumed - 1], decode)) == Client.CloseKind
  {
    var cur := c;
    var i := 0;
    while i < |frames|
      invariant 0 <= i <= |frames|
      invariant Client.CanClose(cur)
      invariant c.closed ==> i == 0 && cur == c
      invariant forall k :: 0 <= k < i ==> Delivered(frames[k], decode)
      invariant cur.closed && !c.closed ==>
                  i > 0 && Client.Dispatch(Message(frames[i - 1], decode)) == Client.CloseKind
    {
      if cur.closed {
        return ListenResult(cur, i, FoundClosed);
      }
      match Websocket.Read(frames[i]) {
        case ReadError(e) =>
          cur := CloseOnReadError(cur);
          return ListenResult(cur, i + 1, ReadFailed(e));
        case Received(b) =>
          if decode(b).None? {
            return ListenResult(cur, i + 1, Undecodable);
          }
          cur := Deliver(cur, decode(b).value, io(i));
      }
      i := i + 1;
    }
    if cur.closed {
      return ListenResult(cur, i, FoundClosed);
    }
    return ListenResult(cur, i, InputExhausted);
  }

  /** A failed read closes the session. */
  method CloseOnReadError(c: Client.Client) returns (r: Client.Client)
    requires Client.CanClose(c)
    ensures r.closed
  {
    var effects;
    r, effects := Client.Close(c);
  }

  /** One decoded message handed to the dispatcher, its error dropped: the
      session ends exactly when the message was the server's close. */
  method Deliver(c: Client.Client, msg: Inbound, io: Client.HandlerInputs) returns (r: Client.Client)
    requires Client.CanClose(c) && !c.closed
    ensures Client.CanClose(r)
    ensures r.closed <==> Client.Dispatch(msg) == Client.CloseKind
  {
    var handling, err;
    r, handling, err := Client.HandleMessage(c, msg, io);
  }

  // ---------------------------------------------------------------------
  // Run and the exit status
  // ---------------------------------------------------------------------

  /** Where `Run` ended: no command, a command that passed, a fatal error
      running it, a failed connect (a panic), or a live session. */
  datatype RunPhase =
    | NoCommand
    | CommandPassed
    | RunFatal(message: ErrorText)
    | ConnectPanic(message: ErrorText)
    | Serving

  /** The contexts `Run` wraps its errors in. */
  const RunContext := "run test command"
  const ConnectContext := "could not connect"

  datatype RunResult = RunResult(client: Client.Client, phase: RunPhase, attempts: nat, connectAttempted: bool)

  /** `Run` up to the point where the session goroutines start; `outcome`
      is how each command attempt ends and the remaining parameters are the
      dial and the announcement's send. */
  function Run(c: Client.Client, outcome: nat -> Client.CommandOutcome, dial: Websocket.DialResponse,
               hello: Result<seq<byte>>, helloWriteError: Option<ErrorText>): (r: RunResult)
    ensures c.testCommand == "" ==> r == RunResult(c, NoCommand, 0, false)
    ensures r.connectAttempted <==> r.phase.ConnectPanic? || r.phase == Serving
  {
    if c.testCommand == "" then RunResult(c, NoCommand, 0, false)
    else
      var retry := Client.Retry(c.numRetries, c.exitCode, outcome);
      var cur := c.(exitCode := retry.exitCode);
      if retry.error.Some? then RunResult(cur, RunFatal(Wrap(RunContext, retry.error.value)), retry.attempts, false)
      else if retry.succeeded then RunResult(cur, CommandPassed, retry.attempts, false)
      else
        var conn := Websocket.Connect(cur.ws, dial, hello, helloWriteError);
        var next := cur.(ws := conn.ws);
        if conn.error.Some? then RunResult(next, ConnectPanic(Wrap(ConnectContext, conn.error.value)), retry.attempts, true)
        else RunResult(next, Serving, retry.attempts, true)
  }

  /** A passing command or a spawn error returns before any connect: the
      last attempt passed, or could not run and its error is wrapped. */
  lemma RunCommandPhase(c: Client.Client, outcome: nat -> Client.CommandOutcome, dial: Websocket.DialResponse,
                        hello: Result<seq<byte>>, helloWriteError: Option<ErrorText>)
    ensures var r := Run(c, outcome, dial, hello, helloWriteError);
      && (r.phase == CommandPassed ==> !r.connectAttempted && r.attempts > 0
                                       && Client.LastOutcome(outcome, r.attempts).Succeeded?)
      && (r.phase.RunFatal? ==> !r.connectAttempted && r.attempts > 0
                                && Client.LastOutcome(outcome, r.attempts).SpawnFailed?
                                && r.phase.message == Wrap(RunContext, Client.LastOutcome(outcome, r.attempts).error))
  {
    Client.RetryOutcome(c.numRetries, c.exitCode, outcome);
  }

  /** The connect is tried only after every attempt exited non-zero; it
      stores the websocket it gets, and a failed connect panics with the
      wrapped error. */
  lemma RunConnectPhase(c: Client.Client, outcome: nat -> Client.CommandOutcome, dial: Websocket.DialResponse,
                        hello: Result<seq<byte>>, helloWriteError: Option<ErrorText>)
    ensures var r := Run(c, outcome, dial, hello, helloWriteError);
      r.connectAttempted ==>
        && r.attempts == Client.MaxAttempts(c.numRetries)
        && Client.AllExitedNonZero(outcome, r.attempts)
        && var conn := Websocket.Connect(c.ws, dial, hello, helloWriteError);
           && r.client.ws == conn.ws
           && (r.phase == Serving <==> conn.error.None?)
           && (conn.error.Some? ==> r.phase == ConnectPanic(Wrap(ConnectContext, conn.error.value)))
  {
    Client.RetryOutcome(c.numRetries, c.exitCode, outcome);
  }

  /** Once a command was given, the client holds the code of the last
      attempt that exited non-zero. */
  lemma RunExitCode(c: Client.Client, outcome: nat -> Client.CommandOutcome, dial: Websocket.DialResponse,
                    hello: Result<seq<byte>>, helloWriteError: Option<ErrorText>)
    requires c.testCommand != ""
    ensures var r := Run(c, outcome, dial, hello, helloWriteError);
      r.client.exitCode == Client.LastExitCode(outcome, r.attempts, c.exitCode)
  {
    Client.RetryOutcome(c.numRetries, c.exitCode, outcome);
  }

  /** How a live session ends. `Returned`: the client closed (a failed
      read, the server's close, the idle watchdog) or the interrupt came,
      so `Run` returns and `main` exits with `ExitCode`. `DecodeFatal`: a
      frame did not decode and `log.Fatal` ends the process there.
      `ShellPanic`: a panic about the shell ended the process: the shell's
      goroutine could not open its pty, or killing the shell failed in the
      first teardown, in whichever goroutine ran it (the pump after a failed
      read, or the client's close from the receive loop, the close handler,
      the idle watchdog or the interrupt). */
  datatype SessionEnd =
    | Returned
    | DecodeFatal
    | ShellPanic(message: ErrorText)

  /** The contexts the two shell panics are wrapped in. */
  const OpenPtyContext := "open pty"
  const ClosePtyContext := "close pty"

  /** The end the receive loop brings about; a loop that has not stopped
      ends nothing yet. */
  function ListenEnd(stop: ListenStop): (r: Option<SessionEnd>)
    ensures r == Some(DecodeFatal) <==> stop == Undecodable
    ensures r == Some(Returned) <==> stop == FoundClosed || stop.ReadFailed?
    ensures r.None? <==> stop == InputExhausted
  {
    match stop
    case Undecodable => Some(DecodeFatal)
    case InputExhausted => None
    case _ => Some(Returned)
  }

  /** The end the shell brings about: `startError` is what `pty.Start`
      returned in the shell's goroutine, and `killError` what killing the
      shell returned when a teardown ran with a kill (`Terminal.CloseOnce`),
      whichever goroutine ran it. A failed start panics with "open pty", a
      failed kill with "close pty"; otherwise the shell ends nothing. */
  function ShellEnd(startError: Option<ErrorText>, teardown: Terminal.Teardown, killError: Option<ErrorText>)
    : (r: Option<SessionEnd>)
    ensures r.Some? <==> startError.Some? || (teardown.kill && killError.Some?)
    ensures r.Some? ==> r.value.ShellPanic?
    ensures startError.Some? ==> r == Some(ShellPanic(Wrap(OpenPtyContext, startError.value)))
    ensures startError.None? && r.Some? ==> r == Some(ShellPanic(Wrap(ClosePtyContext, killError.value)))
  {
    if startError.Some? then Some(ShellPanic(Wrap(OpenPtyContext, startError.value)))
    else if teardown.kill && killError.Some? then Some(ShellPanic(Wrap(ClosePtyContext, killError.value)))
    else None
  }

  /** Only the first teardown kills, so once the terminal is closed a
      further teardown cannot panic, whatever a kill would return. */
  lemma RepeatedTeardownCannotPanic(t: Terminal.Terminal, killError: Option<ErrorText>)
    requires t.closed
    ensures ShellEnd(None, Terminal.CloseOnce(t), killError).None?
  {
  }

  /** The status the process exits with: `log.Fatal` exits 1, an
      unrecovered panic 2, and otherwise `main` exits with the client's
      `ExitCode` once `Run` returns. `end` is how the live session ended
      and matters only in the `Serving` phase. */
  function ProcessExit(phase: RunPhase, end: SessionEnd, exitCode: int): (code: int)
    ensures phase.RunFatal? ==> code == 1
    ensures phase.ConnectPanic? ==> code == 2
    ensures phase == Serving && end == DecodeFatal ==> code == 1
    ensures phase == Serving && end.ShellPanic? ==> code == 2
    ensures phase == NoCommand || phase == CommandPassed || (phase == Serving && end == Returned) ==>
              code == exitCode
  {
    match phase
    case RunFatal(_) => 1
    case ConnectPanic(_) => 2
    case Serving =>
      (match end
       case DecodeFatal => 1
       case ShellPanic(_) => 2
       case Returned => exitCode)
    case _ => exitCode
  }

  /** A failing command that is never retried into success exits with the
      command's own code once the session returns; a session that ends in
      `log.Fatal` or a panic exits 1 or 2 instead. */
  lemma FailedCommandExitCode(outcome: nat -> Client.CommandOutcome, numRetries: nat, initial: int, end: SessionEnd)
    requires Client.AllExitedNonZero(outcome, numRetries + 1)
    ensures ProcessExit(Serving, end, Client.LastExitCode(outcome, numRetries + 1, initial)) ==
              match end
              case Returned => outcome(numRetries).code
              case DecodeFatal => 1
              case ShellPanic(_) => 2
  {
  }

  /** An undecodable frame ends the process with status 1, whatever the
      command's exit code was. */
  lemma UndecodableFrameExitsOne(exitCode: int)
    ensures ListenEnd(Undecodable).Some?
    ensures ProcessExit(Serving, ListenEnd(Undecodable).value, exitCode) == 1
  {
  }

  /** As written, the client keeps the code of a failed attempt even when a
      later retry passes, so a command that passes on its second try exits
      with the first try's code. */
  lemma RetrySuccessKeepsFailureCode(code: int, end: SessionEnd)
    requires code != 0
    ensures var outcome := (k: nat) => if k == 0 then Client.ExitedNonZero(code) else Client.Succeeded;
      ProcessExit(CommandPassed, end, Client.LastExitCode(outcome, 2, 0)) == code
  {
  }

  /** The exit status once the command has passed is zero: what the retry
      loop evidently intends. */
  function PassedExit(phase: RunPhase, end: SessionEnd, exitCode: int): (code: int)
    ensures phase == CommandPassed ==> code == 0
    ensures phase != CommandPassed ==> code == ProcessExit(phase, end, exitCode)
  {
    if phase == CommandPassed then 0 else ProcessExit(phase, end, exitCode)
  }
}
