/** The shell bridge: an open/closed terminal with a one-shot teardown, the
    loop that forwards shell output to the server, and the write and resize
    handlers. The shell process and the pseudo-terminal are abstract: the
    pump consumes a sequence of read outcomes, and a write to the shell
    takes its outcome as a parameter. */
module Terminal {
  import opened Wrappers
  import opened Protocol

  /** The terminal record; `closed` is set only by the teardown, and every
      caller reaches the teardown through the same once-guard, so `closed`
      also says whether that guard has fired. */
  datatype Terminal = Terminal(closed: bool)

  const OpenTerminal := Terminal(false)

  /** The effect of `closer.Do(close)`: the first call marks the terminal
      closed and kills the shell, later calls do nothing. */
  datatype Teardown = Teardown(term: Terminal, kill: bool)

  function CloseOnce(t: Terminal): (r: Teardown)
    ensures r.term.closed
    ensures r.kill <==> !t.closed
    ensures t.closed ==> r.term == t
  {
    if t.closed then Teardown(t, false) else Teardown(Terminal(true), true)
  }

  /** Tears the terminal down once per call, counting the kills. */
  function KillsOver(t: Terminal, calls: nat): (r: (Terminal, nat))
    decreases calls
  {
    if calls == 0 then (t, 0)
    else
      var step := CloseOnce(t);
      var rest := KillsOver(step.term, calls - 1);
      (rest.0, rest.1 + (if step.kill then 1 else 0))
  }

  /** However many callers race to tear the terminal down, the shell is
      killed at most once, and exactly once if it was open and anyone did. */
  lemma {:induction false} KillAtMostOnce(t: Terminal, calls: nat)
    ensures KillsOver(t, calls).1 <= 1
    ensures t.closed ==> KillsOver(t, calls).1 == 0
    ensures !t.closed && calls > 0 ==> KillsOver(t, calls).1 == 1
    ensures calls > 0 ==> KillsOver(t, calls).0.closed
    decreases calls
  {
    if calls > 0 {
      KillAtMostOnce(CloseOnce(t).term, calls - 1);
    }
  }

  // ---------------------------------------------------------------------
  // Output pump
  // ---------------------------------------------------------------------

  /** The pump reads into a buffer of this many bytes. */
  const ReadBufferSize := 1024

  /** What one turn of the pump loop observes: the `closed` flag found set
      at the top of the loop by another caller's teardown, a failed read, or
      a read of some bytes. `closedMeanwhile` says whether another caller's
      teardown (the client's close) ran while the read was blocked, which is
      what usually makes the read fail. */
  datatype PtyEvent =
    | ClosedByOther
    | ReadFailed(closedMeanwhile: bool)
    | Chunk(data: seq<byte>)

  predicate ChunksFit(events: seq<PtyEvent>)
  {
    forall i :: 0 <= i < |events| && events[i].Chunk? ==> |events[i].data| <= ReadBufferSize
  }

  /** Why the pump stopped: the flag was found set, the read failed (the
      pump then calls the teardown itself, which does nothing when another
      caller got there first), or the input ran out. */
  datatype PumpStop = StoppedClosed | StoppedReadError(closedMeanwhile: bool) | StillRunning

  /** Reference behaviour: one terminal-output message per non-empty chunk,
      in order, up to the first stop event. */
  function Forwarded(events: seq<PtyEvent>): seq<seq<byte>>
  {
    if |events| == 0 then []
    else match events[0]
      case ClosedByOther => []
      case ReadFailed(_) => []
      case Chunk(data) => (if |data| == 0 then [] else [data]) + Forwarded(events[1..])
  }

  function StopOf(events: seq<PtyEvent>): PumpStop
  {
    if |events| == 0 then StillRunning
    else match events[0]
      case ClosedByOther => StoppedClosed
      case ReadFailed(meanwhile) => StoppedReadError(meanwhile)
      case Chunk(_) => StopOf(events[1..])
  }

  /** All bytes of a sequence of chunks, in order. */
  function Flatten(chunks: seq<seq<byte>>): seq<byte>
  {
    if |chunks| == 0 then [] else chunks[0] + Flatten(chunks[1..])
  }

  /** The bytes read before the first stop event. */
  function BytesRead(events: seq<PtyEvent>): seq<byte>
  {
    if |events| == 0 then []
    else match events[0]
      case ClosedByOther => []
      case ReadFailed(_) => []
      case Chunk(data) => data + BytesRead(events[1..])
  }

  lemma FlattenAppend(a: seq<seq<byte>>, b: seq<seq<byte>>)
    ensures Flatten(a + b) == Flatten(a) + Flatten(b)
  {
    if |a| == 0 {
      assert a + b == b;
    } else {
      assert (a + b)[1..] == a[1..] + b;
      FlattenAppend(a[1..], b);
    }
  }

  /** The forwarded messages carry exactly the bytes read, in read order:
      dropping the empty reads loses nothing. */
  lemma {:induction false} ForwardedPreservesBytes(events: seq<PtyEvent>)
    ensures Flatten(Forwarded(events)) == BytesRead(events)
    ensures forall i :: 0 <= i < |Forwarded(events)| ==> |Forwarded(events)[i]| > 0
    decreases |events|
  {
    if |events| > 0 && events[0].Chunk? {
      var data := events[0].data;
      ForwardedPreservesBytes(events[1..]);
      var head: seq<seq<byte>> := if |data| == 0 then [] else [data];
      FlattenAppend(head, Forwarded(events[1..]));
      assert Flatten(head) == data by {
        if |data| > 0 {
          assert Flatten(head) == data + Flatten(head[1..]);
        }
      }
    }
  }

  datatype PumpResult = PumpResult(sent: seq<Outbound>, term: Terminal, kill: bool, stop: PumpStop)

  /** The pump loop of `startPty`, run over a finite stretch of read
      outcomes. */
  method Pump(t: Terminal, events: seq<PtyEvent>) returns (r: PumpResult)
    requires !t.closed
    requires ChunksFit(events)
    ensures |r.sent| == |Forwarded(events)|
    ensures forall i :: 0 <= i < |r.sent| ==>
              r.sent[i] == Outbound(0, TerminalOutput(TerminalData(Forwarded(events)[i])))
    ensures forall i :: 0 <= i < |r.sent| ==> 0 < |r.sent[i].spec.output.data| <= ReadBufferSize
    ensures r.stop == StopOf(events)
    ensures r.term.closed <==> r.stop != StillRunning
    ensures r.kill <==> r.stop == StoppedReadError(false)
  {
    var sent: seq<Outbound> := [];
    var i := 0;
    while i < |events|
      invariant 0 <= i <= |events|
      invariant forall k :: 0 <= k < |sent| ==> sent[k].spec.TerminalOutput?
      invariant Forwarded(events) == ForwardedFrom(events, i, sent)
      invariant StopOf(events) == StopOf(events[i..])
      invariant forall k :: 0 <= k < |sent| ==> 0 < |sent[k].spec.output.data| <= ReadBufferSize
      invariant forall k :: 0 <= k < |sent| ==> sent[k].listenerId == 0
    {
      match events[i]
      case ClosedByOther =>
        ForwardedStop(events, i, sent);
        return PumpResult(sent, Terminal(true), false, StoppedClosed);
      case ReadFailed(meanwhile) =>
        ForwardedStop(events, i, sent);
        var down := CloseOnce(Terminal(meanwhile));
        return PumpResult(sent, down.term, down.kill, StoppedReadError(meanwhile));
      case Chunk(data) =>
        ForwardedStep(events, i, sent);
        if |data| == 0 {
          i := i + 1;
          continue;
        }
        sent := sent + [Outbound(0, TerminalOutput(TerminalData(data)))];
        i := i + 1;
    }
    ForwardedStop(events, i, sent);
    return PumpResult(sent, t, false, StillRunning);
  }

  /** The payloads of the messages sent so far. */
  function Payloads(sent: seq<Outbound>): seq<seq<byte>>
    requires forall k :: 0 <= k < |sent| ==> sent[k].spec.TerminalOutput?
  {
    seq(|sent|, k requires 0 <= k < |sent| => sent[k].spec.output.data)
  }

  /** What has been sent followed by what the rest of the input will
      forward. */
  function ForwardedFrom(events: seq<PtyEvent>, i: nat, sent: seq<Outbound>): seq<seq<byte>>
    requires i <= |events|
    requires forall k :: 0 <= k < |sent| ==> sent[k].spec.TerminalOutput?
  {
    Payloads(sent) + Forwarded(events[i..])
  }

  lemma ForwardedStep(events: seq<PtyEvent>, i: nat, sent: seq<Outbound>)
    requires i < |events| && events[i].Chunk?
    requires forall k :: 0 <= k < |sent| ==> sent[k].spec.TerminalOutput?
    ensures var data := events[i].data;
      var next := if |data| == 0 then sent else sent + [Outbound(0, TerminalOutput(TerminalData(data)))];
      ForwardedFrom(events, i, sent) == ForwardedFrom(events, i + 1, next)
      && StopOf(events[i..]) == StopOf(events[i + 1..])
  {
    assert events[i..][1..] == events[i + 1..];
    var data := events[i].data;
    if |data| > 0 {
      var next := sent + [Outbound(0, TerminalOutput(TerminalData(data)))];
      assert Payloads(next) == Payloads(sent) + [data];
    }
  }

  lemma ForwardedStop(events: seq<PtyEvent>, i: nat, sent: seq<Outbound>)
    requires i <= |events| && (i < |events| ==> !events[i].Chunk?)
    requires forall k :: 0 <= k < |sent| ==> sent[k].spec.TerminalOutput?
    ensures ForwardedFrom(events, i, sent) == Payloads(sent)
  {
  }

  // ---------------------------------------------------------------------
  // Write and resize
  // ---------------------------------------------------------------------

  /** What `handleTerminalWrite` did: the bytes handed to the shell, if
      any, and the error it returns. */
  datatype WriteOutcome = WriteOutcome(written: Option<seq<byte>>, error: Option<ErrorText>)

  /** `handleTerminalWrite`; `writeError` is what the shell write would
      report. */
  function HandleTerminalWrite(term: Option<Terminal>, msg: TerminalData, writeError: Option<ErrorText>): (r: WriteOutcome)
    ensures (term.None? || term.value.closed) ==> r == WriteOutcome(None, None)
    ensures term.Some? && !term.value.closed ==> r.written == Some(msg.data) && r.error == writeError
  {
    if term.None? || term.value.closed then WriteOutcome(None, None)
    else WriteOutcome(Some(msg.data), writeError)
  }

  /** The window size handed to the ioctl: both values cut to 16 bits. */
  datatype WinSize = WinSize(height: uint16, width: uint16)

  function SetTerminalSize(w: uint32, h: uint32): (r: WinSize)
    ensures w < 0x1_0000 ==> r.width == w
    ensures h < 0x1_0000 ==> r.height == h
    ensures (w - r.width) % 0x1_0000 == 0 && (h - r.height) % 0x1_0000 == 0
  {
    WinSize(ToUint16(h), ToUint16(w))
  }

  /** The terminal height every resize uses. */
  const ResizeHeight: uint32 := 40

  /** `handleTerminalWidth`: the window size applied, if any; it never
      reports an error. */
  function HandleTerminalWidth(term: Option<Terminal>, msg: TerminalWidth): (r: Option<WinSize>)
    ensures (term.None? || term.value.closed) <==> r.None?
    ensures r.Some? ==> r.value.height == 40
    ensures r.Some? && msg.newWidth < 0x1_0000 ==> r.value.width == msg.newWidth
    ensures r.Some? ==> (msg.newWidth - r.value.width) % 0x1_0000 == 0
  {
    if term.None? || term.value.closed then None
    else Some(SetTerminalSize(msg.newWidth, ResizeHeight))
  }
}
