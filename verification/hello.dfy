/** The session announcement: the local service scan (its partition of the
    port range, its progress accounting and its per-port probe), the
    assembly of the announcement, and the handling of the server's answer.
    Sockets, the working directory and the goroutine schedule are
    abstract. */
module HelloHandshake {
  import opened Wrappers
  import opened GoStrings
  import opened Protocol
  import PipelineInfo

  // ---------------------------------------------------------------------
  // Port chunks
  // ---------------------------------------------------------------------

  /** The ports `start <= port < end` scanned by one goroutine. */
  datatype Chunk = Chunk(start: int, end: int)

  const ChunkSize := 10000
  const LastChunkStart := 60001
  /** One past the highest port. */
  const PortLimit := 65536

  /** Each chunk starts where the previous one ended. */
  predicate Contiguous(chunks: seq<Chunk>)
  {
    && (forall k :: 0 <= k < |chunks| ==> chunks[k].start < chunks[k].end)
    && (forall k :: 0 <= k < |chunks| - 1 ==> chunks[k].end == chunks[k + 1].start)
  }

  /** The loop of `discoverServices` that starts one scanner per chunk. */
  method PortChunks() returns (chunks: seq<Chunk>)
    ensures |chunks| == 7
    ensures Contiguous(chunks)
    ensures chunks[0].start == 1 && chunks[|chunks| - 1].end == PortLimit
    ensures forall k :: 0 <= k < |chunks| ==> chunks[k].end - chunks[k].start <= ChunkSize
    ensures forall port :: 1 <= port < PortLimit ==> HeldOnce(chunks, port)
    ensures PortCount(chunks) == EndProgress
  {
    chunks := [];
    var startPort := 1;
    while startPort <= LastChunkStart
      invariant 1 <= startPort <= LastChunkStart + ChunkSize
      invariant (startPort - 1) % ChunkSize == 0
      invariant |chunks| == (startPort - 1) / ChunkSize
      invariant Contiguous(chunks)
      invariant |chunks| > 0 ==> chunks[0].start == 1 && chunks[|chunks| - 1].end == (if startPort < PortLimit then startPort else PortLimit)
      invariant forall k :: 0 <= k < |chunks| ==> chunks[k].end - chunks[k].start <= ChunkSize
      invariant forall k :: 0 <= k < |chunks| ==> chunks[k].end <= PortLimit
    {
      var endPort := startPort + ChunkSize;
      if endPort > PortLimit {
        endPort := PortLimit;
      }
      chunks := chunks + [Chunk(startPort, endPort)];
      startPort := startPort + ChunkSize;
    }
    CoverAndCount(chunks);
  }

  /** Contiguous chunks spanning ports 1 to 65535 hold each of them once,
      65535 ports in all. */
  lemma CoverAndCount(chunks: seq<Chunk>)
    requires |chunks| > 0 && Contiguous(chunks)
    requires chunks[0].start == 1 && chunks[|chunks| - 1].end == PortLimit
    ensures forall port :: 1 <= port < PortLimit ==> HeldOnce(chunks, port)
    ensures PortCount(chunks) == EndProgress
  {
    forall port | 1 <= port < PortLimit
      ensures HeldOnce(chunks, port)
    {
      ContiguousCoversOnce(chunks, port);
    }
    PortCountTelescopes(chunks);
  }

  /** The chunks holding `port`. */
  function Holders(chunks: seq<Chunk>, port: int): set<nat>
  {
    set k | 0 <= k < |chunks| && chunks[k].start <= port < chunks[k].end
  }

  /** Exactly one chunk holds `port`. */
  predicate HeldOnce(chunks: seq<Chunk>, port: int)
  {
    exists k :: 0 <= k < |chunks| && Holders(chunks, port) == {k}
  }

  /** Contiguous chunks cover every port between the first start and the
      last end exactly once. */
  lemma ContiguousCoversOnce(chunks: seq<Chunk>, port: int)
    requires |chunks| > 0 && Contiguous(chunks)
    requires chunks[0].start <= port < chunks[|chunks| - 1].end
    ensures HeldOnce(chunks, port)
  {
    var k := SomeChunkHolds(chunks, port);
    forall j | j in Holders(chunks, port)
      ensures j == k
    {
      if j < k {
        ChunksAfterStartAbove(chunks, j);
      } else if j > k {
        ChunksAfterStartAbove(chunks, k);
      }
    }
    assert k in Holders(chunks, port);
    assert Holders(chunks, port) == {k};
  }

  /** Some chunk holds each port of the span. */
  lemma {:induction false} SomeChunkHolds(chunks: seq<Chunk>, port: int) returns (k: nat)
    requires |chunks| > 0 && Contiguous(chunks)
    requires chunks[0].start <= port < chunks[|chunks| - 1].end
    ensures k < |chunks| && chunks[k].start <= port < chunks[k].end
    decreases |chunks|
  {
    if port < chunks[0].end {
      k := 0;
    } else {
      var rest := chunks[1..];
      assert Contiguous(rest);
      var j := SomeChunkHolds(rest, port);
      k := j + 1;
    }
  }

  /** In contiguous chunks, every chunk after position `i` starts at or
      above the end of chunk `i`. */
  lemma {:induction false} ChunksAfterStartAbove(chunks: seq<Chunk>, i: nat)
    requires Contiguous(chunks) && i < |chunks|
    ensures forall k :: i < k < |chunks| ==> chunks[k].start >= chunks[i].end
    decreases |chunks| - i
  {
    if i + 1 < |chunks| {
      ChunksAfterStartAbove(chunks, i + 1);
    }
  }

  /** The number of ports in the chunks. */
  function PortCount(chunks: seq<Chunk>): int
  {
    if |chunks| == 0 then 0 else (chunks[0].end - chunks[0].start) + PortCount(chunks[1..])
  }

  /** Contiguous chunks hold as many ports as the range they span. */
  lemma {:induction false} PortCountTelescopes(chunks: seq<Chunk>)
    requires |chunks| > 0 && Contiguous(chunks)
    ensures PortCount(chunks) == chunks[|chunks| - 1].end - chunks[0].start
    decreases |chunks|
  {
    if |chunks| > 1 {
      assert Contiguous(chunks[1..]);
      PortCountTelescopes(chunks[1..]);
    }
  }

  // ---------------------------------------------------------------------
  // Progress accounting
  // ---------------------------------------------------------------------

  /** The progress total that completes the scan. */
  const EndProgress := 65535

  function Sum(s: seq<int>): int
  {
    if |s| == 0 then 0 else Sum(s[..|s| - 1]) + s[|s| - 1]
  }

  lemma SumAppend(s: seq<int>, x: int)
    ensures Sum(s + [x]) == Sum(s) + x
  {
    assert (s + [x])[..|s|] == s;
  }

  /** One scanner's progress reports: it counts ports and reports every
      hundred, then reports what is left over. */
  method BatchProgress(count: nat) returns (flushes: seq<int>)
    ensures Sum(flushes) == count
    ensures forall i :: 0 <= i < |flushes| ==> 1 <= flushes[i] <= 100
    ensures forall i :: 0 <= i < |flushes| - 1 ==> flushes[i] == 100
    ensures |flushes| == (count + 99) / 100
  {
    flushes := [];
    var amt := 0;
    var port := 0;
    while port < count
      invariant 0 <= port <= count
      invariant 0 <= amt < 100
      invariant Sum(flushes) + amt == port
      invariant forall i :: 0 <= i < |flushes| ==> flushes[i] == 100
      invariant |flushes| == port / 100 && amt == port % 100
    {
      amt := amt + 1;
      if amt >= 100 {
        SumAppend(flushes, amt);
        flushes := flushes + [amt];
        amt := 0;
      }
      port := port + 1;
    }
    if amt > 0 {
      SumAppend(flushes, amt);
      flushes := flushes + [amt];
    }
  }

  function PrefixSum(s: seq<int>, k: nat): int
    requires k <= |s|
  {
    Sum(s[..k])
  }

  /** However the scanners' reports interleave, the total reaches the end
      value only with the last report, so `done` is closed exactly once. */
  lemma {:induction false} EndReachedOnlyAtLast(reports: seq<int>)
    requires forall i :: 0 <= i < |reports| ==> reports[i] > 0
    requires Sum(reports) == EndProgress
    ensures PrefixSum(reports, |reports|) == EndProgress
    ensures forall k :: 0 <= k < |reports| ==> PrefixSum(reports, k) < EndProgress
  {
    assert reports[..|reports|] == reports;
    forall k | 0 <= k < |reports|
      ensures PrefixSum(reports, k) < EndProgress
    {
      PrefixSumIncreases(reports, k);
    }
  }

  lemma {:induction false} PrefixSumIncreases(s: seq<int>, k: nat)
    requires forall i :: 0 <= i < |s| ==> s[i] > 0
    requires k < |s|
    ensures PrefixSum(s, k) < Sum(s)
    decreases |s| - k
  {
    var n := |s|;
    assert s[..n] == s;
    assert s[..n][..n - 1] == s[..n - 1];
    if k < n - 1 {
      PrefixSumIncreases(s[..n - 1], k);
      assert s[..n - 1][..k] == s[..k];
    } else {
      assert s[..k] == s[..n - 1];
    }
  }

  /** A sum does not depend on the order of its terms. */
  lemma {:induction false} SumPermutation(a: seq<int>, b: seq<int>)
    requires multiset(a) == multiset(b)
    ensures Sum(a) == Sum(b)
    decreases |a|
  {
    if |a| == 0 {
      assert |multiset(b)| == 0;
    } else {
      var n := |a|;
      var x := a[n - 1];
      assert x in multiset(b) by { assert x in multiset(a); }
      var j :| 0 <= j < |b| && b[j] == x;
      MultisetRemoveAt(a, n - 1);
      MultisetRemoveAt(b, j);
      assert a[..n - 1] + a[n..] == a[..n - 1];
      SumPermutation(a[..n - 1], b[..j] + b[j + 1..]);
      SumRemove(b, j);
    }
  }

  lemma MultisetRemoveAt(s: seq<int>, j: nat)
    requires j < |s|
    ensures multiset(s[..j] + s[j + 1..]) == multiset(s) - multiset{s[j]}
  {
    assert s == s[..j] + [s[j]] + s[j + 1..];
  }

  lemma {:induction false} SumRemove(s: seq<int>, j: nat)
    requires j < |s|
    ensures Sum(s) == Sum(s[..j] + s[j + 1..]) + s[j]
    decreases |s|
  {
    var n := |s|;
    if j == n - 1 {
      assert s[..j] + s[j + 1..] == s[..n - 1];
    } else {
      var t := s[..n - 1];
      SumRemove(t, j);
      assert t[..j] + t[j + 1..] == (s[..j] + s[j + 1..])[..n - 2];
      assert s[..j] + s[j + 1..] == (t[..j] + t[j + 1..]) + [s[n - 1]];
      SumAppend(t[..j] + t[j + 1..], s[n - 1]);
    }
  }

  /** Whatever order the scanners' reports arrive in, they add up to the
      total of the reports of each scanner. */
  lemma InterleavedReportsSum(reports: seq<int>, perChunk: seq<int>)
    requires multiset(reports) == multiset(perChunk)
    requires Sum(perChunk) == EndProgress
    requires forall i :: 0 <= i < |reports| ==> reports[i] > 0
    ensures forall k :: 0 <= k < |reports| ==> PrefixSum(reports, k) < EndProgress
    ensures PrefixSum(reports, |reports|) == EndProgress
  {
    SumPermutation(reports, perChunk);
    EndReachedOnlyAtLast(reports);
  }

  // ---------------------------------------------------------------------
  // Probing one port
  // ---------------------------------------------------------------------

  /** One probe connection: the dial fails, the write or the 4-byte read
      fails, or the server answers with four bytes. */
  datatype Attempt = DialError | ExchangeError | Answer(first4: string)

  /** The probe of one port: TLS first, then plain. A dial error ends the
      probing; an exchange error or an answer other than "HTTP" moves on to
      the next mode. The result says whether TLS was what worked. */
  function ProbePort(tlsAttempt: Attempt, plainAttempt: Attempt): (r: Option<bool>)
    ensures r == Some(true) <==> tlsAttempt == Answer("HTTP")
    ensures r == Some(false) <==> tlsAttempt != DialError && tlsAttempt != Answer("HTTP")
                                  && plainAttempt == Answer("HTTP")
    ensures tlsAttempt == DialError ==> r.None?
  {
    match tlsAttempt
    case DialError => None
    case Answer(a) =>
      if a == "HTTP" then Some(true) else ProbePlain(plainAttempt)
    case ExchangeError => ProbePlain(plainAttempt)
  }

  function ProbePlain(plainAttempt: Attempt): (r: Option<bool>)
    ensures r.Some? <==> plainAttempt == Answer("HTTP")
    ensures r.Some? ==> r.value == false
  {
    if plainAttempt == Answer("HTTP") then Some(false) else None
  }

  /** `localhost:<port>`. */
  function LocalAddress(port: nat): string
  {
    "localhost:" + DecimalString(port)
  }

  /** The recorded service address for a port whose probe succeeded. */
  function ServiceAddress(port: nat, tls: bool): (r: string)
    ensures HasSuffix(r, LocalAddress(port))
    ensures tls <==> HasPrefix(r, "https://")
  {
    var scheme := if tls then "https://" else "http://";
    var r := scheme + LocalAddress(port);
    assert r[|r| - |LocalAddress(port)|..] == LocalAddress(port);
    assert !tls ==> r[..8] != "https://" by {
      if !tls && |r| >= 8 { assert r[4] == ':' && "https://"[4] == 's'; }
    }
    r
  }

  /** The probe outcomes of every port, as seen by the scanners. */
  type Probes = int -> (Attempt, Attempt)

  predicate Found(probes: Probes, port: int)
  {
    ProbePort(probes(port).0, probes(port).1).Some?
  }

  /** The service recorded for one port: its address with the scheme that
      worked, or nothing when no probe succeeded. */
  function Recorded(probes: Probes, port: nat): seq<Service>
  {
    var found := ProbePort(probes(port).0, probes(port).1);
    if found.Some? then [Service(ServiceAddress(port, found.value))] else []
  }

  /** The services one scanner records, in port order. */
  function ScanChunk(probes: Probes, start: nat, end: nat): (r: seq<Service>)
    decreases end - start
  {
    if start >= end then [] else Recorded(probes, start) + ScanChunk(probes, start + 1, end)
  }

  /** Exactly the ports whose probe succeeded are recorded, each with the
      scheme that worked. */
  lemma {:induction false} ScanChunkRecordsFound(probes: Probes, start: nat, end: nat, port: nat)
    requires start <= port < end
    ensures Found(probes, port) ==>
              Service(ServiceAddress(port, ProbePort(probes(port).0, probes(port).1).value)) in ScanChunk(probes, start, end)
    decreases end - start
  {
    assert ScanChunk(probes, start, end) == Recorded(probes, start) + ScanChunk(probes, start + 1, end);
    if port > start {
      ScanChunkRecordsFound(probes, start + 1, end, port);
    } else if Found(probes, port) {
      assert Recorded(probes, port) == [Service(ServiceAddress(port, ProbePort(probes(port).0, probes(port).1).value))];
    }
  }

  /** Nothing else is recorded: every recorded service belongs to a port of
      the chunk whose probe succeeded. */
  lemma {:induction false} ScanChunkOnlyFound(probes: Probes, start: nat, end: nat, s: Service)
    requires s in ScanChunk(probes, start, end)
    ensures exists port :: start <= port < end && Found(probes, port) &&
              s == Service(ServiceAddress(port, ProbePort(probes(port).0, probes(port).1).value))
    decreases end - start
  {
    assert ScanChunk(probes, start, end) == Recorded(probes, start) + ScanChunk(probes, start + 1, end);
    if s in Recorded(probes, start) {
      assert Found(probes, start);
    } else {
      assert s in ScanChunk(probes, start + 1, end);
      ScanChunkOnlyFound(probes, start + 1, end, s);
    }
  }

  // ---------------------------------------------------------------------
  // The announcement
  // ---------------------------------------------------------------------

  /** `sendHello` up to the send: the working directory (or "/" when it
      cannot be read), the pipeline facts, the redaction, the services. */
  function BuildHello(cwd: Option<string>, facts: PipelineInfo.PipelineFacts, mask: map<string, bool>,
                      services: seq<Service>): (r: Hello)
    requires PipelineInfo.PopulateDefined(facts)
    ensures r.workingDirectory == cwd.GetOr("/")
    ensures r.services == services
  {
    var start := EmptyHello.(workingDirectory := cwd.GetOr("/"));
    var populated := PipelineInfo.PopulatePipelineInfo(facts, start).hello;
    PipelineInfo.Redact(populated, mask).(services := services)
  }

  /** Redaction comes after the pipeline facts, so a masked field is sent
      empty whatever a provider put there; an unmasked field is sent as
      populated. */
  lemma BuildHelloRedactsLast(cwd: Option<string>, facts: PipelineInfo.PipelineFacts, mask: map<string, bool>,
                              services: seq<Service>, f: PipelineInfo.Field)
    requires PipelineInfo.PopulateDefined(facts)
    ensures var populated := PipelineInfo.PopulatePipelineInfo(facts, EmptyHello.(workingDirectory := cwd.GetOr("/"))).hello;
      PipelineInfo.GetField(BuildHello(cwd, facts, mask, services), f)
        == if PipelineInfo.FieldName(f) in mask then "" else PipelineInfo.GetField(populated, f)
  {
    var populated := PipelineInfo.PopulatePipelineInfo(facts, EmptyHello.(workingDirectory := cwd.GetOr("/"))).hello;
    var redacted := PipelineInfo.Redact(populated, mask);
    assert BuildHello(cwd, facts, mask, services) == redacted.(services := services);
    ServicesLeaveFields(redacted, services, f);
    PipelineInfo.RedactField(populated, mask, f);
  }

  /** Setting the services touches none of the pipeline fields. */
  lemma ServicesLeaveFields(h: Hello, services: seq<Service>, f: PipelineInfo.Field)
    ensures PipelineInfo.GetField(h.(services := services), f) == PipelineInfo.GetField(h, f)
  {
  }

  /** The announcement goes out as the only message of the handshake. */
  function HelloOutbound(hello: Hello): (r: Outbound)
    ensures r.spec.HelloMessage? && r.spec.hello == hello && r.listenerId == 0
  {
    Outbound(0, HelloMessage(hello))
  }

  // ---------------------------------------------------------------------
  // The server's answer
  // ---------------------------------------------------------------------

  const HelloRejected := "unable to request debug server"

  /** `handleHelloResponse`: the new dashboard URL, or the error when the
      server sent none (the URL then stays as it was). */
  function HandleHelloResponse(dashboardUrl: string, msg: HelloResponse): (r: (string, Option<ErrorText>))
    ensures msg.dashboardUrl == "" ==> r == (dashboardUrl, Some(HelloRejected))
    ensures msg.dashboardUrl != "" ==> r == (msg.dashboardUrl, None)
  {
    if msg.dashboardUrl == "" then (dashboardUrl, Some(HelloRejected)) else (msg.dashboardUrl, None)
  }
}
