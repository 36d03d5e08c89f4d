/**
 * go-mtr (mtr.go): the `Host` and `MTR` records, the decoder of `mtr --raw`
 * output (`processOutput`) and the per-hop statistics (`processHosts`).
 *
 * A run of `mtr` is not part of this model: the bytes it printed, or the error it
 * failed with, are inputs. `net.ParseIP` is a parameter `parseIp`; an absent IP
 * (Go's nil `net.IP`) is `None`.
 */
module Mtr {
  import opened Wrappers
  import opened MtrNumbers
  import opened MtrStats

  /** The bytes of a parsed `net.IP`. */
  type Ip = seq<byte>

  /** The line prefixes of the raw protocol: `h`ost, `d`ns and `p`acket. */
  const HostLine: byte := 104
  const DnsLine: byte := 100
  const PacketLine: byte := 112

  /**
   * One hop (mtr.go:14-31). `meanTotal` and `jitterTotal` are the integer
   * numerators of the float fields `Mean` and `MeanJitter` (both over `received`).
   */
  datatype Host = Host(
    ip: Option<Ip>,
    name: seq<byte>,
    hop: int,
    packetMicrosecs: seq<int>,
    sent: int,
    received: int,
    dropped: int,
    meanTotal: int,
    best: int,
    worst: int,
    jitterTotal: int,
    worstJitter: int,
    interarrivalJitter: int)

  /** The runtime fault Go raises while decoding, which the deferred `recover` catches. */
  datatype Fault = SliceOutOfRange | IndexOutOfRange(index: int, length: int)

  /** What `MTR.Error` holds: the command's own failure, or a decoding fault. */
  datatype MtrError = ExecFailed(message: string) | Unprocessable(fault: Fault)

  /** The placeholder `&Host{Hop: hop}`: every other field at its zero value. */
  function EmptyHost(hop: int): (h: Host)
    ensures h.hop == hop && h.ip.None? && h.packetMicrosecs == []
  {
    Host(None, [], hop, [], 0, 0, 0, 0, 0, 0, 0, 0, 0)
  }

  /** Every host's `Hop` is its position. */
  predicate Numbered(hosts: seq<Host>) {
    forall i :: 0 <= i < |hosts| ==> hosts[i].hop == i
  }

  /** mtr.go:95-97: append placeholders until there are at least n + 1 hosts. */
  function Extend(hosts: seq<Host>, n: int): (r: seq<Host>)
    ensures |r| == if |hosts| < n + 1 then n + 1 else |hosts|
    ensures r[..|hosts|] == hosts
    ensures forall i :: |hosts| <= i < |r| ==> r[i] == EmptyHost(i)
  {
    if |hosts| < n + 1 then hosts + seq(n + 1 - |hosts|, k => EmptyHost(|hosts| + k)) else hosts
  }

  /**
   * The effect of one line (mtr.go:91-103), or the fault it raises; the four
   * lemmas below state it case by case.
   */
  function Step(hosts: seq<Host>, line: seq<byte>, parseIp: seq<byte> -> Option<Ip>): Result<seq<Host>, Fault>
  {
    match ParseHostnum(line)
    case None => Failure(SliceOutOfRange)
    case Some((n, c)) =>
      if line[0] == HostLine then
        var grown := Extend(hosts, n);
        if n < 0 then Failure(IndexOutOfRange(n, |grown|))
        else Success(grown[n := grown[n].(ip := parseIp(line[c..]))])
      else if line[0] == DnsLine || line[0] == PacketLine then
        if !(0 <= n < |hosts|) then Failure(IndexOutOfRange(n, |hosts|))
        else if line[0] == DnsLine then Success(hosts[n := hosts[n].(name := line[c..])])
        else Success(hosts[n := hosts[n].(packetMicrosecs := hosts[n].packetMicrosecs + [ByteNum(line[c..])])])
      else Success(hosts)
  }

  /** A line without the `c <num> ` shape faults, whatever its prefix (mtr.go:91). */
  lemma MalformedLineFaults(hosts: seq<Host>, line: seq<byte>, parseIp: seq<byte> -> Option<Ip>)
    requires |line| < 2 || Space !in line[2..]
    ensures Step(hosts, line, parseIp) == Failure(SliceOutOfRange)
  {
  }

  /** A well-shaped line with an unknown prefix changes nothing (mtr.go:93-103). */
  lemma OtherLineIgnored(hosts: seq<Host>, line: seq<byte>, parseIp: seq<byte> -> Option<Ip>)
    requires ParseHostnum(line).Some? && line[0] !in {HostLine, DnsLine, PacketLine}
    ensures Step(hosts, line, parseIp) == Success(hosts)
  {
  }

  /**
   * `h n ip` (mtr.go:94-98): faults exactly when n < 0; otherwise there are at
   * least n + 1 hosts, the new ones placeholders, and only hop n's IP changes.
   */
  lemma HostLineEffect(hosts: seq<Host>, line: seq<byte>, parseIp: seq<byte> -> Option<Ip>)
    requires ParseHostnum(line).Some? && line[0] == HostLine
    ensures
      var (n, c) := ParseHostnum(line).value;
      var r := Step(hosts, line, parseIp);
      && (r.Failure? <==> n < 0)
      && (r.Success? ==>
            && |r.value| == (if |hosts| < n + 1 then n + 1 else |hosts|)
            && r.value[n] == (if n < |hosts| then hosts[n] else EmptyHost(n)).(ip := parseIp(line[c..]))
            && (forall i :: 0 <= i < |hosts| && i != n ==> r.value[i] == hosts[i])
            && (forall i :: |hosts| <= i < |r.value| && i != n ==> r.value[i] == EmptyHost(i)))
  {
  }

  /**
   * `d n name` and `p n micros` (mtr.go:99-102): fault exactly when n is outside
   * 0..|hosts|-1 (a placeholder made by a later hop's `h` line accepts them);
   * otherwise only hop n changes: its name is set, or the sample is appended to
   * the end of its samples.
   */
  lemma DnsOrPacketLineEffect(hosts: seq<Host>, line: seq<byte>, parseIp: seq<byte> -> Option<Ip>)
    requires ParseHostnum(line).Some? && line[0] in {DnsLine, PacketLine}
    ensures
      var (n, c) := ParseHostnum(line).value;
      var r := Step(hosts, line, parseIp);
      && (r.Failure? <==> !(0 <= n < |hosts|))
      && (r.Success? ==>
            && |r.value| == |hosts|
            && (forall i :: 0 <= i < |hosts| && i != n ==> r.value[i] == hosts[i])
            && r.value[n] == if line[0] == DnsLine
                             then hosts[n].(name := line[c..])
                             else hosts[n].(packetMicrosecs := hosts[n].packetMicrosecs + [ByteNum(line[c..])]))
  {
  }

  /**
   * mtr.go:83-104: the hosts after every newline-terminated line of `buf`, and
   * the fault of the first line that raised one (the hosts are then those
   * reached before it). Bytes after the last newline are never read.
   */
  function DecodeLines(buf: seq<byte>, hosts: seq<Host>, parseIp: seq<byte> -> Option<Ip>): (r: (seq<Host>, Option<Fault>))
    decreases |buf|
  {
    var lineIdx := IndexByte(buf, Newline);
    if lineIdx == -1 then (hosts, None)
    else
      match Step(hosts, buf[..lineIdx], parseIp)
      case Success(next) => DecodeLines(buf[lineIdx + 1..], next, parseIp)
      case Failure(f) => (hosts, Some(f))
  }

  /** mtr.go:110-156: the statistics of one host when `sent` probes went out. */
  function Summary(h: Host, sent: int): (r: Host)
    ensures r.received == |h.packetMicrosecs| && r.received + r.dropped == sent && r.sent == sent
    ensures r.(sent := h.sent, received := h.received, dropped := h.dropped,
               meanTotal := h.meanTotal, best := h.best, worst := h.worst,
               jitterTotal := h.jitterTotal, worstJitter := h.worstJitter,
               interarrivalJitter := h.interarrivalJitter) == h
    ensures |h.packetMicrosecs| == 0 ==>
      r.meanTotal == h.meanTotal && r.best == h.best && r.worst == h.worst &&
      r.jitterTotal == h.jitterTotal && r.worstJitter == h.worstJitter &&
      r.interarrivalJitter == h.interarrivalJitter
  {
    var s := h.packetMicrosecs;
    var counted := h.(sent := sent, received := |s|, dropped := sent - |s|);
    if |s| == 0 then counted
    else counted.(meanTotal := Total(s, |s|), best := Best(s, |s|), worst := Worst(s, |s|),
                  jitterTotal := JitterTotal(s, |s|), worstJitter := WorstJitter(s, |s|),
                  interarrivalJitter := Iaj(h.interarrivalJitter, s, |s|))
  }

  function Summaries(hosts: seq<Host>, sent: int): (r: seq<Host>)
    ensures |r| == |hosts|
    ensures forall i :: 0 <= i < |hosts| ==> r[i] == Summary(hosts[i], sent)
  {
    seq(|hosts|, i requires 0 <= i < |hosts| => Summary(hosts[i], sent))
  }

  /**
   * What `New` leaves behind (mtr.go:46-57): the command's error and no hosts,
   * or the decoded hosts with their statistics, or the decoding fault and the
   * hosts decoded before it (`processHosts` not reached).
   */
  function RunResult(reportCycles: int, output: seq<byte>, execError: Option<string>,
                     parseIp: seq<byte> -> Option<Ip>): (r: (seq<Host>, Option<MtrError>))
  {
    if execError.Some? then ([], Some(ExecFailed(execError.value)))
    else
      var (hosts, fault) := DecodeLines(output + [Space], [], parseIp);
      if fault.None? then (Summaries(hosts, reportCycles), None)
      else (hosts, Some(Unprocessable(fault.value)))
  }

  /** The body of `processHosts` for one host, with its two loops over the samples. */
  method SummarizeHost(h: Host, sent: int) returns (r: Host)
    ensures r == Summary(h, sent)
  {
    r := h.(sent := sent, received := |h.packetMicrosecs|, dropped := sent - |h.packetMicrosecs|);
    if r.received == 0 {
      return;
    }
    var samples := h.packetMicrosecs;
    var totalPacketTime := 0;
    var best := BestStart;
    var worst := 0;
    var jitters := new int[r.received](_ => 0);
    var worstJitter := 0;
    var interarrivalJitter := h.interarrivalJitter;
    for i := 0 to |samples|
      invariant jitters.Length == |samples|
      invariant totalPacketTime == Total(samples, i)
      invariant best == Best(samples, i) && worst == Worst(samples, i)
      invariant worstJitter == WorstJitter(samples, i)
      invariant interarrivalJitter == Iaj(h.interarrivalJitter, samples, i)
      invariant forall k :: 0 <= k < i ==> jitters[k] == Gap(samples, k)
      invariant forall k :: i <= k < |samples| ==> jitters[k] == 0
    {
      var packet := samples[i];
      if i > 0 {
        var newJitter := packet - samples[i - 1];
        if newJitter < 0 {
          newJitter := -newJitter;
        }
        if newJitter > worstJitter {
          worstJitter := newJitter;
        }
        jitters[i] := newJitter;
        interarrivalJitter := interarrivalJitter + newJitter - (interarrivalJitter + 8) / 16;
      }
      totalPacketTime := totalPacketTime + packet;
      if packet > worst {
        worst := packet;
      }
      if packet < best {
        best := packet;
      }
    }
    var jitterSum := 0;
    for i := 0 to |samples|
      invariant jitterSum == JitterTotal(samples, i)
    {
      jitterSum := jitterSum + jitters[i];
    }
    r := r.(meanTotal := totalPacketTime, worstJitter := worstJitter, best := best, worst := worst,
            jitterTotal := jitterSum, interarrivalJitter := interarrivalJitter);
  }

  /** The `MTR` record (mtr.go:33-39), without its `Done` channel. */
  class MTR {
    var outputRaw: seq<byte>
    var error: Option<MtrError>
    var packetsSent: int
    var hosts: seq<Host>

    /**
     * `New` (mtr.go:46-57) once the command has finished: `output` is what it
     * printed and `execError` its failure, if any.
     */
    constructor New(reportCycles: int, output: seq<byte>, execError: Option<string>,
                    parseIp: seq<byte> -> Option<Ip>)
      ensures packetsSent == reportCycles && outputRaw == output
      ensures (hosts, error) == RunResult(reportCycles, output, execError, parseIp)
    {
      packetsSent := reportCycles;
      outputRaw := output;
      error := if execError.Some? then Some(ExecFailed(execError.value)) else None;
      hosts := [];
      new;
      if error.None? {
        ProcessOutput(parseIp);
      }
    }

    /** mtr.go:72-107, with the panic and its recovery made an explicit early return. */
    method ProcessOutput(parseIp: seq<byte> -> Option<Ip>)
      modifies this`hosts, this`error
      ensures
        var (decoded, fault) := DecodeLines(outputRaw + [Space], old(hosts), parseIp);
        if fault.None? then hosts == Summaries(decoded, packetsSent) && error == old(error)
        else hosts == decoded && error == Some(Unprocessable(fault.value))
    {
      var output := outputRaw + [Space];
      ghost var decoded := DecodeLines(output, hosts, parseIp);
      while true
        invariant error == old(error)
        invariant DecodeLines(output, hosts, parseIp) == decoded
        decreases |output|
      {
        var lineIdx := IndexByte(output, Newline);
        if lineIdx == -1 {
          break;
        }
        var line := output[..lineIdx];
        output := output[lineIdx + 1..];
        var fault := ProcessLine(line, parseIp);
        if fault.Some? {
          error := Some(Unprocessable(fault.value));
          return;
        }
      }
      ProcessHosts();
    }

    /**
     * The body of the loop of `processOutput` for one line (mtr.go:91-103); a
     * fault is returned instead of raised, before anything has changed.
     */
    method ProcessLine(line: seq<byte>, parseIp: seq<byte> -> Option<Ip>) returns (fault: Option<Fault>)
      modifies this`hosts
      ensures fault.None? ==> Step(old(hosts), line, parseIp) == Success(hosts)
      ensures fault.Some? ==> Step(old(hosts), line, parseIp) == Failure(fault.value) && hosts == old(hosts)
    {
      var parsed := ParseHostnum(line);
      if parsed.None? {
        return Some(SliceOutOfRange);
      }
      var (hostnum, finalFieldIdx) := parsed.value;
      if line[0] == HostLine {
        ghost var before := hosts;
        while |hosts| < hostnum + 1
          invariant |before| <= |hosts| <= if |before| < hostnum + 1 then hostnum + 1 else |before|
          invariant hosts[..|before|] == before
          invariant forall i :: |before| <= i < |hosts| ==> hosts[i] == EmptyHost(i)
          decreases hostnum + 1 - |hosts|
        {
          hosts := hosts + [EmptyHost(|hosts|)];
        }
        assert hosts == Extend(before, hostnum);
        if hostnum < 0 {
          return Some(IndexOutOfRange(hostnum, |hosts|));
        }
        hosts := hosts[hostnum := hosts[hostnum].(ip := parseIp(line[finalFieldIdx..]))];
      } else if line[0] == DnsLine {
        if !(0 <= hostnum < |hosts|) {
          return Some(IndexOutOfRange(hostnum, |hosts|));
        }
        hosts := hosts[hostnum := hosts[hostnum].(name := line[finalFieldIdx..])];
      } else if line[0] == PacketLine {
        if !(0 <= hostnum < |hosts|) {
          return Some(IndexOutOfRange(hostnum, |hosts|));
        }
        var sample := ParseByteNum(line[finalFieldIdx..]);
        hosts := hosts[hostnum := hosts[hostnum].(packetMicrosecs := hosts[hostnum].packetMicrosecs + [sample])];
      }
      fault := None;
    }

    /** mtr.go:109-158: every host gets its statistics. */
    method ProcessHosts()
      modifies this`hosts
      ensures hosts == Summaries(old(hosts), packetsSent)
    {
      var i := 0;
      while i < |hosts|
        invariant 0 <= i <= |hosts| == |old(hosts)|
        invariant forall k :: 0 <= k < i ==> hosts[k] == Summary(old(hosts)[k], packetsSent)
        invariant forall k :: i <= k < |hosts| ==> hosts[k] == old(hosts)[k]
      {
        var summary := SummarizeHost(hosts[i], packetsSent);
        hosts := hosts[i := summary];
        i := i + 1;
      }
    }
  }
}
