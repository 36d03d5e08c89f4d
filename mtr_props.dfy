/** Properties of the `mtr --raw` decoder over whole outputs. */
module MtrProps {
  import opened Wrappers
  import opened MtrNumbers
  import opened MtrStats
  import opened Mtr

  /** The first newline of b + t is the first newline of b when b has one. */
  lemma FirstNewlineOfPrefix(b: seq<byte>, t: seq<byte>)
    requires Newline in b
    ensures IndexByte(b + t, Newline) == IndexByte(b, Newline)
  {
    var k := IndexByte(b, Newline);
    assert (b + t)[..k] == b[..k];
    assert (b + t)[k] == Newline;
  }

  /** Cutting whole lines followed by a tail at their first newline. */
  lemma SplitWholeLines(b: seq<byte>, t: seq<byte>) returns (k: int)
    requires b != [] && b[|b| - 1] == Newline
    ensures k == IndexByte(b, Newline) == IndexByte(b + t, Newline) && 0 <= k < |b|
    ensures (b + t)[..k] == b[..k] && (b + t)[k + 1..] == b[k + 1..] + t
    ensures b[k + 1..] == [] || b[k + 1..][|b[k + 1..]| - 1] == Newline
  {
    assert b[|b| - 1] in b;
    FirstNewlineOfPrefix(b, t);
    k := IndexByte(b, Newline);
    assert (b + t)[..k] == b[..k];
    assert (b + t)[k + 1..] == b[k + 1..] + t;
  }

  /**
   * Only newline-terminated lines are decoded: what follows the last newline
   * does not matter. `b` is a run of whole lines.
   */
  lemma {:induction false} UnterminatedTailIgnored(b: seq<byte>, t: seq<byte>, hosts: seq<Host>,
                                                  parseIp: seq<byte> -> Option<Ip>)
    requires b == [] || b[|b| - 1] == Newline
    requires Newline !in t
    ensures DecodeLines(b + t, hosts, parseIp) == DecodeLines(b, hosts, parseIp)
    decreases |b|
  {
    if b == [] {
      assert b + t == t;
    } else {
      var k := SplitWholeLines(b, t);
      var r := Step(hosts, b[..k], parseIp);
      if r.Success? {
        UnterminatedTailIgnored(b[k + 1..], t, r.value, parseIp);
      }
    }
  }

  /**
   * A run's result depends only on the output up to its last newline; the
   * space `New` appends is never read either.
   */
  lemma OutputAfterLastNewlineIgnored(reportCycles: int, lines: seq<byte>, tail: seq<byte>,
                                      parseIp: seq<byte> -> Option<Ip>)
    requires lines == [] || lines[|lines| - 1] == Newline
    requires Newline !in tail
    ensures RunResult(reportCycles, lines + tail, None, parseIp) == RunResult(reportCycles, lines, None, parseIp)
    ensures RunResult(reportCycles, lines, None, parseIp).0
            == (var (hosts, fault) := DecodeLines(lines, [], parseIp);
                if fault.None? then Summaries(hosts, reportCycles) else hosts)
  {
    UnterminatedTailIgnored(lines, tail + [Space], [], parseIp);
    UnterminatedTailIgnored(lines, [Space], [], parseIp);
    assert (lines + tail) + [Space] == lines + (tail + [Space]);
  }

  /** Decoding keeps every host's `Hop` equal to its position. */
  lemma {:induction false} DecodeKeepsNumbering(buf: seq<byte>, hosts: seq<Host>, parseIp: seq<byte> -> Option<Ip>)
    requires Numbered(hosts)
    ensures Numbered(DecodeLines(buf, hosts, parseIp).0)
    decreases |buf|
  {
    var lineIdx := IndexByte(buf, Newline);
    if lineIdx != -1 {
      match Step(hosts, buf[..lineIdx], parseIp)
      case Success(next) =>
        StepKeepsNumbering(hosts, buf[..lineIdx], parseIp);
        DecodeKeepsNumbering(buf[lineIdx + 1..], next, parseIp);
      case Failure(_) =>
    }
  }

  lemma StepKeepsNumbering(hosts: seq<Host>, line: seq<byte>, parseIp: seq<byte> -> Option<Ip>)
    requires Numbered(hosts)
    ensures Step(hosts, line, parseIp).Success? ==> Numbered(Step(hosts, line, parseIp).value)
  {
    if ParseHostnum(line).Some? && line[0] == HostLine {
      HostLineEffect(hosts, line, parseIp);
    }
  }

  /** Every run, failed or not, leaves hosts numbered by position. */
  lemma RunHostsNumbered(reportCycles: int, output: seq<byte>, execError: Option<string>,
                         parseIp: seq<byte> -> Option<Ip>)
    ensures Numbered(RunResult(reportCycles, output, execError, parseIp).0)
  {
    if execError.None? {
      DecodeKeepsNumbering(output + [Space], [], parseIp);
    }
  }

  /**
   * A `d` or `p` line for a hop outside the host list is a fault; before any
   * `h` line the list is empty, so a run whose first line is one fails.
   */
  lemma UndeclaredHopFails(line: seq<byte>, rest: seq<byte>, parseIp: seq<byte> -> Option<Ip>)
    requires Newline !in line
    requires ParseHostnum(line).Some? && line[0] in {DnsLine, PacketLine}
    ensures DecodeLines(line + [Newline] + rest, [], parseIp)
            == ([], Some(IndexOutOfRange(ParseHostnum(line).value.0, 0)))
  {
    var buf := line + [Newline] + rest;
    FirstNewlineOfPrefix(line + [Newline], rest);
    assert IndexByte(line + [Newline], Newline) == |line|;
    assert buf[..|line|] == line;
  }

  /** The statistics fields of a host as `&Host{...}` leaves them: all zero. */
  predicate ZeroStats(h: Host) {
    h.meanTotal == 0 && h.best == 0 && h.worst == 0 &&
    h.jitterTotal == 0 && h.worstJitter == 0 && h.interarrivalJitter == 0
  }

  predicate AllZeroStats(hosts: seq<Host>) {
    forall i :: 0 <= i < |hosts| ==> ZeroStats(hosts[i])
  }

  /** No line touches a statistics field; placeholders start with them at zero. */
  lemma StepKeepsZeroStats(hosts: seq<Host>, line: seq<byte>, parseIp: seq<byte> -> Option<Ip>)
    requires AllZeroStats(hosts)
    ensures Step(hosts, line, parseIp).Success? ==> AllZeroStats(Step(hosts, line, parseIp).value)
  {
    if ParseHostnum(line).Some? {
      if line[0] == HostLine {
        HostLineEffect(hosts, line, parseIp);
      } else if line[0] == DnsLine || line[0] == PacketLine {
        DnsOrPacketLineEffect(hosts, line, parseIp);
      }
    }
  }

  /** Decoding leaves every statistics field as it found it: zero stays zero. */
  lemma {:induction false} DecodeKeepsZeroStats(buf: seq<byte>, hosts: seq<Host>, parseIp: seq<byte> -> Option<Ip>)
    requires AllZeroStats(hosts)
    ensures AllZeroStats(DecodeLines(buf, hosts, parseIp).0)
    decreases |buf|
  {
    var lineIdx := IndexByte(buf, Newline);
    if lineIdx != -1 {
      match Step(hosts, buf[..lineIdx], parseIp)
      case Success(next) =>
        StepKeepsZeroStats(hosts, buf[..lineIdx], parseIp);
        DecodeKeepsZeroStats(buf[lineIdx + 1..], next, parseIp);
      case Failure(_) =>
    }
  }

  /**
   * mtr.go:115-117 and 133 on a successful run: a hop with no samples keeps
   * every statistic at zero, and every hop's interarrival jitter is the A.8
   * fold from J = 0, hence never negative.
   */
  lemma RunStatsFromZero(reportCycles: int, output: seq<byte>, parseIp: seq<byte> -> Option<Ip>)
    requires RunResult(reportCycles, output, None, parseIp).1.None?
    ensures
      var hosts := RunResult(reportCycles, output, None, parseIp).0;
      forall i :: 0 <= i < |hosts| ==>
        && (hosts[i].received == 0 ==> ZeroStats(hosts[i]))
        && hosts[i].interarrivalJitter == Iaj(0, hosts[i].packetMicrosecs, |hosts[i].packetMicrosecs|)
        && hosts[i].interarrivalJitter >= 0
  {
    var decoded := DecodeLines(output + [Space], [], parseIp).0;
    DecodeKeepsZeroStats(output + [Space], [], parseIp);
    var hosts := RunResult(reportCycles, output, None, parseIp).0;
    assert hosts == Summaries(decoded, reportCycles);
    forall i | 0 <= i < |hosts|
      ensures hosts[i].interarrivalJitter == Iaj(0, hosts[i].packetMicrosecs, |hosts[i].packetMicrosecs|)
      ensures hosts[i].interarrivalJitter >= 0
    {
      var s := decoded[i].packetMicrosecs;
      assert hosts[i] == Summary(decoded[i], reportCycles);
      assert ZeroStats(decoded[i]);
      IajNonNegative(0, s, |s|);
    }
  }
}
