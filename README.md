# mtr_exporter: the trace decoder and the aggregation, in Dafny

mtr_exporter runs `mtr --raw` against each configured target in every cycle and
publishes Prometheus counters. Two parts of it are modelled here, and properties of
them are proved.

- The vendored go-mtr package (`vendor/github.com/fastly/go-mtr/mtr.go`) runs mtr and
  decodes its raw output. The output is a series of newline-terminated records:
  `h <hop> <ip>`, `d <hop> <name>` and `p <hop> <microseconds>`. go-mtr turns these
  into one `Host` record per hop, then computes each hop's counts and latency
  statistics. A malformed record makes Go raise a runtime fault, which a deferred
  `recover` turns into `MTR.Error`.
- The exporter (`main.go`) runs `trace` for each target with one report cycle. It sends
  the host list of every run without an error to one aggregation loop. For each hop,
  that loop adds the hop's sent, received and dropped counts to counters labelled by
  alias, target, hop number and hop address. It also keeps a per-alias memory of the
  last route and the last destination, from which it counts route changes and
  destination changes. A failed run increments the target's `failed` counter instead.

Files:

- `wrappers.dfy`: the `Option` and `Result` types.
- `mtr_numbers.dfy`: `bytes.IndexByte`, `parseByteNum` and `parseHostnum`.
- `mtr_stats.dfy`: the integer folds of `processHosts` and what each one means.
- `mtr.dfy`: the `Host` record, the decoder as functions, and class `MTR` with
  `processOutput`, the loop body for one line and `processHosts` as methods.
- `mtr_props.dfy`: properties of decoding a whole output.
- `exporter.dfy`: `min`, the counters, the change detector, class `Exporter` with
  the aggregation of one feedback, and `trace`.
- `exporter_props.dfy`: what one aggregation step does to each counter label.

How Go's behaviour is represented:

- A runtime fault is a value (`Fault`), and `MTR.Error` is an `MtrError`.
- After a fault, the hosts are those reached before the faulting line. `processHosts`
  does not run.
- A Prometheus counter vector is a `map` from its label tuple to a count; a missing
  label reads 0.
- A nil `net.IP` is `None`.
- `net.ParseIP` is a function parameter `parseIp`.
- The output of the mtr command, or the error it failed with, is an input.

What the code does at its edges, which the model keeps:

- Bytes after the last newline are never decoded. `processOutput` appends a space and
  stops when no newline is left, so an unterminated last record is ignored
  (`MtrProps.OutputAfterLastNewlineIgnored`).
- `Dropped` is `Sent - Received` with no bound. More `p` records than report cycles
  make it negative, and `collect` then panics in that hop's `dropped.Add`, because a
  Prometheus counter refuses a negative increment (`Exporter.Exporter.Collect`,
  `ExporterProps.SecondSampleStopsAggregation`). A trace's `Sent` is 1 and its
  `Received` a sample count, so `sent.Add` and `received.Add` never panic on a
  trace's feedback; `Collect` still models their panics for any feedback.
- The remembered route is replaced only when one is already stored (main.go:199-213).
  The exporter starts with no routes, so none is ever stored and `route_changes` never
  moves (see Findings).
- An empty host list from a successful run is not dropped. `collect` indexes
  `tf.Hosts[-1]` and panics (`Exporter.Exporter.Collect`, `ExporterProps.EmptyOutputHasNoHosts`).

## Model

| member | source | states |
|---|---|---|
| MtrNumbers.IndexByte | vendor/github.com/fastly/go-mtr/mtr.go:84 | The result is -1 exactly when the byte is absent; otherwise it is the index of the byte's first occurrence. |
| MtrNumbers.ParseByteNum | vendor/github.com/fastly/go-mtr/mtr.go:59-65 | The loop's result is the accumulator `10*i + v - 48` folded over all bytes. |
| MtrNumbers.ByteNum | vendor/github.com/fastly/go-mtr/mtr.go:59-65 | The loop's accumulator as a fold: `10*i + v - 48` over the bytes from i = 0. ParseByteNum is proved to compute it, and ByteNumIsPositional, ByteNumOfDigits and ByteNumOfDecimal state what it is. |
| MtrNumbers.ByteNumIsPositional | vendor/github.com/fastly/go-mtr/mtr.go:59-65 | Every byte, digit or not, contributes its value minus 48 at its decimal place. |
| MtrNumbers.ByteNumOfDigits | vendor/github.com/fastly/go-mtr/mtr.go:59-65 | On ASCII digits, the result is a non-negative number below 10^length. |
| MtrNumbers.ByteNumOfDecimal | vendor/github.com/fastly/go-mtr/mtr.go:59-65 | Parsing the decimal rendering of any n >= 0 gives back n. |
| MtrNumbers.ParseHostnum | vendor/github.com/fastly/go-mtr/mtr.go:67-70 | Go faults exactly on a line shorter than 2 bytes or with no space at or after index 2. Otherwise the number is parsed from the bytes between index 2 and the first later space, and the content index is just past that space. |
| MtrStats.Total | vendor/github.com/fastly/go-mtr/mtr.go:117-135 | `totalPacketTime` after n samples, their sum. TotalAtLeastBest and TotalAtMostWorst bound it. |
| MtrStats.Worst | vendor/github.com/fastly/go-mtr/mtr.go:120-138 | `worst` after n samples, the running maximum from 0. WorstIsMax states that it is the maximum of 0 and the samples. |
| MtrStats.Best | vendor/github.com/fastly/go-mtr/mtr.go:119-141 | `best` after n samples, the running minimum from 2^31-1. BestIsMin states that it is the minimum of 2^31-1 and the samples. |
| MtrStats.WorstJitter | vendor/github.com/fastly/go-mtr/mtr.go:122-131 | `worstJitter` after n samples, the running maximum of consecutive gaps from 0. WorstJitterIsMaxGap states that it is the largest gap. |
| MtrStats.JitterTotal | vendor/github.com/fastly/go-mtr/mtr.go:148-153 | `jitterSum`, the sum of the `jitters` slots, slot 0 being 0. JitterTotalBounded bounds it by (n-1) * worstJitter. |
| MtrStats.IajStep | vendor/github.com/fastly/go-mtr/mtr.go:133 | One update of the scaled A.8 accumulator, J + d - floor((J + 8) / 16). IajStepNonNegative and IajStepBounded state what one update keeps. |
| MtrStats.Iaj | vendor/github.com/fastly/go-mtr/mtr.go:122-133 | `InterarrivalJitter` after n samples, the scaled accumulator (16 times the RFC 3550 jitter, since Go never shifts it back). IajNonNegative, IajBounded and MtrProps.RunStatsFromZero characterise it. |
| MtrStats.WorstIsMax | vendor/github.com/fastly/go-mtr/mtr.go:120-138 | `worst` is at least 0 and every sample. It is 0 or one of the samples. |
| MtrStats.BestIsMin | vendor/github.com/fastly/go-mtr/mtr.go:119-141 | `best` is at most 2^31-1 and every sample. It is 2^31-1 or one of the samples. |
| MtrStats.WorstJitterIsMaxGap | vendor/github.com/fastly/go-mtr/mtr.go:122-131 | `worstJitter` is the largest absolute difference of consecutive samples, or 0 when there are fewer than two. |
| MtrStats.TotalAtLeastBest | vendor/github.com/fastly/go-mtr/mtr.go:135-144 | received * best <= totalPacketTime, so the mean is at least `best`. |
| MtrStats.TotalAtMostWorst | vendor/github.com/fastly/go-mtr/mtr.go:135-144 | totalPacketTime <= received * worst, so the mean is at most `worst`. |
| MtrStats.JitterTotalBounded | vendor/github.com/fastly/go-mtr/mtr.go:149-155 | The jitter sum is between 0 and (received-1) * worstJitter, so the mean jitter never exceeds the worst jitter. |
| MtrStats.IajNonNegative | vendor/github.com/fastly/go-mtr/mtr.go:133 | The scaled RFC 3550 A.8 accumulator that Go stores never goes negative, starting from a non-negative value. |
| MtrStats.IajBounded | vendor/github.com/fastly/go-mtr/mtr.go:133 | The scaled accumulator never exceeds 16 times any bound on the gaps. From 0, the stored value is therefore at most 16 times `worstJitter`, and the RFC's jitter J/16 at most `worstJitter`. |
| Mtr.EmptyHost | vendor/github.com/fastly/go-mtr/mtr.go:96 | The placeholder has the given hop, no IP and no samples. |
| Mtr.Extend | vendor/github.com/fastly/go-mtr/mtr.go:95-97 | Hosts grow to at least n+1 entries. Existing hosts are kept, and each new one is the placeholder numbered by its position. |
| Mtr.Step | vendor/github.com/fastly/go-mtr/mtr.go:91-103 | One line's effect on the hosts, or its fault. MalformedLineFaults, OtherLineIgnored, HostLineEffect and DnsOrPacketLineEffect state it case by case; MtrProps.StepKeepsNumbering and MtrProps.StepKeepsZeroStats state what it keeps. |
| Mtr.MalformedLineFaults | vendor/github.com/fastly/go-mtr/mtr.go:88-91 | A line without the `c <num> ` shape faults with a slice fault, whatever its prefix. |
| Mtr.OtherLineIgnored | vendor/github.com/fastly/go-mtr/mtr.go:93-103 | A well-shaped line with an unknown prefix changes nothing. |
| Mtr.HostLineEffect | vendor/github.com/fastly/go-mtr/mtr.go:94-98 | An `h n ip` line faults exactly when n < 0. Otherwise hosts grow to n+1 with placeholders, only hop n's IP is set, and every other host is unchanged. |
| Mtr.DnsOrPacketLineEffect | vendor/github.com/fastly/go-mtr/mtr.go:99-102 | A `d` or `p` line faults exactly when n is outside 0..len(Hosts)-1; a placeholder created by a later hop's `h` line accepts it. Otherwise only that hop changes: its name is set, or the parsed sample is appended to its samples. |
| Mtr.DecodeLines | vendor/github.com/fastly/go-mtr/mtr.go:83-104 | The hosts after every newline-terminated line, or the first fault with the hosts before it. MTR.ProcessOutput is proved to reach it; MtrProps.UnterminatedTailIgnored, DecodeKeepsNumbering and DecodeKeepsZeroStats characterise it. |
| Mtr.Summary | vendor/github.com/fastly/go-mtr/mtr.go:110-117 | received is the number of samples, and received + dropped = sent = PacketsSent. No other field changes, and with no samples the statistics stay as they were. |
| Mtr.Summaries | vendor/github.com/fastly/go-mtr/mtr.go:110 | Each host, in order, gets its own summary. |
| Mtr.RunResult | vendor/github.com/fastly/go-mtr/mtr.go:46-57 | What `New` leaves: the command's error with no hosts, the summarised hosts, or the decoding fault with the hosts before it. MTR.New is proved to produce it; MtrProps.OutputAfterLastNewlineIgnored, RunHostsNumbered, RunStatsFromZero and UndeclaredHopFails characterise it. |
| Mtr.SummarizeHost | vendor/github.com/fastly/go-mtr/mtr.go:110-156 | Both sample loops (with the `jitters` array) compute exactly `Summary`, whose folds the MtrStats lemmas characterise. |
| Mtr.MTR.New | vendor/github.com/fastly/go-mtr/mtr.go:46-57 | PacketsSent and OutputRaw are the inputs. Hosts and Error are the command's error with no hosts, the summarised decoded hosts, or the decoding fault with the hosts before it. |
| Mtr.MTR.ProcessOutput | vendor/github.com/fastly/go-mtr/mtr.go:72-107 | The loop over lines of output + " " reaches the hosts of `DecodeLines`. On a fault, Error is set and the hosts are not summarised; otherwise `processHosts` runs. |
| Mtr.MTR.ProcessLine | vendor/github.com/fastly/go-mtr/mtr.go:91-103 | One line, with the placeholder loop, has the effect of `Step`. A fault leaves the hosts unchanged. |
| Mtr.MTR.ProcessHosts | vendor/github.com/fastly/go-mtr/mtr.go:109-158 | Every host is replaced by its summary. |
| MtrProps.UnterminatedTailIgnored | vendor/github.com/fastly/go-mtr/mtr.go:83-89 | Bytes after the last newline never affect decoding. |
| MtrProps.OutputAfterLastNewlineIgnored | vendor/github.com/fastly/go-mtr/mtr.go:81-89 | A run's result is the same without an unterminated tail, and the appended space is never read. |
| MtrProps.StepKeepsNumbering | vendor/github.com/fastly/go-mtr/mtr.go:94-103 | One line keeps every host's Hop equal to its position. |
| MtrProps.DecodeKeepsNumbering | vendor/github.com/fastly/go-mtr/mtr.go:83-104 | Decoding any output keeps hosts numbered by position. |
| MtrProps.RunHostsNumbered | vendor/github.com/fastly/go-mtr/mtr.go:46-57 | Every run, failed or not, leaves hosts numbered by position, so hop numbers have no gaps. |
| MtrProps.UndeclaredHopFails | vendor/github.com/fastly/go-mtr/mtr.go:99-102 | Output whose first line is a `d` or `p` record fails with an index fault, because the host list is still empty. |
| MtrProps.StepKeepsZeroStats | vendor/github.com/fastly/go-mtr/mtr.go:94-103 | No line touches a statistics field. Placeholders start with them at zero. |
| MtrProps.DecodeKeepsZeroStats | vendor/github.com/fastly/go-mtr/mtr.go:83-104 | Decoded hosts have every statistics field at zero. |
| MtrProps.RunStatsFromZero | vendor/github.com/fastly/go-mtr/mtr.go:115-133 | In a successful run, a hop with no samples has every statistic at zero. Every hop's InterarrivalJitter is the A.8 fold from J = 0, so it is never negative. |
| Exporter.Min | main.go:157-162 | The result is the smaller of the two arguments. |
| Exporter.IncCounts | main.go:202 | `Inc` adds one to its own label and leaves every other label unchanged. |
| Exporter.AddHost | main.go:193-195 | One `Add` of a host's count to the child labelled by its alias, target, hop and IP. |
| Exporter.AddHosts | main.go:191-195 | The `Add`s of the first n hosts, in hop order. ExporterProps.AddHostsCounts states each label's total, and Exporter.CountHops is proved to perform them. |
| Exporter.FirstPanic | main.go:191-195 | The position of the first host with a negative `Sent`, `Received` or `Dropped`, where one of its `Add`s panics, or the host count. |
| Exporter.FirstPanicIsFirst | main.go:193-195 | Every host before that position has all three counts non-negative, and the host at it has a negative one. |
| Exporter.PanicExists | main.go:193-195 | The position falls inside the hosts exactly when some host has a negative `Sent`, `Received` or `Dropped`. |
| Exporter.AddsBeforePanic | main.go:189-196 | A counter after the loop runs to its first panic: the adds of every host before it, then those adds of the panicking host that come before the panicking one. Exporter.Exporter.CountHops is proved to leave each counter so, and ExporterProps.OneProbePerHop gives `sent`'s per-label totals for a trace. |
| Exporter.RouteOf | main.go:189-192 | The route has one entry per host: that host's IP. |
| Exporter.DifferingBeforeIndices | main.go:206-210 | The hop ids found are exactly the indices below the bound where the routes differ, in increasing order. |
| Exporter.RouteChangeHops | main.go:200-211 | When the lengths differ, the only hop id is the shorter length. When they are equal, the hop ids are exactly the differing indices before the last, in increasing order. |
| Exporter.BumpRoute | main.go:202-208 | One `Inc` of `route_changes` per listed hop id, in order. ExporterProps.BumpRouteCounts states each label's total. |
| Exporter.Detect | main.go:199-217 | The change detector's step for one non-empty route. ExporterProps.RememberedRouteChanges, UnrememberedRouteIgnored, DestinationChanges, OtherAliasesKept and RoutesNeverRemembered characterise it, and Exporter.Exporter.Collect is proved to perform it. |
| Exporter.Exporter.constructor | main.go:58-144 | Every counter and both memories start empty. |
| Exporter.Exporter.CountHops | main.go:189-198 | The loop stops at the first host with a negative `Sent`, `Received` or `Dropped`, or runs to the end. Each counter gets the adds of every host before that one and those of that host made before its panicking `Add`; with no panic the route array holds every host's IP. |
| Exporter.Exporter.CountHop | main.go:191-195 | One host: its route entry, then its `sent`, `received` and `dropped` adds in order. The first add that meets a negative count panics and adds nothing, and the later ones are not made. It panics exactly when one of the three counts is negative. |
| Exporter.Exporter.CountRouteChange | main.go:199-213 | Changes are counted only when a route is remembered, and only then is the route replaced. |
| Exporter.Exporter.CountDifferingHops | main.go:204-210 | The loop counts one change per differing hop before the last. |
| Exporter.Exporter.CountDestinationChange | main.go:214-217 | One change is counted exactly when a recorded, non-nil destination differs from the new one. The destination is always recorded. |
| Exporter.Exporter.Collect | main.go:188-218 | It panics exactly when the host list is empty (at `tf.Hosts[-1]`, nothing changed) or some host has a negative `Sent`, `Received` or `Dropped` (in that count's `Add`, after the adds before it). Each counter holds `AddsBeforePanic`. On a panic the detector is untouched; otherwise every host was added and the memories become those of `Detect`. |
| Exporter.Exporter.CountFailure | main.go:173-177 | `failed` goes up by one for the alias and target. |
| Exporter.Exporter.Observe | main.go:171-177 | A failed run counts a failure and changes nothing else. A successful run is aggregated as `Collect` states, panics included, and the failure counter stays unchanged. |
| Exporter.Trace | main.go:234-248 | Feedback is sent exactly when the run with one report cycle has no error. The feedback holds the run's hosts, and the error is returned. |
| ExporterProps.AddHostsCounts | main.go:193-195 | For hosts numbered by position, each hop's label grows by that host's count. Every other label, of this alias or another, is untouched. |
| ExporterProps.BumpRouteCounts | main.go:200-210 | Each route-change label grows by the number of times its hop id occurs in the list. |
| ExporterProps.RememberedRouteChanges | main.go:200-212 | When a route is remembered, one change is counted at the shorter length if the lengths differ. Otherwise one change is counted at each differing hop before the last. The route is replaced. |
| ExporterProps.UnrememberedRouteIgnored | main.go:199-213 | Without a remembered route, neither the route counter nor the route memory changes. |
| ExporterProps.DestinationChanges | main.go:214-217 | Exactly one destination-change label, (old, new), gains one, and only when a non-nil destination was recorded and differs. The destination is recorded. |
| ExporterProps.OtherAliasesKept | main.go:199-217 | Other aliases' memories are untouched. |
| ExporterProps.RoutesNeverRemembered | main.go:199-213 | From the initial state, no sequence of feedbacks ever stores a route or moves `route_changes`. |
| ExporterProps.SecondRouteNotCounted | main.go:199-213 | As written, a second observation of an alias counts no route change, whatever the routes. |
| ExporterProps.IntendedSecondRouteCounted | main.go:199-213 | When the route is stored on every observation, the second observation counts one change per moved hop before the last. |
| ExporterProps.OneProbePerHop | vendor/github.com/fastly/go-mtr/mtr.go:110-113 | With one report cycle, each hop's received + dropped = 1, and the aggregation of a successful run adds exactly one to `sent` for each hop's label up to and including the hop where it panics (every hop when none does), and nothing for later hops. |
| ExporterProps.SecondSampleStopsAggregation | main.go:193-195 | With one report cycle, a successful run's aggregation can panic only in `dropped.Add`, and does exactly when some hop has more than one sample. Every hop before the panic has at most one, and the hop at it has more. |
| ExporterProps.EmptyOutputHasNoHosts | vendor/github.com/fastly/go-mtr/mtr.go:81-106 | An empty output is a successful run with no hosts, which `collect` then indexes at -1. |

## Left out

- The goroutines are left out: the per-target workers, the `WaitGroup`, the results channel and the endless cycle loop. One target's trace and its aggregation are modelled in sequence (`Exporter.Exporter.Observe`), because the aggregation loop is the single consumer of every feedback.
- Running the `mtr` command (`exec.Command`) and the `Done` channel are not modelled. The command's output and its error are inputs.
- `net.ParseIP` is a parameter. `IP.String()` and `strconv.Itoa` as label renderings are replaced by the values themselves, on the assumption that the rendering of parsed addresses is injective.
- The float fields `LostPercent`, `Mean`, `StandardDev` and `MeanJitter` are left out, because floating point is not modelled. Their integer numerators `meanTotal` and `jitterTotal` are kept.
- The `lost` counter and the `latency` summary are left out, because both are fed only by floats.
- `StandardDev` divides by `Mean` rather than by the sample count (mtr.go:156). This is not modelled because it is float only.
- The Prometheus internals are not modelled: registration, `Describe` and `Collect` to the scrape channel. Of `Add`, only its panic on a negative value is kept, for each of `sent`, `received` and `dropped`.
- Flags, YAML configuration, the HTTP handler and logging are outside the modelled core.
- MtrNumbers.ParseByteNum: Go's 64-bit `int` overflow on very long digit runs is not modelled. Integers are unbounded.
- Mtr.Summary: Go's 64-bit wrap-around is not modelled in the `processHosts` accumulators: `totalPacketTime` (mtr.go:135), `newJitter` and its negation (mtr.go:125-127), `InterarrivalJitter` (mtr.go:133) and `jitterSum` (mtr.go:153). Samples parsed from long or non-digit fields can reach any `int`, and under wrap-around the bounds of MtrStats.TotalAtLeastBest and MtrStats.IajNonNegative can fail.
- Mtr.HostLineEffect: the overflow of `hostnum + 1` at the largest `int` is not modelled.
- Exporter.Exporter.Collect: both panics (an empty host list, a negative count in an `Add`) crash the whole process in Go. Here they are returned as `panicked`, with the counters holding the adds made before the panic.
- main.go imports `github.com/Shinzu/go-mtr`, but the vendored package is fastly's go-mtr, and that is the file modelled.
- Go `Host` records are pointers. The model uses values, because each pointer is freshly allocated in `processOutput` and never shared.

## Findings

| source | as written | input that shows it | evidently intended | confidence | as-written member | corrected member |
|---|---|---|---|---|---|---|
| main.go:199-213 | `e.lastRoute[tf.Alias] = route` runs only inside `if e.lastRoute[tf.Alias] != nil`, and nothing else writes `lastRoute`, so no route is ever stored | two successful traces for one alias whose routes differ at hop 0 | store the route on every observation, as `lastDest` is at line 217, so that the next trace is compared with it | high; not executed | ExporterProps.SecondRouteNotCounted | ExporterProps.IntendedSecondRouteCounted |

The class `Exporter.Exporter` keeps the code as written. `ExporterProps.IntendedDetect`
is the detector with the route stored every time. `ExporterProps.RoutesNeverRemembered`
shows that, as written, `route_changes` stays empty for any sequence of feedbacks.
