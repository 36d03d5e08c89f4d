/** What the aggregation of mtr_exporter does to its counters and its per-alias memory. */
module ExporterProps {
  import opened Wrappers
  import opened MtrNumbers
  import opened Mtr
  import opened MtrProps
  import opened Exporter

  /**
   * main.go:193-195: for hosts numbered by position (distinct hops, hence
   * distinct labels), each of the first n hops' labels grows by that host's
   * count and every other label, of this alias or another, is untouched.
   */
  lemma {:induction false} AddHostsCounts(c: map<HopLabel, int>, alias: string, server: string,
                                          hosts: seq<Host>, n: nat, f: HopField)
    requires n <= |hosts| && Numbered(hosts)
    ensures forall l ::
      Count(AddHosts(c, alias, server, hosts, n, f), l) ==
      Count(c, l) + (if l.alias == alias && l.server == server && 0 <= l.hopId < n && l.hopIp == hosts[l.hopId].ip
                     then Pick(hosts[l.hopId], f) else 0)
  {
    if n > 0 {
      AddHostsCounts(c, alias, server, hosts, n - 1, f);
      var prev := AddHosts(c, alias, server, hosts, n - 1, f);
      var own := LabelOf(alias, server, hosts[n - 1]);
      assert own.hopId == n - 1;
      forall l
        ensures Count(AddHosts(c, alias, server, hosts, n, f), l) ==
          Count(c, l) + (if l.alias == alias && l.server == server && 0 <= l.hopId < n && l.hopIp == hosts[l.hopId].ip
                         then Pick(hosts[l.hopId], f) else 0)
      {
        assert AddHosts(c, alias, server, hosts, n, f) == AddHost(prev, alias, server, hosts[n - 1], f);
        if l != own {
          assert Count(AddHosts(c, alias, server, hosts, n, f), l) == Count(prev, l);
        }
      }
    }
  }

  /** `BumpRoute` adds to each hop id's child of this alias and target as often as the id occurs. */
  lemma {:induction false} BumpRouteCounts(c: map<RouteLabel, int>, alias: string, server: string, hops: seq<int>)
    ensures forall l ::
      Count(BumpRoute(c, alias, server, hops), l) ==
      Count(c, l) + (if l.alias == alias && l.server == server then multiset(hops)[l.hopId] else 0)
    decreases |hops|
  {
    if |hops| > 0 {
      var init := hops[..|hops| - 1];
      var last := hops[|hops| - 1];
      assert hops == init + [last];
      assert multiset(hops) == multiset(init) + multiset{last};
      BumpRouteCounts(c, alias, server, init);
      IncCounts(BumpRoute(c, alias, server, init), RouteLabel(alias, server, last));
    }
  }

  /** A strictly increasing sequence holds each of its elements once. */
  lemma {:induction false} IncreasingOccursOnce(s: seq<int>, x: int)
    requires StrictlyIncreasing(s)
    ensures multiset(s)[x] == if x in s then 1 else 0
    decreases |s|
  {
    if |s| > 0 {
      var init := s[..|s| - 1];
      assert s == init + [s[|s| - 1]];
      assert multiset(s) == multiset(init) + multiset{s[|s| - 1]};
      IncreasingOccursOnce(init, x);
      if x in init {
        assert x != s[|s| - 1];
      }
    }
  }

  /**
   * main.go:200-212 once a route is remembered for the alias: when the new
   * route's length differs, one change at the shorter length; otherwise one
   * change at each hop before the last whose address differs. The route is
   * remembered in place of the previous one.
   */
  lemma RememberedRouteChanges(d: Detector, alias: string, server: string, route: Route)
    requires |route| > 0 && alias in d.lastRoute
    ensures
      var last := d.lastRoute[alias];
      var r := Detect(d, alias, server, route);
      && r.lastRoute == d.lastRoute[alias := route]
      && forall l :: Count(r.routeChanges, l) == Count(d.routeChanges, l) +
           (if l.alias == alias && l.server == server &&
               (if |route| != |last| then l.hopId == Min(|route|, |last|)
                else 0 <= l.hopId < |route| - 1 && route[l.hopId] != last[l.hopId])
            then 1 else 0)
  {
    var last := d.lastRoute[alias];
    var hops := RouteChangeHops(route, last);
    BumpRouteCounts(d.routeChanges, alias, server, hops);
    forall l: RouteLabel {
      IncreasingOccursOnce(hops, l.hopId);
    }
  }

  /**
   * main.go:200: with no route remembered for the alias, neither the route
   * counter nor the route memory changes.
   */
  lemma UnrememberedRouteIgnored(d: Detector, alias: string, server: string, route: Route)
    requires |route| > 0 && alias !in d.lastRoute
    ensures Detect(d, alias, server, route).routeChanges == d.routeChanges
    ensures Detect(d, alias, server, route).lastRoute == d.lastRoute
  {
  }

  /**
   * main.go:214-217: the destination is remembered; a change is counted once,
   * under the labels of the old and new destination, exactly when a non-nil
   * destination was remembered and the new one differs from it.
   */
  lemma DestinationChanges(d: Detector, alias: string, server: string, route: Route)
    requires |route| > 0
    ensures
      var dest := route[|route| - 1];
      var r := Detect(d, alias, server, route);
      && r.lastDest == d.lastDest[alias := dest]
      && forall l :: Count(r.destinationChanges, l) == Count(d.destinationChanges, l) +
           (if HasDestination(d, alias) && d.lastDest[alias] != dest &&
               l == DestinationLabel(alias, server, d.lastDest[alias], dest)
            then 1 else 0)
  {
    var dest := route[|route| - 1];
    if HasDestination(d, alias) && d.lastDest[alias] != dest {
      IncCounts(d.destinationChanges, DestinationLabel(alias, server, d.lastDest[alias], dest));
    }
  }

  /** Only the alias's own entries of the detector's memory change. */
  lemma OtherAliasesKept(d: Detector, alias: string, server: string, route: Route, other: string)
    requires |route| > 0 && other != alias
    ensures
      var r := Detect(d, alias, server, route);
      && (other in r.lastDest <==> other in d.lastDest)
      && (other in d.lastDest ==> r.lastDest[other] == d.lastDest[other])
      && (other in r.lastRoute <==> other in d.lastRoute)
      && (other in d.lastRoute ==> r.lastRoute[other] == d.lastRoute[other])
  {
  }

  /** The detector after a sequence of non-empty feedbacks, in arrival order. */
  function DetectAll(d: Detector, feedbacks: seq<TargetFeedback>): Detector
    requires forall i :: 0 <= i < |feedbacks| ==> |feedbacks[i].hosts| > 0
    decreases |feedbacks|
  {
    if |feedbacks| == 0 then d
    else
      var tf := feedbacks[|feedbacks| - 1];
      Detect(DetectAll(d, feedbacks[..|feedbacks| - 1]), tf.alias, tf.target, RouteOf(tf.hosts))
  }

  /**
   * main.go:200 and 211: a route is stored only where one is already stored,
   * and the exporter starts with none, so from the start no route is ever
   * remembered and `route_changes` never moves, whatever the feedbacks.
   */
  lemma {:induction false} RoutesNeverRemembered(d: Detector, feedbacks: seq<TargetFeedback>)
    requires forall i :: 0 <= i < |feedbacks| ==> |feedbacks[i].hosts| > 0
    requires d.lastRoute == map[]
    ensures DetectAll(d, feedbacks).lastRoute == map[]
    ensures DetectAll(d, feedbacks).routeChanges == d.routeChanges
    decreases |feedbacks|
  {
    if |feedbacks| > 0 {
      RoutesNeverRemembered(d, feedbacks[..|feedbacks| - 1]);
      var tf := feedbacks[|feedbacks| - 1];
      UnrememberedRouteIgnored(DetectAll(d, feedbacks[..|feedbacks| - 1]), tf.alias, tf.target, RouteOf(tf.hosts));
    }
  }

  /**
   * main.go:235 with mtr.go:111-113: `trace` asks for one report cycle, so in a
   * successful run each hop's received and dropped counts add up to one, and
   * the aggregation adds exactly one to the `sent` counter of each hop up to
   * and including the one where it panics (every hop when none panics), and
   * nothing for the hops after it.
   */
  lemma OneProbePerHop(c: map<HopLabel, int>, alias: string, server: string, output: seq<byte>,
                       parseIp: seq<byte> -> Option<Ip>)
    requires RunResult(1, output, None, parseIp).1.None?
    ensures
      var hosts := RunResult(1, output, None, parseIp).0;
      var n := Min(FirstPanic(hosts) + 1, |hosts|);
      && (forall i :: 0 <= i < |hosts| ==> hosts[i].received + hosts[i].dropped == 1)
      && AddsBeforePanic(c, alias, server, hosts, SentField) == AddHosts(c, alias, server, hosts, n, SentField)
      && forall l :: Count(AddsBeforePanic(c, alias, server, hosts, SentField), l) ==
           Count(c, l) + (if l.alias == alias && l.server == server && 0 <= l.hopId < n && l.hopIp == hosts[l.hopId].ip
                          then 1 else 0)
  {
    var hosts := RunResult(1, output, None, parseIp).0;
    var k := FirstPanic(hosts);
    if k < |hosts| {
      assert hosts[k].sent == 1;
      assert AddHosts(c, alias, server, hosts, k + 1, SentField) ==
        AddHost(AddHosts(c, alias, server, hosts, k, SentField), alias, server, hosts[k], SentField);
    }
    RunHostsNumbered(1, output, None, parseIp);
    AddHostsCounts(c, alias, server, hosts, Min(k + 1, |hosts|), SentField);
  }

  /**
   * main.go:193-195 with mtr.go:111-113 and main.go:235: with one report cycle
   * `Sent` is 1 and `Received` a sample count, so the aggregation of a
   * successful run can only panic in `dropped.Add`, and it does exactly when
   * some hop has more than one sample; the first such hop is where it stops.
   */
  lemma SecondSampleStopsAggregation(output: seq<byte>, parseIp: seq<byte> -> Option<Ip>)
    requires RunResult(1, output, None, parseIp).1.None?
    ensures
      var hosts := RunResult(1, output, None, parseIp).0;
      && (FirstPanic(hosts) < |hosts| <==> exists i :: 0 <= i < |hosts| && hosts[i].received > 1)
      && (forall i :: 0 <= i < FirstPanic(hosts) ==> hosts[i].received <= 1)
      && (FirstPanic(hosts) < |hosts| ==> hosts[FirstPanic(hosts)].received > 1)
  {
    var hosts := RunResult(1, output, None, parseIp).0;
    assert forall i :: 0 <= i < |hosts| ==>
      hosts[i].sent == 1 && hosts[i].received >= 0 && hosts[i].received + hosts[i].dropped == 1;
    FirstPanicIsFirst(hosts);
    PanicExists(hosts);
  }

  /**
   * The detector as evidently intended: the route is remembered on every
   * observation, as the destination is, so that the next one can be compared.
   */
  function IntendedDetect(d: Detector, alias: string, server: string, route: Route): Detector
    requires |route| > 0
  {
    Detect(d, alias, server, route).(lastRoute := d.lastRoute[alias := route])
  }

  /**
   * With the route remembered, a second observation of a route of the same
   * length counts one change at each hop before the last whose address moved.
   */
  lemma IntendedSecondRouteCounted(d: Detector, alias: string, server: string, first: Route, second: Route)
    requires |first| > 0 && |second| == |first|
    ensures
      var once := IntendedDetect(d, alias, server, first);
      var twice := IntendedDetect(once, alias, server, second);
      forall h :: 0 <= h < |second| - 1 ==>
        Count(twice.routeChanges, RouteLabel(alias, server, h)) ==
        Count(once.routeChanges, RouteLabel(alias, server, h)) + (if first[h] != second[h] then 1 else 0)
  {
    var once := IntendedDetect(d, alias, server, first);
    assert once.lastRoute[alias] == first;
    RememberedRouteChanges(once, alias, server, second);
  }

  /**
   * As written, an alias seen for the first time never gets a route
   * remembered, so its second observation counts no route change, however
   * the route moved.
   */
  lemma SecondRouteNotCounted(d: Detector, alias: string, server: string, first: Route, second: Route)
    requires |first| > 0 && |second| > 0 && alias !in d.lastRoute
    ensures
      var twice := Detect(Detect(d, alias, server, first), alias, server, second);
      twice.routeChanges == d.routeChanges && alias !in twice.lastRoute
  {
    UnrememberedRouteIgnored(d, alias, server, first);
    UnrememberedRouteIgnored(Detect(d, alias, server, first), alias, server, second);
  }

  /**
   * mtr.go:46-57 with main.go:190: a run that printed nothing succeeds with no
   * hosts, and the aggregation of that feedback is the panic at `tf.Hosts[-1]`.
   */
  lemma EmptyOutputHasNoHosts(reportCycles: int, parseIp: seq<byte> -> Option<Ip>)
    ensures RunResult(reportCycles, [], None, parseIp) == ([], None)
  {
    assert IndexByte([Space], Newline) == -1;
  }
}
