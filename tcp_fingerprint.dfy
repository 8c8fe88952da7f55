/**
 * The TCP option applier: on an outgoing connect the sockops hook writes the
 * calling process's profile options one after another with `bpf_setsockopt`,
 * stopping at the first failed window, TTL or MSS write, and counts the
 * outcome in a statistics record.
 *
 * The kernel's answer to each option write comes in as the function `ret`
 * (0 for success); the hook hands back the writes it attempted, in order. The
 * profile map and the PID come in as arguments, and a failed statistics
 * lookup is a `null` statistics record.
 */
module TcpFingerprint {
  import opened Bpf

  /** `struct tcp_profile`. */
  datatype TcpProfile = TcpProfile(
    windowSize: U16,
    ttl: Byte,
    mss: U16,
    windowScale: Byte,
    sackPermitted: Byte,
    timestamps: Byte,
    noDelay: Byte,
    initialCongestionWindow: U32,
    ecn: Byte,
    fastOpen: Byte)

  /** The option levels and names the hook writes. */
  datatype Level = SolTcp | SolIp | SolIpv6
  datatype OptName = TcpWindowClamp | IpTtl | Ipv6UnicastHops | TcpMaxseg | TcpNodelay | TcpEcn

  /** One `bpf_setsockopt(skops, level, name, &value, ...)` call. */
  datatype OptWrite = OptWrite(level: Level, name: OptName, value: int)

  function WindowWrite(p: TcpProfile): OptWrite {
    OptWrite(SolTcp, TcpWindowClamp, p.windowSize)
  }

  /** The TTL goes through the IPv4 option for AF_INET and the IPv6 hop limit otherwise. */
  function TtlWrite(family: U32, p: TcpProfile): OptWrite {
    if family == AfInet then OptWrite(SolIp, IpTtl, p.ttl) else OptWrite(SolIpv6, Ipv6UnicastHops, p.ttl)
  }

  function MssWrite(p: TcpProfile): OptWrite {
    OptWrite(SolTcp, TcpMaxseg, p.mss)
  }

  /** `TCP_NODELAY` is always written with the value 1. */
  const NodelayWrite: OptWrite := OptWrite(SolTcp, TcpNodelay, 1)

  function EcnWrite(p: TcpProfile): OptWrite {
    OptWrite(SolTcp, TcpEcn, p.ecn)
  }

  function Prepend(b: bool, w: OptWrite, rest: seq<OptWrite>): seq<OptWrite> {
    if b then [w] + rest else rest
  }

  /** The window, TTL and MSS writes, each only when its profile field is non-zero. */
  function FatalPlan(family: U32, p: TcpProfile): seq<OptWrite> {
    Prepend(p.windowSize > 0, WindowWrite(p),
    Prepend(p.ttl > 0, TtlWrite(family, p),
    Prepend(p.mss > 0, MssWrite(p), [])))
  }

  /** The no-delay and ECN writes, each only when its profile field is non-zero. */
  function NonFatalPlan(p: TcpProfile): seq<OptWrite> {
    Prepend(p.noDelay != 0, NodelayWrite, Prepend(p.ecn != 0, EcnWrite(p), []))
  }

  /** The writes a connect would make if every one succeeded, in the handler's order. */
  function Plan(family: U32, p: TcpProfile): seq<OptWrite> {
    FatalPlan(family, p) + NonFatalPlan(p)
  }

  /** A failed write that ends the handler: window, TTL and MSS failures do, no-delay and ECN ones do not. */
  predicate Fatal(w: OptWrite) {
    w.name != TcpNodelay && w.name != TcpEcn
  }

  predicate FatalFailure(w: OptWrite, ret: OptWrite -> int) {
    Fatal(w) && ret(w) != 0
  }

  /** The writes attempted from a plan: all of them, up to and including the first fatal failure. */
  function Attempted(plan: seq<OptWrite>, ret: OptWrite -> int): (a: seq<OptWrite>)
    ensures |a| <= |plan| && a == plan[..|a|]
    decreases |plan|
  {
    if plan == [] then []
    else if FatalFailure(plan[0], ret) then [plan[0]]
    else [plan[0]] + Attempted(plan[1..], ret)
  }

  /** Some write of the plan fails fatally. */
  predicate Aborted(plan: seq<OptWrite>, ret: OptWrite -> int) {
    exists i :: 0 <= i < |plan| && FatalFailure(plan[i], ret)
  }

  lemma AttemptedPrepend(w: OptWrite, rest: seq<OptWrite>, ret: OptWrite -> int)
    ensures Attempted([w] + rest, ret) == if FatalFailure(w, ret) then [w] else [w] + Attempted(rest, ret)
  {
    assert ([w] + rest)[1..] == rest;
  }

  lemma AbortedAppend(a: seq<OptWrite>, b: seq<OptWrite>, ret: OptWrite -> int)
    ensures Aborted(a + b, ret) <==> Aborted(a, ret) || Aborted(b, ret)
  {
    var q := a + b;
    if Aborted(q, ret) {
      var i :| 0 <= i < |q| && FatalFailure(q[i], ret);
      if i >= |a| {
        assert b[i - |a|] == q[i];
      }
    }
    if Aborted(b, ret) {
      var i :| 0 <= i < |b| && FatalFailure(b[i], ret);
      assert q[i + |a|] == b[i];
    }
    if Aborted(a, ret) {
      var i :| 0 <= i < |a| && FatalFailure(a[i], ret);
      assert q[i] == a[i];
    }
  }

  /** One conditional write in front of the rest of a plan. */
  lemma PrependSteps(b: bool, w: OptWrite, rest: seq<OptWrite>, ret: OptWrite -> int)
    ensures Attempted(Prepend(b, w, rest), ret)
            == if !b then Attempted(rest, ret) else if FatalFailure(w, ret) then [w] else [w] + Attempted(rest, ret)
    ensures Aborted(Prepend(b, w, rest), ret) <==> (b && FatalFailure(w, ret)) || Aborted(rest, ret)
  {
    if b {
      AttemptedPrepend(w, rest, ret);
      AbortedAppend([w], rest, ret);
      assert Aborted([w], ret) <==> FatalFailure(w, ret) by {
        assert [w][0] == w;
      }
    }
  }

  /**
   * Attempting two plans one after the other: an abort in the first one hides
   * the second; otherwise the first one runs in full and the second follows.
   */
  lemma {:induction false} AttemptedAppend(a: seq<OptWrite>, b: seq<OptWrite>, ret: OptWrite -> int)
    ensures Aborted(a, ret) ==> Attempted(a + b, ret) == Attempted(a, ret)
    ensures !Aborted(a, ret) ==> Attempted(a + b, ret) == a + Attempted(b, ret)
    decreases |a|
  {
    if a == [] {
      assert a + b == b;
    } else {
      var rest := a[1..];
      assert a == [a[0]] + rest;
      assert a + b == [a[0]] + (rest + b);
      AttemptedPrepend(a[0], rest + b, ret);
      AttemptedPrepend(a[0], rest, ret);
      PrependSteps(true, a[0], rest, ret);
      AttemptedAppend(rest, b, ret);
    }
  }

  /** The window, TTL and MSS writes are fatal when they fail. */
  lemma FatalPlanIsFatal(family: U32, p: TcpProfile)
    ensures forall w :: w in FatalPlan(family, p) ==> Fatal(w)
  {
  }

  /** The no-delay and ECN writes are not fatal, so they are always attempted in full. */
  lemma NonFatalPlanRunsInFull(p: TcpProfile, ret: OptWrite -> int)
    ensures forall w :: w in NonFatalPlan(p) ==> !Fatal(w)
    ensures Attempted(NonFatalPlan(p), ret) == NonFatalPlan(p) && !Aborted(NonFatalPlan(p), ret)
  {
    var tailEcn := Prepend(p.ecn != 0, EcnWrite(p), []);
    PrependSteps(p.ecn != 0, EcnWrite(p), [], ret);
    PrependSteps(p.noDelay != 0, NodelayWrite, tailEcn, ret);
  }

  /**
   * An aborted plan is attempted up to its first fatal failure, which is the
   * last write attempted; a plan without one is attempted in full.
   */
  lemma {:induction false} AttemptedStopsAtFirstFatalFailure(plan: seq<OptWrite>, ret: OptWrite -> int)
    ensures Aborted(plan, ret) ==>
              var a := Attempted(plan, ret);
              && |a| > 0 && FatalFailure(a[|a| - 1], ret)
              && (forall i :: 0 <= i < |a| - 1 ==> !FatalFailure(a[i], ret))
    ensures !Aborted(plan, ret) ==> Attempted(plan, ret) == plan
    decreases |plan|
  {
    if plan != [] && !FatalFailure(plan[0], ret) {
      var rest := plan[1..];
      AttemptedStopsAtFirstFatalFailure(rest, ret);
      assert plan == [plan[0]] + rest;
      AttemptedPrepend(plan[0], rest, ret);
      PrependSteps(true, plan[0], rest, ret);
    }
  }

  /** What the kernel answers to a no-delay or an ECN write does not change which writes are attempted. */
  lemma {:induction false} NonFatalResultsIgnored(plan: seq<OptWrite>, ret1: OptWrite -> int, ret2: OptWrite -> int)
    requires forall i :: 0 <= i < |plan| && Fatal(plan[i]) ==> (ret1(plan[i]) == 0 <==> ret2(plan[i]) == 0)
    ensures Attempted(plan, ret1) == Attempted(plan, ret2)
    decreases |plan|
  {
    if plan != [] {
      var rest := plan[1..];
      assert forall i :: 0 <= i < |rest| ==> rest[i] == plan[i + 1];
      NonFatalResultsIgnored(rest, ret1, ret2);
    }
  }

  /** Each option is in the plan exactly when its profile field is non-zero. */
  lemma PlanWritesEnabledOptions(family: U32, p: TcpProfile)
    ensures WindowWrite(p) in Plan(family, p) <==> p.windowSize > 0
    ensures TtlWrite(family, p) in Plan(family, p) <==> p.ttl > 0
    ensures MssWrite(p) in Plan(family, p) <==> p.mss > 0
    ensures NodelayWrite in Plan(family, p) <==> p.noDelay != 0
    ensures EcnWrite(p) in Plan(family, p) <==> p.ecn != 0
  {
  }

  /** The TTL is written at the IPv4 level as `IP_TTL` only for AF_INET, and as the IPv6 hop limit otherwise. */
  lemma TtlOptionFollowsFamily(family: U32, p: TcpProfile)
    ensures forall w :: w in Plan(family, p) && w.name in {IpTtl, Ipv6UnicastHops} ==>
              w == TtlWrite(family, p)
              && (w.name == IpTtl <==> family == AfInet) && (w.level == SolIp <==> family == AfInet)
  {
  }

  /** When the handler aborts, neither the no-delay nor the ECN write was attempted. */
  lemma AbortSkipsLaterOptions(family: U32, p: TcpProfile, ret: OptWrite -> int)
    requires Aborted(Plan(family, p), ret)
    ensures forall w :: w in Attempted(Plan(family, p), ret) ==> Fatal(w)
  {
    var f := FatalPlan(family, p);
    NonFatalPlanRunsInFull(p, ret);
    AbortedAppend(f, NonFatalPlan(p), ret);
    AttemptedAppend(f, NonFatalPlan(p), ret);
    FatalPlanIsFatal(family, p);
    var a := Attempted(f, ret);
    forall w | w in a
      ensures Fatal(w)
    {
      var i :| 0 <= i < |a| && a[i] == w;
      assert f[i] == w;
    }
  }

  /** The counters of `struct tcp_stats`. */
  datatype TcpCounts = TcpCounts(connectionsModified: U64, packetsProcessed: U64, errors: U64)

  /** The single entry of the `stats` map. */
  class TcpStats {
    var connectionsModified: U64
    var packetsProcessed: U64
    var errors: U64

    constructor ()
      ensures Counts() == TcpCounts(0, 0, 0)
    {
      connectionsModified, packetsProcessed, errors := 0, 0, 0;
    }

    function Counts(): TcpCounts
      reads this
    {
      TcpCounts(connectionsModified, packetsProcessed, errors)
    }

    method BumpErrors()
      modifies this
      ensures Counts() == old(Counts()).(errors := Inc(old(errors)))
    {
      errors := Inc(errors);
    }

    method BumpConnectionsModified()
      modifies this
      ensures Counts() == old(Counts()).(connectionsModified := Inc(old(connectionsModified)))
    {
      connectionsModified := Inc(connectionsModified);
    }

    method BumpPacketsProcessed()
      modifies this
      ensures Counts() == old(Counts()).(packetsProcessed := Inc(old(packetsProcessed)))
    {
      packetsProcessed := Inc(packetsProcessed);
    }
  }

  /** `update_stats`: an error bumps `errors`, otherwise `connections_modified`; nothing without the record. */
  method UpdateStats(stats: TcpStats?, error: bool)
    modifies stats
    ensures stats != null ==>
              stats.Counts() == if error then old(stats.Counts()).(errors := Inc(old(stats.errors)))
                                else old(stats.Counts()).(connectionsModified := Inc(old(stats.connectionsModified)))
  {
    if stats == null {
      return;
    }
    if error {
      stats.BumpErrors();
    } else {
      stats.BumpConnectionsModified();
    }
  }

  /** One write of the connect sequence: it is attempted, and `failed` reports a non-zero answer. */
  method Write(writes: seq<OptWrite>, w: OptWrite, ret: OptWrite -> int) returns (writes': seq<OptWrite>, failed: bool)
    ensures writes' == writes + [w] && failed == (ret(w) != 0)
  {
    writes' := writes + [w];
    failed := ret(w) != 0;
  }

  /**
   * The window, TTL and MSS writes of a connect: each one enabled by its
   * profile field is attempted until one fails, which counts one error.
   */
  method ApplyFatal(family: U32, p: TcpProfile, ret: OptWrite -> int, stats: TcpStats?)
      returns (writes: seq<OptWrite>, aborted: bool)
    modifies stats
    ensures writes == Attempted(FatalPlan(family, p), ret) && aborted == Aborted(FatalPlan(family, p), ret)
    ensures stats != null ==>
              stats.Counts() == if aborted then old(stats.Counts()).(errors := Inc(old(stats.errors))) else old(stats.Counts())
  {
    ghost var tailMss := Prepend(p.mss > 0, MssWrite(p), []);
    ghost var tailTtl := Prepend(p.ttl > 0, TtlWrite(family, p), tailMss);
    ghost var plan := FatalPlan(family, p);
    PrependSteps(p.windowSize > 0, WindowWrite(p), tailTtl, ret);
    writes, aborted := [], false;
    if p.windowSize > 0 {
      writes, aborted := Write(writes, WindowWrite(p), ret);
      if aborted {
        UpdateStats(stats, true);
        return;
      }
    }
    assert Attempted(plan, ret) == writes + Attempted(tailTtl, ret);
    assert Aborted(plan, ret) == Aborted(tailTtl, ret);
    PrependSteps(p.ttl > 0, TtlWrite(family, p), tailMss, ret);
    if p.ttl > 0 {
      writes, aborted := Write(writes, TtlWrite(family, p), ret);
      if aborted {
        UpdateStats(stats, true);
        return;
      }
    }
    assert Attempted(plan, ret) == writes + Attempted(tailMss, ret);
    assert Aborted(plan, ret) == Aborted(tailMss, ret);
    PrependSteps(p.mss > 0, MssWrite(p), [], ret);
    if p.mss > 0 {
      writes, aborted := Write(writes, MssWrite(p), ret);
      if aborted {
        UpdateStats(stats, true);
        return;
      }
    }
  }

  /**
   * The connect branch for a process with a profile: the plan is attempted
   * up to its first fatal failure. An abort counts one error and nothing
   * else; otherwise a failed no-delay write counts one error, the ECN answer
   * is ignored, and one modified connection is counted.
   */
  method ApplyConnect(family: U32, p: TcpProfile, ret: OptWrite -> int, stats: TcpStats?) returns (writes: seq<OptWrite>)
    modifies stats
    ensures writes == Attempted(Plan(family, p), ret)
    ensures stats != null ==>
              var c := old(stats.Counts());
              if Aborted(Plan(family, p), ret) then stats.Counts() == c.(errors := Inc(c.errors))
              else
                var nodelayFailed := p.noDelay != 0 && ret(NodelayWrite) != 0;
                stats.Counts() == c.(connectionsModified := Inc(c.connectionsModified),
                                     errors := if nodelayFailed then Inc(c.errors) else c.errors)
  {
    NonFatalPlanRunsInFull(p, ret);
    AbortedAppend(FatalPlan(family, p), NonFatalPlan(p), ret);
    AttemptedAppend(FatalPlan(family, p), NonFatalPlan(p), ret);
    var aborted;
    writes, aborted := ApplyFatal(family, p, ret, stats);
    if aborted {
      return;
    }
    assert writes == FatalPlan(family, p) by {
      AttemptedStopsAtFirstFatalFailure(FatalPlan(family, p), ret);
    }
    var failed;
    if p.noDelay != 0 {
      writes, failed := Write(writes, NodelayWrite, ret);
      if failed {
        UpdateStats(stats, true);
      }
    }
    if p.ecn != 0 {
      writes, failed := Write(writes, EcnWrite(p), ret);
    }
    UpdateStats(stats, false);
  }

  /**
   * `tcp_fingerprint_spoof`: always 0. Anything but IPv4 or IPv6 is left
   * alone. A connect by a process with a profile applies it; a passive
   * establishment only clamps the window, whatever the answer, and counts
   * nothing; an active establishment counts one processed packet.
   */
  method TcpFingerprintSpoof(family: U32, op: U32, profiles: map<U32, TcpProfile>, pidTgid: U64,
                             ret: OptWrite -> int, stats: TcpStats?)
      returns (r: int, writes: seq<OptWrite>)
    modifies stats
    ensures r == 0
    ensures (family != AfInet && family != AfInet6) || (op != SockOpsTcpConnectCb && op != SockOpsActiveEstablishedCb) ==>
              stats != null ==> stats.Counts() == old(stats.Counts())
    ensures family != AfInet && family != AfInet6 ==> writes == []
    ensures (family == AfInet || family == AfInet6) && op == SockOpsTcpConnectCb ==>
              if Pid(pidTgid) in profiles then
                var p := profiles[Pid(pidTgid)];
                && writes == Attempted(Plan(family, p), ret)
                && (stats != null ==>
                      var c := old(stats.Counts());
                      if Aborted(Plan(family, p), ret) then stats.Counts() == c.(errors := Inc(c.errors))
                      else
                        var nodelayFailed := p.noDelay != 0 && ret(NodelayWrite) != 0;
                        stats.Counts() == c.(connectionsModified := Inc(c.connectionsModified),
                                             errors := if nodelayFailed then Inc(c.errors) else c.errors))
              else writes == [] && (stats != null ==> stats.Counts() == old(stats.Counts()))
    ensures (family == AfInet || family == AfInet6) && op == SockOpsPassiveEstablishedCb ==>
              writes == if Pid(pidTgid) in profiles && profiles[Pid(pidTgid)].windowSize > 0
                        then [WindowWrite(profiles[Pid(pidTgid)])] else []
    ensures (family == AfInet || family == AfInet6) && op == SockOpsActiveEstablishedCb ==>
              writes == [] && (stats != null ==> stats.Counts() == old(stats.Counts()).(packetsProcessed := Inc(old(stats.packetsProcessed))))
    ensures (family == AfInet || family == AfInet6)
            && op != SockOpsTcpConnectCb && op != SockOpsPassiveEstablishedCb && op != SockOpsActiveEstablishedCb ==>
              writes == []
  {
    writes := [];
    if family != AfInet && family != AfInet6 {
      return 0, writes;
    }
    if op == SockOpsTcpConnectCb {
      var pid := Pid(pidTgid);
      if pid !in profiles {
        return 0, writes;
      }
      writes := ApplyConnect(family, profiles[pid], ret, stats);
    } else if op == SockOpsPassiveEstablishedCb {
      var pid := Pid(pidTgid);
      if pid in profiles && profiles[pid].windowSize > 0 {
        var ignored;
        writes, ignored := Write(writes, WindowWrite(profiles[pid]), ret);
      }
    } else if op == SockOpsActiveEstablishedCb {
      if stats != null {
        stats.BumpPacketsProcessed();
      }
    }
    r := 0;
  }

  /** `tcp_socket_create`: every socket is allowed (1), whatever its family and type. */
  method TcpSocketCreate(family: U32, sockType: U32) returns (r: int)
    ensures r == 1
  {
    if family != AfInet && family != AfInet6 {
      return 1;
    }
    r := 1;
  }
}
