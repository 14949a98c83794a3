/** What can hide a connection from the controller. A rule made for a packet whose transport header POX
    cannot parse takes every port of its two hosts, and a rule made for an echo packet takes every ping
    between them; neither packet is tracked as the connection. Each promise made for single connections
    holds over all runs if and only if the packets that break it may not come to the controller. */
module Hiding {
  import opened Common
  import opened Policy
  import opened ConnTrack
  import opened OpenFlow
  import opened RouterModel
  import opened RouterInv
  import opened DataPlane
  import opened Isolation
  import opened RunLog
  import opened KeepAlive
  import opened Routing
  import opened Silence
  import opened Runs

  // --- What may come to the controller ---------------------------------------------------------

  /** What hides a flow: a packet of its hosts that POX cannot parse, or one of another ping. */
  datatype Kind = Unparsed | OtherEcho(id: nat)

  function KindOf(ip: IpPacket): Kind {
    if ip.parsed then OtherEcho(ip.echoId) else Unparsed
  }

  /** Which kinds of packets that hide the flow may come to the controller. */
  type Traffic = Kind -> bool

  /** The packets that may come: all that do not hide the flow, and those that the traffic admits. */
  function Admitted(flow: Flow, opens: bool, traffic: Traffic): Comers {
    (ip: IpPacket) => Hides(ip, flow, opens) ==> traffic(KindOf(ip))
  }

  lemma AdmittedMeans(flow: Flow, opens: bool, traffic: Traffic, ip: IpPacket)
    ensures Admitted(flow, opens, traffic)(ip) <==> (Hides(ip, flow, opens) ==> traffic(KindOf(ip)))
  {
  }

  ghost predicate NoOtherEchoes(flow: Flow, traffic: Traffic) {
    flow.proto == ConnTrack.IPPROTO_ICMP ==> forall id :: id != flow.sport ==> !traffic(OtherEcho(id))
  }

  /** Nothing that hides the flow may come. */
  ghost predicate NothingHides(flow: Flow, traffic: Traffic) {
    !traffic(Unparsed) && NoOtherEchoes(flow, traffic)
  }

  /** Whether packets of this kind can hide the flow at all. */
  predicate CanHide(kind: Kind, flow: Flow) {
    kind.Unparsed? || (flow.proto == ConnTrack.IPPROTO_ICMP && kind.id != flow.sport)
  }

  lemma NothingAdmittedHides(steps: seq<Step>, flow: Flow, opens: bool, traffic: Traffic)
    requires OnlyThese(steps, Admitted(flow, opens, traffic)) && NothingHides(flow, traffic)
    ensures NoneHides(steps, flow, opens)
  {
    forall q | 0 <= q < |steps| && ToController(steps[q]) ensures !Hides(steps[q].frame.payload.ip, flow, opens) {
      AdmittedMeans(flow, opens, traffic, steps[q].frame.payload.ip);
    }
  }

  lemma NoOtherEchoesNoOtherReplies(steps: seq<Step>, flow: Flow, traffic: Traffic)
    requires OnlyThese(steps, Admitted(flow, false, traffic)) && NoOtherEchoes(flow, traffic)
    ensures NoOtherReplies(steps, flow)
  {
    forall q | 0 <= q < |steps| && ToController(steps[q]) ensures !IsOtherEcho(steps[q].frame.payload.ip, flow, false) {
      AdmittedMeans(flow, false, traffic, steps[q].frame.payload.ip);
    }
  }

  // --- A packet that hides a flow --------------------------------------------------------------

  function HiderOf(f: Flow, opens: bool, kind: Kind): IpPacket {
    match kind
    case Unparsed => PacketOf(f, opens).(parsed := false)
    case OtherEcho(id) => PacketOf(f, opens).(echoId := id)
  }

  function HidingMatch(f: Flow, opens: bool, kind: Kind, port: Port): Match {
    MatchOf(FrameOf(HiderOf(f, opens, kind)), port)
  }

  /** Its rule takes the packets of the flow, it is of the kind it should be, and a check of it leaves the
      entries of the flow alone. */
  lemma HiderHides(cfg: Config, f: Flow, opens: bool, kind: Kind, port: Port)
    requires IsFlow(f) && CanHide(kind, f)
    ensures Matches(HidingMatch(f, opens, kind, port), FrameOf(PacketOf(f, opens)), port)
    ensures KindOf(HiderOf(f, opens, kind)) == kind
    ensures TrackedOf(HiderOf(f, opens, kind)).Some? ==> var g := TrackedOf(HiderOf(f, opens, kind)).value.flow;
                                                         g != f && g != f.Reversed() && g.Reversed() != f && g.Reversed() != f.Reversed()
  {
  }

  lemma CheckLeavesOtherEntries(table: Table, allowed: bool, packet: Option<TrackedPacket>, now: Time, key: Flow)
    requires packet.Some? ==> packet.value.flow != key && packet.value.flow.Reversed() != key
    ensures var table' := AfterCheck(table, IDLE_TIMEOUT, allowed, packet, now, now);
            (key in table ==> key in table' && table'[key] == table[key])
  {
  }

  // --- The failing run -------------------------------------------------------------------------

  /** A flow, what hides it, and the way it goes: from a host of zone `a` behind core port `port` to a host
      of zone `b`. */
  datatype Plot = Plot(flow: Flow, opens: bool, kind: Kind, port: Port, a: ZoneName, b: ZoneName) {
    function Packet(): IpPacket {
      PacketOf(flow, opens)
    }

    function Hider(): IpPacket {
      HiderOf(flow, opens, kind)
    }

    function Wide(): Match {
      HidingMatch(flow, opens, kind, port)
    }
  }

  /** The flow's entry `key` still stands as it was stamped at time zero, the rule of the hiding packet was
      last hit no later than `hit`, and every other rule dates from time zero. */
  ghost predicate Stage(cfg: Config, n: Net, now: Time, key: Flow, plot: Plot, hit: Time) {
    var table := TableOf(n, cfg.maps.coreDpid);
    && Calm(cfg, n, now) && Crossing(cfg, n.router, plot.Packet(), plot.port, plot.a, plot.b)
    && key in n.router.conns && n.router.conns[key] == 0.0
    && forall m :: m in table ==> table[m].idle <= 30.0 && table[m].lastHit <= if m == plot.Wide() then hit else 0.0
  }

  /** The hiding packet's rule, whether it drops or routes. */
  ghost predicate HidingRule(cfg: Config, n: Net, plot: Plot, installed: Time, lastHit: Time) {
    var table, m := TableOf(n, cfg.maps.coreDpid), plot.Wide();
    m in table && table[m].installed == installed && table[m].lastHit == lastHit && table[m].idle >= 10.0 && table[m].hard >= 30.0
  }

  /** Thirty seconds after the last hits, no rule takes anything. */
  lemma RulesAreIdle(cfg: Config, n: Net, before: Time, key: Flow, plot: Plot, hit: Time, now: Time, ip: IpPacket)
    requires Stage(cfg, n, before, key, plot, hit) && 30.0 <= now && hit + 30.0 <= now
    ensures NoneTakes(cfg, n.(now := now), ip, plot.port)
  {
    assert TableOf(n.(now := now), cfg.maps.coreDpid) == TableOf(n, cfg.maps.coreDpid);
  }

  lemma HiderIsSeen(cfg: Config, n: Net, n': Net, key: Flow, plot: Plot, before: Time, hit: Time, now: Time)
    requires Stage(cfg, n, before, key, plot, hit) && IsFlow(plot.flow) && CanHide(plot.kind, plot.flow)
    requires key == plot.flow || key == plot.flow.Reversed()
    requires plot.b in cfg.gateways && Seen(cfg, n, n', plot.Hider(), plot.port, plot.a, plot.b, now)
    ensures Stage(cfg, n', now, key, plot, now) && HidingRule(cfg, n', plot, now, now)
  {
    HiderHides(cfg, plot.flow, plot.opens, plot.kind, plot.port);
    CheckLeavesOtherEntries(n.router.conns, Allowed(cfg, plot.Hider(), plot.a, plot.b), TrackedOf(plot.Hider()), now, key);
  }

  /** A hiding packet comes at `now`, when no rule takes it any more: its rule is installed, and the entry
      is left alone. */
  lemma HiderComes(cfg: Config, steps: seq<Step>, nets: seq<Net>, comers: Comers, key: Flow, plot: Plot, before: Time, hit: Time, now: Time)
    returns (steps': seq<Step>, nets': seq<Net>)
    requires ConfigOk(cfg) && Fair(cfg, steps, nets, comers) && Stage(cfg, nets[|steps|], before, key, plot, hit)
    requires IsFlow(plot.flow) && CanHide(plot.kind, plot.flow) && (key == plot.flow || key == plot.flow.Reversed())
    requires comers(plot.Hider()) && before <= now && 30.0 <= now && hit + 30.0 <= now
    ensures Fair(cfg, steps', nets', comers) && steps <= steps' && nets <= nets' && |steps'| == |steps| + 2
    ensures Stage(cfg, nets'[|steps'|], now, key, plot, now) && HidingRule(cfg, nets'[|steps'|], plot, now, now)
  {
    RulesAreIdle(cfg, nets[|steps|], before, key, plot, hit, now, plot.Hider());
    steps', nets' := ThenSeen(cfg, steps, nets, comers, plot.Hider(), plot.port, plot.a, plot.b, before, now);
    HiderIsSeen(cfg, nets[|steps|], nets'[|steps'|], key, plot, before, hit, now);
  }

  lemma TakingKeepsTheStage(cfg: Config, n: Net, n': Net, key: Flow, plot: Plot, before: Time, since: Time, now: Time)
    requires Stage(cfg, n, before, key, plot, before) && HidingRule(cfg, n, plot, since, before)
    requires Taken(cfg, n, n', plot.Packet(), plot.Wide(), now)
    ensures Stage(cfg, n', now, key, plot, now) && HidingRule(cfg, n', plot, since, now)
  {
  }

  /** At `k` of the run, a hidden packet of the flow comes at time `now` and finds the entry as it was
      stamped at time zero. */
  ghost predicate HiddenAt(cfg: Config, steps: seq<Step>, nets: seq<Net>, key: Flow, plot: Plot, k: nat, now: Time) {
    && k < |steps| && k < |nets| && steps[k] == TakenStep(cfg, plot.Packet(), plot.port, plot.Wide()) && nets[k].now == now
    && key in nets[k].router.conns && nets[k].router.conns[key] == 0.0
  }

  /** A packet of the flow comes at `now` and the hiding rule takes it. */
  lemma PacketIsHidden(cfg: Config, steps: seq<Step>, nets: seq<Net>, comers: Comers, key: Flow, plot: Plot, before: Time, since: Time, now: Time)
    returns (steps': seq<Step>, nets': seq<Net>)
    requires ConfigOk(cfg) && Fair(cfg, steps, nets, comers) && Stage(cfg, nets[|steps|], before, key, plot, before)
    requires IsFlow(plot.flow) && CanHide(plot.kind, plot.flow)
    requires HidingRule(cfg, nets[|steps|], plot, since, before) && before <= now < before + 10.0 && now < since + 30.0
    ensures Fair(cfg, steps', nets', comers) && steps <= steps' && nets <= nets'
    ensures Stage(cfg, nets'[|steps'|], now, key, plot, now) && HidingRule(cfg, nets'[|steps'|], plot, since, now)
    ensures |steps'| == |steps| + 2 && HiddenAt(cfg, steps', nets', key, plot, |steps| + 1, now)
  {
    HiderHides(cfg, plot.flow, plot.opens, plot.kind, plot.port);
    steps', nets' := ThenTaken(cfg, steps, nets, comers, plot.Packet(), plot.port, plot.Wide(), before, now);
    TakingKeepsTheStage(cfg, nets[|steps|], nets'[|steps'|], key, plot, before, since, now);
  }

  lemma HiddenStays(cfg: Config, steps: seq<Step>, nets: seq<Net>, steps': seq<Step>, nets': seq<Net>, key: Flow, plot: Plot, k: nat, now: Time)
    requires HiddenAt(cfg, steps, nets, key, plot, k, now) && steps <= steps' && nets <= nets'
    ensures HiddenAt(cfg, steps', nets', key, plot, k, now)
  {
  }

  /** A hiding packet comes, and then one of the flow that it hides. */
  lemma HiddenPacket(cfg: Config, steps: seq<Step>, nets: seq<Net>, comers: Comers, key: Flow, plot: Plot, before: Time, hit: Time, first: Time, now: Time)
    returns (steps': seq<Step>, nets': seq<Net>)
    requires ConfigOk(cfg) && Fair(cfg, steps, nets, comers) && Stage(cfg, nets[|steps|], before, key, plot, hit)
    requires IsFlow(plot.flow) && CanHide(plot.kind, plot.flow) && (key == plot.flow || key == plot.flow.Reversed())
    requires comers(plot.Hider()) && before <= first && 30.0 <= first && hit + 30.0 <= first <= now < first + 10.0
    ensures Fair(cfg, steps', nets', comers) && steps <= steps' && nets <= nets' && Stage(cfg, nets'[|steps'|], now, key, plot, now)
    ensures |steps'| == |steps| + 4 && HiddenAt(cfg, steps', nets', key, plot, |steps| + 3, now)
  {
    steps', nets' := HiderComes(cfg, steps, nets, comers, key, plot, before, hit, first);
    steps', nets' := PacketIsHidden(cfg, steps', nets', comers, key, plot, first, first, now);
  }

  /** The failing run, from the opened connection on: hiding packets at 31 and 80 seconds hide those of the
      flow at 32 and 85 seconds, and at 120 seconds the entry is idle. */
  lemma HidingRun(cfg: Config, steps: seq<Step>, nets: seq<Net>, comers: Comers, key: Flow, plot: Plot)
    returns (steps': seq<Step>, nets': seq<Net>, k1: nat, k2: nat)
    requires ConfigOk(cfg) && Fair(cfg, steps, nets, comers) && Stage(cfg, nets[|steps|], 0.0, key, plot, 0.0) && comers(plot.Hider())
    requires IsFlow(plot.flow) && CanHide(plot.kind, plot.flow) && (key == plot.flow || key == plot.flow.Reversed())
    ensures Fair(cfg, steps', nets', comers) && steps <= steps' && nets <= nets' && |steps| < k1 < k2 < |steps'|
    ensures HiddenAt(cfg, steps', nets', key, plot, k1, 32.0) && HiddenAt(cfg, steps', nets', key, plot, k2, 85.0)
    ensures var n := nets'[|steps'|]; n.now == 120.0 && key in n.router.conns && n.router.conns[key] == 0.0
  {
    var s1, n1 := HiddenPacket(cfg, steps, nets, comers, key, plot, 0.0, 0.0, 31.0, 32.0);
    var s2, n2 := HiddenPacket(cfg, s1, n1, comers, key, plot, 32.0, 32.0, 80.0, 85.0);
    steps', nets' := ExtendFair(cfg, s2, n2, Wait(120.0), comers);
    k1, k2 := |steps| + 3, |steps| + 7;
    HiddenStays(cfg, s1, n1, steps', nets', key, plot, k1, 32.0);
    HiddenStays(cfg, s2, n2, steps', nets', key, plot, k2, 85.0);
  }

  // --- The connection is opened ----------------------------------------------------------------

  /** The hosts of a flow: its source in zone `a` behind core port `p`, its destination in zone `b` behind
      core port `q`. */
  predicate Between(cfg: Config, flow: Flow, a: ZoneName, b: ZoneName, p: Port, q: Port) {
    IsFlow(flow) && HostAt(cfg, flow.src, a, p) && HostAt(cfg, flow.dst, b, q) && a != b
  }

  predicate MayStart(cfg: Config, flow: Flow, a: ZoneName, b: ZoneName) {
    cfg.allowed(a, b, flow.proto == ConnTrack.IPPROTO_ICMP)
  }

  /** The two hosts are known, a packet of the flow has just opened it, and nothing else has happened. */
  ghost predicate Opened(cfg: Config, n: Net, key: Flow) {
    && Calm(cfg, n, 0.0) && key.src in n.router.ipToLoc && key.dst in n.router.ipToLoc
    && key in n.router.conns && n.router.conns[key] == 0.0
    && var table := TableOf(n, cfg.maps.coreDpid);
       forall m :: m in table ==> m.nw == Some((key.src, key.dst, key.proto)) && table[m].idle == 30.0 && table[m].lastHit == 0.0
  }

  lemma SeenOpens(cfg: Config, n: Net, n': Net, key: Flow, a: ZoneName, b: ZoneName, p: Port, q: Port)
    requires Between(cfg, key, a, b, p, q) && MayStart(cfg, key, a, b) && Quiet(cfg, n) && key.dst in n.router.ipToLoc && b in cfg.gateways
    requires Seen(cfg, n, n', PacketOf(key, true), p, a, b, 0.0)
    ensures Opened(cfg, n', key)
  {
    PacketIsOfItsFlow(key, true);
  }

  function OpeningSteps(cfg: Config, key: Flow, p: Port, q: Port): seq<Step> {
    [ConnectionUp(cfg.maps.coreDpid), HelloStep(cfg, key.src, p), HelloStep(cfg, key.dst, q)]
    + [Wait(0.0), SeenStep(cfg, PacketOf(key, true), p, 0.0)]
  }

  /** A packet of `key` is checked at time zero and opens the connection. */
  lemma OpeningRun(cfg: Config, comers: Comers, key: Flow, a: ZoneName, b: ZoneName, p: Port, q: Port) returns (steps: seq<Step>, nets: seq<Net>)
    requires ConfigOk(cfg) && Between(cfg, key, a, b, p, q) && MayStart(cfg, key, a, b) && comers(PacketOf(key, true))
    ensures Fair(cfg, steps, nets, comers) && steps == OpeningSteps(cfg, key, p, q) && nets[4].now == 0.0
    ensures Opened(cfg, nets[|steps|], key)
  {
    var s0, n0 := Prologue(cfg, comers, key.src, key.dst, a, b, p, q);
    steps, nets := ThenSeen(cfg, s0, n0, comers, PacketOf(key, true), p, a, b, 0.0, 0.0);
    SeenOpens(cfg, n0[|s0|], nets[|steps|], key, a, b, p, q);
  }

  lemma OpenedIsAStage(cfg: Config, n: Net, key: Flow, plot: Plot, q: Port)
    requires Opened(cfg, n, key) && Between(cfg, plot.flow, plot.a, plot.b, plot.port, q)
    requires key == plot.flow || key == plot.flow.Reversed()
    ensures Stage(cfg, n, 0.0, key, plot, 0.0)
  {
  }

  // --- Connections stay tracked, if and only if ------------------------------------------------

  /** State `i` of the run comes while the flow is busy, with gaps below `gap`. */
  ghost predicate BusyRun(cfg: Config, steps: seq<Step>, nets: seq<Net>, late: Time, flow: Flow, opens: bool, at: seq<nat>, i: nat, gap: Time) {
    InRun(cfg, steps, nets, late, i) && Busy(cfg, steps, nets, flow, opens, at, gap) && During(nets, at, gap, i)
  }

  ghost predicate BusyOpeners(cfg: Config, steps: seq<Step>, nets: seq<Net>, late: Time, delay: Time, flow: Flow, at: seq<nat>, i: nat) {
    BusyRun(cfg, steps, nets, late, flow, true, at, i, IDLE_TIMEOUT - ROUTED_FLOW_HARD_TIMEOUT - delay) && Prompt(steps, delay)
  }

  ghost predicate BusyReplies(cfg: Config, steps: seq<Step>, nets: seq<Net>, late: Time, delay: Time, flow: Flow, at: seq<nat>, i: nat) {
    && BusyRun(cfg, steps, nets, late, flow, false, at, i, IDLE_TIMEOUT - ROUTED_FLOW_HARD_TIMEOUT - 2.0 * delay) && Swift(steps, nets, delay)
    && Alive(nets[at[0]].router.conns, IDLE_TIMEOUT, flow.Reversed(), nets[at[0]].now + delay)
  }

  /** The timing contract for a flow the policy allows, over every run in which packets that hide it come
      to the controller only as the traffic says. */
  ghost predicate OpenersTracked(cfg: Config, flow: Flow, traffic: Traffic) {
    forall late: Time, delay: Time, steps: seq<Step>, nets: seq<Net>, at: seq<nat>, i: nat ::
      BusyOpeners(cfg, steps, nets, late, delay, flow, at, i) && OnlyThese(steps, Admitted(flow, true, traffic)) ==>
        Alive(nets[i].router.conns, IDLE_TIMEOUT, flow, nets[i].now)
  }

  /** The same for a flow the policy blocks, from an entry it answers. */
  ghost predicate RepliesTracked(cfg: Config, flow: Flow, traffic: Traffic) {
    forall late: Time, delay: Time, steps: seq<Step>, nets: seq<Net>, at: seq<nat>, i: nat ::
      BusyReplies(cfg, steps, nets, late, delay, flow, at, i) && OnlyThese(steps, Admitted(flow, false, traffic)) ==>
        Alive(nets[i].router.conns, IDLE_TIMEOUT, flow.Reversed(), nets[i].now)
  }

  /** The packets of the failing run are honest arrivals of the flow. */
  lemma HonestPackets(cfg: Config, flow: Flow, opens: bool, a: ZoneName, b: ZoneName, p: Port, q: Port, s: Step)
    requires ConfigOk(cfg) && Between(cfg, flow, a, b, p, q) && s.Arrive? && s.dpid == cfg.maps.coreDpid && s.port == p && s.complete
    requires s.frame == FrameOf(PacketOf(flow, opens))
    ensures HonestArrival(cfg, s) && CanBe(s.frame.payload.ip, opens) && FlowOf(s.frame.payload.ip) == flow
  {
    CoreIsNoLeaf(cfg, p);
    PacketIsOfItsFlow(flow, opens);
  }

  /** The flow's own packets hide nothing, nor do its openers hide its replies. */
  lemma OwnPacketsAreAdmitted(cfg: Config, flow: Flow, key: Flow, opens: bool, traffic: Traffic, a: ZoneName, b: ZoneName, p: Port, q: Port)
    requires Between(cfg, key, a, b, p, q) && ((flow == key && opens) || flow == key.Reversed())
    ensures Admitted(flow, opens, traffic)(PacketOf(key, true))
  {
    AdmittedMeans(flow, opens, traffic, PacketOf(key, true));
  }

  /** The failing run of an allowed connection: its packets come at 0, 32 and 85 seconds. */
  lemma HiddenOpenersRun(cfg: Config, flow: Flow, comers: Comers, plot: Plot, q: Port)
    returns (steps: seq<Step>, nets: seq<Net>, k1: nat, k2: nat)
    requires ConfigOk(cfg) && Between(cfg, flow, plot.a, plot.b, plot.port, q) && MayStart(cfg, flow, plot.a, plot.b)
    requires plot.flow == flow && CanHide(plot.kind, flow) && comers(plot.Hider()) && comers(PacketOf(flow, true))
    ensures Fair(cfg, steps, nets, comers) && 4 < k1 < k2 < |steps|
    ensures steps[4] == SeenStep(cfg, PacketOf(flow, true), plot.port, 0.0) && nets[4].now == 0.0
    ensures HiddenAt(cfg, steps, nets, flow, plot, k1, 32.0) && HiddenAt(cfg, steps, nets, flow, plot, k2, 85.0)
    ensures var n := nets[|steps|]; n.now == 120.0 && flow in n.router.conns && n.router.conns[flow] == 0.0
  {
    var s0, n0 := OpeningRun(cfg, comers, flow, plot.a, plot.b, plot.port, q);
    OpenedIsAStage(cfg, n0[|s0|], flow, plot, q);
    steps, nets, k1, k2 := HidingRun(cfg, s0, n0, comers, flow, plot);
    assert steps[4] == s0[4] && nets[4] == n0[4];
  }

  /** Hiding packets make the controller forget a connection the policy allows, whose packets are never a
      minute apart. */
  lemma HidersHideOpeners(cfg: Config, flow: Flow, traffic: Traffic, kind: Kind, a: ZoneName, b: ZoneName, p: Port, q: Port)
    requires ConfigOk(cfg) && DaemonAgrees(cfg) && Between(cfg, flow, a, b, p, q) && MayStart(cfg, flow, a, b)
    requires CanHide(kind, flow) && traffic(kind)
    ensures !OpenersTracked(cfg, flow, traffic)
  {
    var plot, comers := Plot(flow, true, kind, p, a, b), Admitted(flow, true, traffic);
    HiderHides(cfg, flow, true, kind, p);
    OwnPacketsAreAdmitted(cfg, flow, flow, true, traffic, a, b, p, q);
    var steps, nets, k1, k2 := HiddenOpenersRun(cfg, flow, comers, plot, q);
    HonestPackets(cfg, flow, true, a, b, p, q, steps[4]);
    HonestPackets(cfg, flow, true, a, b, p, q, steps[k1]);
    OpenersAreBusy(cfg, steps, nets, flow, 4, k1, k2);
    assert BusyOpeners(cfg, steps, nets, 0.0, 0.0, flow, [4, k1, k2], |steps|);
  }

  lemma OpenersAreBusy(cfg: Config, steps: seq<Step>, nets: seq<Net>, flow: Flow, k0: nat, k1: nat, k2: nat)
    requires |nets| == |steps| + 1 && k0 < k1 < k2 < |steps| && steps[k1] == steps[k2]
    requires HonestArrival(cfg, steps[k0]) && CanBe(steps[k0].frame.payload.ip, true) && FlowOf(steps[k0].frame.payload.ip) == flow
    requires HonestArrival(cfg, steps[k1]) && CanBe(steps[k1].frame.payload.ip, true) && FlowOf(steps[k1].frame.payload.ip) == flow
    requires nets[k0].now == 0.0 && nets[k1].now == 32.0 && nets[k2].now == 85.0 && nets[|steps|].now == 120.0
    ensures Busy(cfg, steps, nets, flow, true, [k0, k1, k2], IDLE_TIMEOUT - ROUTED_FLOW_HARD_TIMEOUT - 0.0)
    ensures During(nets, [k0, k1, k2], IDLE_TIMEOUT - ROUTED_FLOW_HARD_TIMEOUT - 0.0, |steps|)
  {
  }

  /** The failing run of replies: they come at 32 and 85 seconds to a connection opened at 0. */
  lemma HiddenRepliesRun(cfg: Config, flow: Flow, comers: Comers, plot: Plot, p: Port)
    returns (steps: seq<Step>, nets: seq<Net>, k1: nat, k2: nat)
    requires ConfigOk(cfg) && Between(cfg, flow, plot.a, plot.b, plot.port, p) && MayStart(cfg, flow, plot.b, plot.a)
    requires plot.flow == flow && CanHide(plot.kind, flow) && comers(plot.Hider()) && comers(PacketOf(flow.Reversed(), true))
    ensures Fair(cfg, steps, nets, comers) && k1 < k2 < |steps|
    ensures HiddenAt(cfg, steps, nets, flow.Reversed(), plot, k1, 32.0) && HiddenAt(cfg, steps, nets, flow.Reversed(), plot, k2, 85.0)
    ensures var n := nets[|steps|]; n.now == 120.0 && flow.Reversed() in n.router.conns && n.router.conns[flow.Reversed()] == 0.0
  {
    var s0, n0 := OpeningRun(cfg, comers, flow.Reversed(), plot.b, plot.a, p, plot.port);
    OpenedIsAStage(cfg, n0[|s0|], flow.Reversed(), plot, p);
    steps, nets, k1, k2 := HidingRun(cfg, s0, n0, comers, flow.Reversed(), plot);
  }

  /** And one whose replies the policy blocks on their own, by drop rules. */
  lemma HidersHideReplies(cfg: Config, flow: Flow, traffic: Traffic, kind: Kind, a: ZoneName, b: ZoneName, p: Port, q: Port)
    requires ConfigOk(cfg) && DaemonAgrees(cfg) && Between(cfg, flow, b, a, q, p) && MayStart(cfg, flow, a, b)
    requires CanHide(kind, flow) && traffic(kind)
    ensures !RepliesTracked(cfg, flow, traffic)
  {
    var plot, comers := Plot(flow, false, kind, q, b, a), Admitted(flow, false, traffic);
    HiderHides(cfg, flow, false, kind, q);
    OwnPacketsAreAdmitted(cfg, flow, flow.Reversed(), false, traffic, a, b, p, q);
    var steps, nets, k1, k2 := HiddenRepliesRun(cfg, flow, comers, plot, p);
    HonestPackets(cfg, flow, false, b, a, q, p, steps[k1]);
    RepliesAreBusy(cfg, steps, nets, flow, k1, k2);
    assert BusyReplies(cfg, steps, nets, 0.0, 0.0, flow, [k1, k2], |steps|);
  }

  lemma RepliesAreBusy(cfg: Config, steps: seq<Step>, nets: seq<Net>, flow: Flow, k1: nat, k2: nat)
    requires |nets| == |steps| + 1 && k1 < k2 < |steps| && steps[k1] == steps[k2]
    requires HonestArrival(cfg, steps[k1]) && CanBe(steps[k1].frame.payload.ip, false) && FlowOf(steps[k1].frame.payload.ip) == flow
    requires nets[k1].now == 32.0 && nets[k2].now == 85.0 && nets[|steps|].now == 120.0
    ensures Busy(cfg, steps, nets, flow, false, [k1, k2], IDLE_TIMEOUT - ROUTED_FLOW_HARD_TIMEOUT - 2.0 * 0.0)
    ensures During(nets, [k1, k2], IDLE_TIMEOUT - ROUTED_FLOW_HARD_TIMEOUT - 2.0 * 0.0, |steps|)
  {
  }

  /** If something may hide the flow, some kind of packet does. */
  lemma SomethingHides(flow: Flow, traffic: Traffic) returns (kind: Kind)
    requires !NothingHides(flow, traffic)
    ensures CanHide(kind, flow) && traffic(kind)
  {
    if traffic(Unparsed) {
      kind := Unparsed;
    } else {
      var id :| id != flow.sport && traffic(OtherEcho(id));
      kind := OtherEcho(id);
    }
  }

  /** A flow the policy allows stays tracked in every run, as the timeouts promise, if and only if nothing
      that hides it may come to the controller. */
  lemma OpenersTrackedIffNothingHides(cfg: Config, flow: Flow, traffic: Traffic, a: ZoneName, b: ZoneName, p: Port, q: Port)
    requires ConfigOk(cfg) && DaemonAgrees(cfg) && Between(cfg, flow, a, b, p, q) && MayStart(cfg, flow, a, b)
    ensures OpenersTracked(cfg, flow, traffic) <==> NothingHides(flow, traffic)
  {
    if NothingHides(flow, traffic) {
      forall late: Time, delay: Time, steps: seq<Step>, nets: seq<Net>, at: seq<nat>, i: nat
        | BusyOpeners(cfg, steps, nets, late, delay, flow, at, i) && OnlyThese(steps, Admitted(flow, true, traffic))
        ensures Alive(nets[i].router.conns, IDLE_TIMEOUT, flow, nets[i].now)
      {
        NothingAdmittedHides(steps, flow, true, traffic);
        BusyConnectionsStayTracked(cfg, steps, nets, late, delay, flow, at, i);
      }
    } else {
      var kind := SomethingHides(flow, traffic);
      HidersHideOpeners(cfg, flow, traffic, kind, a, b, p, q);
    }
  }

  /** Replies keep the connection they answer tracked in every run if and only if nothing that hides them
      may come to the controller. */
  lemma RepliesTrackedIffNothingHides(cfg: Config, flow: Flow, traffic: Traffic, a: ZoneName, b: ZoneName, p: Port, q: Port)
    requires ConfigOk(cfg) && DaemonAgrees(cfg) && Between(cfg, flow, b, a, q, p) && MayStart(cfg, flow, a, b) && !MayStart(cfg, flow, b, a)
    ensures RepliesTracked(cfg, flow, traffic) <==> NothingHides(flow, traffic)
  {
    if NothingHides(flow, traffic) {
      forall late: Time, delay: Time, steps: seq<Step>, nets: seq<Net>, at: seq<nat>, i: nat
        | BusyReplies(cfg, steps, nets, late, delay, flow, at, i) && OnlyThese(steps, Admitted(flow, false, traffic))
        ensures Alive(nets[i].router.conns, IDLE_TIMEOUT, flow.Reversed(), nets[i].now)
      {
        NothingAdmittedHides(steps, flow, false, traffic);
        RepliesKeepTheConnection(cfg, steps, nets, late, delay, flow, at, i);
      }
    } else {
      var kind := SomethingHides(flow, traffic);
      HidersHideReplies(cfg, flow, traffic, kind, a, b, p, q);
    }
  }

  // --- Silence closes, if and only if ----------------------------------------------------------

  /** At step `k` a packet of the flow, which the policy blocks, comes after the idle timeout without one of
      its connection. */
  ghost predicate SilentRun(cfg: Config, steps: seq<Step>, nets: seq<Net>, late: Time, flow: Flow, k: nat) {
    && InRun(cfg, steps, nets, late, k) && k < |steps| && BlockedArrival(cfg, steps[k]) && FlowOf(steps[k].frame.payload.ip) == flow
    && SilentSince(steps, nets, k, flow, nets[k].now - IDLE_TIMEOUT)
  }

  /** Such a packet goes nowhere, in any run in which packets that hide the flow come to the controller only
      as the traffic says. */
  ghost predicate SilenceCloses(cfg: Config, flow: Flow, traffic: Traffic) {
    forall late: Time, steps: seq<Step>, nets: seq<Net>, k: nat ::
      SilentRun(cfg, steps, nets, late, flow, k) && OnlyThese(steps, Admitted(flow, false, traffic)) ==> nets[k + 1].trace == nets[k].trace
  }

  /** Packets that may come while the flow's own connection is silent. */
  function Others(flow: Flow, traffic: Traffic): Comers {
    (ip: IpPacket) => Admitted(flow, false, traffic)(ip)
                      && (TrackedOf(ip).Some? ==> FlowOf(ip) != flow && FlowOf(ip) != flow.Reversed())
  }

  lemma OtherPingIsAmongOthers(flow: Flow, traffic: Traffic, other: Flow)
    requires flow.src != flow.dst && other.src == flow.dst && other.dst == flow.src && other.proto == flow.proto == ConnTrack.IPPROTO_ICMP
    requires IsFlow(flow) && IsFlow(other) && other.sport != flow.sport && traffic(OtherEcho(other.sport))
    ensures Others(flow, traffic)(PacketOf(other, true)) && Others(flow, traffic)(PacketOf(other.Reversed(), false))
  {
    AdmittedMeans(flow, false, traffic, PacketOf(other, true));
    AdmittedMeans(flow, false, traffic, PacketOf(other.Reversed(), false));
  }

  lemma OnlyOthersIsSilence(steps: seq<Step>, nets: seq<Net>, k: nat, flow: Flow, traffic: Traffic, since: Time)
    requires k < |nets| == |steps| + 1 && OnlyThese(steps, Others(flow, traffic)) && NoRuleTook(steps, k)
    ensures SilentSince(steps, nets, k, flow, since) && OnlyThese(steps, Admitted(flow, false, traffic))
  {
    forall q | 0 <= q < |steps| && ToController(steps[q])
      ensures Admitted(flow, false, traffic)(steps[q].frame.payload.ip)
      ensures TrackedOf(steps[q].frame.payload.ip).Some? ==> FlowOf(steps[q].frame.payload.ip) != flow && FlowOf(steps[q].frame.payload.ip) != flow.Reversed()
    {
      assert Others(flow, traffic)(steps[q].frame.payload.ip);
    }
    forall q | 0 <= q < k && steps[q].Arrive? && steps[q].frame.payload.Ip? ensures ToController(steps[q]) {
    }
  }

  lemma OpenedTakesNoReplies(cfg: Config, n: Net, key: Flow, q: Port)
    requires Opened(cfg, n, key) && key.src != key.dst
    ensures NoneTakes(cfg, n.(now := 0.0), PacketOf(key.Reversed(), false), q)
  {
  }

  /** The first `k` steps saw every packet come to the controller. */
  ghost predicate NoRuleTook(steps: seq<Step>, k: nat)
    requires k <= |steps|
  {
    forall q :: 0 <= q < k && steps[q].Arrive? ==> steps[q].via.None?
  }

  function AnsweredSteps(cfg: Config, key: Flow, p: Port, q: Port): seq<Step> {
    OpeningSteps(cfg, key, p, q) + [Wait(0.0), SeenStep(cfg, PacketOf(key.Reversed(), false), q, 0.0)]
  }

  lemma AnsweredStepsAreSeen(cfg: Config, key: Flow, p: Port, q: Port, steps: seq<Step>)
    requires AnsweredSteps(cfg, key, p, q) + [Wait(0.0)] <= steps
    ensures |AnsweredSteps(cfg, key, p, q)| == 7 && NoRuleTook(steps, 8)
  {
    assert |AnsweredSteps(cfg, key, p, q)| == 7;
    assert steps[0].ConnectionUp? && steps[3].Wait? && steps[5].Wait? && steps[7].Wait?;
  }

  /** A connection is opened and answered: a rule for its replies is in place. */
  lemma AnsweredRun(cfg: Config, comers: Comers, key: Flow, a: ZoneName, b: ZoneName, p: Port, q: Port)
    returns (steps: seq<Step>, nets: seq<Net>, gateway: Gateway, loc: Location)
    requires ConfigOk(cfg) && Between(cfg, key, a, b, p, q) && MayStart(cfg, key, a, b)
    requires comers(PacketOf(key, true)) && comers(PacketOf(key.Reversed(), false))
    ensures Fair(cfg, steps, nets, comers) && Calm(cfg, nets[|steps|], 0.0) && steps == AnsweredSteps(cfg, key, p, q)
    ensures var table, m := TableOf(nets[|steps|], cfg.maps.coreDpid), MatchOf(FrameOf(PacketOf(key.Reversed(), false)), q);
            m in table && table[m] == RuleFor(true, gateway, loc, 0.0)
  {
    var reply := PacketOf(key.Reversed(), false);
    var s0, n0 := OpeningRun(cfg, comers, key, a, b, p, q);
    var n := n0[|s0|];
    OpenedTakesNoReplies(cfg, n, key, q);
    PacketIsOfItsFlow(key.Reversed(), false);
    steps, nets := ThenSeen(cfg, s0, n0, comers, reply, q, b, a, 0.0, 0.0);
    gateway, loc := cfg.gateways[a], n.router.ipToLoc[key.src];
    assert WouldPass(cfg, n.router.conns, reply, b, a, 0.0);
  }

  /** A reply of a ping that was never sent goes along with those of another. */
  lemma OtherRepliesCarry(cfg: Config, flow: Flow, traffic: Traffic, id: nat, a: ZoneName, b: ZoneName, p: Port, q: Port)
    requires ConfigOk(cfg) && DaemonAgrees(cfg) && Between(cfg, flow, b, a, q, p) && MayStart(cfg, flow, a, b) && !MayStart(cfg, flow, b, a)
    requires flow.proto == ConnTrack.IPPROTO_ICMP && id != flow.sport && traffic(OtherEcho(id))
    ensures !SilenceCloses(cfg, flow, traffic)
  {
    var other := Flow(flow.dst, flow.src, flow.proto, id, id);
    var comers, packet, m := Others(flow, traffic), PacketOf(flow, false), HidingMatch(flow, false, OtherEcho(id), q);
    HiderHides(cfg, flow, false, OtherEcho(id), q);
    assert HiderOf(flow, false, OtherEcho(id)) == PacketOf(other.Reversed(), false);
    OtherPingIsAmongOthers(flow, traffic, other);
    var s0, n0, gateway, loc := AnsweredRun(cfg, comers, other, a, b, p, q);
    var steps, nets := ThenTaken(cfg, s0, n0, comers, packet, q, m, 0.0, 0.0);
    assert s0 + [Wait(0.0)] <= steps;
    AnsweredStepsAreSeen(cfg, other, p, q, steps);
    OnlyOthersIsSilence(steps, nets, 8, flow, traffic, -IDLE_TIMEOUT);
    HonestPackets(cfg, flow, false, b, a, q, p, steps[8]);
    assert SilentRun(cfg, steps, nets, 0.0, flow, 8);
    assert nets[9].trace == n0[|s0|].trace + [Sent(0.0, cfg.maps.coreDpid, To(loc.corePort), OneHopOn(packet, gateway, loc), true)];
  }

  /** A silent connection is closed in every run if and only if, should it be a ping, no replies of other
      pings between its hosts may come to the controller. */
  lemma SilenceClosesIffNoOtherEchoes(cfg: Config, flow: Flow, traffic: Traffic, a: ZoneName, b: ZoneName, p: Port, q: Port)
    requires ConfigOk(cfg) && DaemonAgrees(cfg) && Between(cfg, flow, b, a, q, p) && MayStart(cfg, flow, a, b) && !MayStart(cfg, flow, b, a)
    ensures SilenceCloses(cfg, flow, traffic) <==> NoOtherEchoes(flow, traffic)
  {
    if NoOtherEchoes(flow, traffic) {
      forall late: Time, steps: seq<Step>, nets: seq<Net>, k: nat
        | SilentRun(cfg, steps, nets, late, flow, k) && OnlyThese(steps, Admitted(flow, false, traffic))
        ensures nets[k + 1].trace == nets[k].trace
      {
        NoOtherEchoesNoOtherReplies(steps, flow, traffic);
        SilentConnectionsAreClosed(cfg, steps, nets, late, k);
      }
    } else {
      var id :| id != flow.sport && traffic(OtherEcho(id));
      OtherRepliesCarry(cfg, flow, traffic, id, a, b, p, q);
    }
  }

  // --- Ports are checked, if and only if -------------------------------------------------------

  /** The core sends a packet between the hosts of the flow; it goes from zone to zone. */
  predicate SentBetween(cfg: Config, s: Sent, flow: Flow) {
    s.dpid == cfg.maps.coreDpid && s.frame.payload.Ip? && !SameZone(cfg, flow.src, flow.dst) && SameHosts(s.frame.payload.ip, flow)
  }

  /** A passed check of the very ports (of ICMP, type and code), recent when the packet was sent. */
  ghost predicate PortsChecked(log: seq<Obs>, s: Sent, late: Time)
    requires s.frame.payload.Ip?
  {
    exists j :: 0 <= j < |log| && Passes(log[j]) && SameConnection(log[j].ip, s.frame.payload.ip) && Recent(s.time, log[j].u, late)
  }

  /** Everything the core sends between the hosts of the flow was checked with its own ports, in every run
      in which packets that hide the flow come to the controller only as the traffic says. */
  ghost predicate PortsAlwaysChecked(cfg: Config, flow: Flow, opens: bool, traffic: Traffic) {
    forall late: Time, steps: seq<Step>, nets: seq<Net>, i: nat, k: nat ::
      InRun(cfg, steps, nets, late, i) && OnlyThese(steps, Admitted(flow, opens, traffic)) && k < |nets[i].trace| && SentBetween(cfg, nets[i].trace[k], flow) ==>
        PortsChecked(nets[i].router.log, nets[i].trace[k], late)
  }

  lemma ParsedPacketsWereChecked(cfg: Config, steps: seq<Step>, nets: seq<Net>, late: Time, i: nat, k: nat, flow: Flow, opens: bool, traffic: Traffic)
    requires InRun(cfg, steps, nets, late, i) && OnlyThese(steps, Admitted(flow, opens, traffic)) && k < |nets[i].trace|
    requires SentBetween(cfg, nets[i].trace[k], flow) && IsFlow(flow) && !traffic(Unparsed)
    ensures PortsChecked(nets[i].router.log, nets[i].trace[k], late)
  {
    EveryCheckHasItsPacket(cfg, steps, nets, late, i);
    CoreSendsWhatWasJustChecked(cfg, steps, nets, late, i, k);
    var s, log := nets[i].trace[k], nets[i].router.log;
    var j :| 0 <= j < |log| && Passes(log[j]) && Covers(log[j].ip, s.frame.payload.ip) && Recent(s.time, log[j].u, late);
    CheckedWasAdmitted(steps, nets, i, j, flow, opens, traffic);
    assert SameConnection(log[j].ip, s.frame.payload.ip);
  }

  lemma CheckedWasAdmitted(steps: seq<Step>, nets: seq<Net>, i: nat, j: nat, flow: Flow, opens: bool, traffic: Traffic)
    requires i < |nets| == |steps| + 1 && EveryCheckMade(steps, nets, i) && OnlyThese(steps, Admitted(flow, opens, traffic)) && !traffic(Unparsed)
    requires j < |nets[i].router.log| && nets[i].router.log[j].Check? && SameHosts(nets[i].router.log[j].ip, flow)
    ensures nets[i].router.log[j].ip.parsed
  {
    var q :| q < i && MadeBy(nets, steps, q, nets[i].router.log[j]);
    assert ToController(steps[q]);
    AdmittedMeans(flow, opens, traffic, steps[q].frame.payload.ip);
  }

  /** The last packet sent between the hosts has ports that no check saw. */
  ghost predicate SentUnchecked(cfg: Config, n: Net, flow: Flow) {
    && n.trace != [] && SentBetween(cfg, n.trace[|n.trace| - 1], flow)
    && forall j :: 0 <= j < |n.router.log| && n.router.log[j].Check? ==> n.router.log[j].ip.tpSrc != n.trace[|n.trace| - 1].frame.payload.ip.tpSrc
  }

  /** An unparsed packet is seen and lets through whatever follows. */
  lemma WideRuleRoutes(cfg: Config, n: Net, n': Net, seen: IpPacket, port: Port, a: ZoneName, b: ZoneName)
    requires Quiet(cfg, n) && seen.dst in n.router.ipToLoc && b in cfg.gateways && seen.ttl > 0 && Seen(cfg, n, n', seen, port, a, b, 0.0)
    requires Allowed(cfg, seen, a, b)
    ensures var table, m := TableOf(n', cfg.maps.coreDpid), MatchOf(FrameOf(seen), port);
            m in table && table[m] == RuleFor(true, cfg.gateways[b], n.router.ipToLoc[seen.dst], 0.0)
    ensures forall j :: 0 <= j < |n'.router.log| ==> n'.router.log[j].Check? && n'.router.log[j].ip == seen
  {
  }

  lemma UnseenIsSent(cfg: Config, n: Net, n': Net, flow: Flow, seen: IpPacket, unseen: IpPacket, m: Match, gateway: Gateway, loc: Location)
    requires m in TableOf(n, cfg.maps.coreDpid) && TableOf(n, cfg.maps.coreDpid)[m] == RuleFor(true, gateway, loc, 0.0)
    requires Taken(cfg, n, n', unseen, m, 0.0) && unseen.ttl == 64 && SameHosts(unseen, flow) && !SameZone(cfg, flow.src, flow.dst)
    requires forall j :: 0 <= j < |n.router.log| ==> n.router.log[j].Check? && n.router.log[j].ip == seen
    requires unseen.tpSrc != seen.tpSrc
    ensures SentUnchecked(cfg, n', flow)
  {
    assert n'.trace == n.trace + [Sent(0.0, cfg.maps.coreDpid, To(loc.corePort), OneHopOn(unseen, gateway, loc), true)];
  }

  /** The two hosts are known, and an unparsed packet between them has been checked and let through. */
  lemma UnparsedRun(cfg: Config, comers: Comers, flow: Flow, seen: IpPacket, a: ZoneName, b: ZoneName, p: Port, q: Port)
    returns (steps: seq<Step>, nets: seq<Net>, gateway: Gateway, loc: Location)
    requires ConfigOk(cfg) && Between(cfg, flow, a, b, p, q) && MayStart(cfg, flow, a, b) && comers(seen)
    requires SameHosts(seen, flow) && seen.ttl == 64
    ensures Fair(cfg, steps, nets, comers) && Calm(cfg, nets[|steps|], 0.0)
    ensures var table, m := TableOf(nets[|steps|], cfg.maps.coreDpid), MatchOf(FrameOf(seen), p);
            m in table && table[m] == RuleFor(true, gateway, loc, 0.0)
    ensures forall j :: 0 <= j < |nets[|steps|].router.log| ==> nets[|steps|].router.log[j].Check? && nets[|steps|].router.log[j].ip == seen
  {
    var s0, n0 := Prologue(cfg, comers, flow.src, flow.dst, a, b, p, q);
    steps, nets := ThenSeen(cfg, s0, n0, comers, seen, p, a, b, 0.0, 0.0);
    WideRuleRoutes(cfg, n0[|s0|], nets[|steps|], seen, p, a, b);
    gateway, loc := cfg.gateways[b], n0[|s0|].router.ipToLoc[flow.dst];
  }

  /** The core sends a packet whose ports no check ever saw: an unparsed packet of its hosts was checked,
      and its rule takes along whatever follows. */
  lemma UncheckedPortsCanPass(cfg: Config, flow: Flow, opens: bool, traffic: Traffic, a: ZoneName, b: ZoneName, p: Port, q: Port)
    returns (steps: seq<Step>, nets: seq<Net>)
    requires ConfigOk(cfg) && Between(cfg, flow, a, b, p, q) && MayStart(cfg, flow, a, b) && traffic(Unparsed)
    ensures Fair(cfg, steps, nets, Admitted(flow, opens, traffic)) && SentUnchecked(cfg, nets[|steps|], flow)
  {
    var comers, seen := Admitted(flow, opens, traffic), HiderOf(flow, opens, Unparsed);
    var unseen, m := seen.(tpSrc := seen.tpSrc + 1), MatchOf(FrameOf(seen), p);
    AdmittedMeans(flow, opens, traffic, seen);
    var s0, n0, gateway, loc := UnparsedRun(cfg, comers, flow, seen, a, b, p, q);
    steps, nets := ThenTaken(cfg, s0, n0, comers, unseen, p, m, 0.0, 0.0);
    UnseenIsSent(cfg, n0[|s0|], nets[|steps|], flow, seen, unseen, m, gateway, loc);
  }

  /** Between hosts of zones that may talk, everything the core sends was checked with its own ports in
      every run, if and only if no unparsed packet between them may come to the controller. */
  lemma PortsCheckedIffParsed(cfg: Config, flow: Flow, opens: bool, traffic: Traffic, a: ZoneName, b: ZoneName, p: Port, q: Port)
    requires ConfigOk(cfg) && DaemonAgrees(cfg) && Between(cfg, flow, a, b, p, q) && MayStart(cfg, flow, a, b)
    ensures PortsAlwaysChecked(cfg, flow, opens, traffic) <==> !traffic(Unparsed)
  {
    if traffic(Unparsed) {
      var steps, nets := UncheckedPortsCanPass(cfg, flow, opens, traffic, a, b, p, q);
      var n := nets[|steps|];
      assert InRun(cfg, steps, nets, 0.0, |steps|) && |n.trace| - 1 < |n.trace|;
      assert !PortsChecked(n.router.log, n.trace[|n.trace| - 1], 0.0);
    } else {
      forall late: Time, steps: seq<Step>, nets: seq<Net>, i: nat, k: nat
        | InRun(cfg, steps, nets, late, i) && OnlyThese(steps, Admitted(flow, opens, traffic)) && k < |nets[i].trace| && SentBetween(cfg, nets[i].trace[k], flow)
        ensures PortsChecked(nets[i].router.log, nets[i].trace[k], late)
      {
        ParsedPacketsWereChecked(cfg, steps, nets, late, i, k, flow, opens, traffic);
      }
    }
  }
}
