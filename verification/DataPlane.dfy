/** The controller and its switches as one timed step machine: frames arrive at switch ports, rules
    forward them or the controller handles them, timers fire, sweeps run and time passes. */
module DataPlane {
  import opened Common
  import opened ConnTrack
  import opened OpenFlow
  import opened RouterModel
  import opened RouterInv
  import opened RouterSteps
  import opened RouterPacketIn

  /** A frame put on a port, by a rule or on the controller's order. */
  datatype Sent = Sent(time: Time, dpid: Dpid, out: OutPort, frame: Frame, byRule: bool)

  /** `down` holds every frame the core has ever put on the link to a leaf, with that leaf; `trace`
      every frame any switch has sent. */
  datatype Net = Net(router: Router, tables: map<Dpid, FlowTable>, now: Time, down: set<(Dpid, Frame)>, trace: seq<Sent>)

  function TableOf(n: Net, dpid: Dpid): FlowTable {
    if dpid in n.tables then n.tables[dpid] else map[]
  }

  const START := Net(RouterModel.INITIAL, map[], 0.0, {}, [])

  datatype Step =
    | ConnectionUp(dpid: Dpid)
    | Arrive(dpid: Dpid, port: Port, frame: Frame, complete: bool, via: Option<Match>, c: Readings)
    | TimerFires(id: TimerId)
    | SweepRuns(readings: map<Flow, Time>, u: Time)
    | Wait(until: Time)

  // --- What is possible ------------------------------------------------------------------------

  ghost predicate Hits(n: Net, dpid: Dpid, m: Match, f: Frame, port: Port) {
    m in TableOf(n, dpid) && Active(TableOf(n, dpid)[m], n.now) && Matches(m, f, port)
  }

  /** Any frame may arrive at any port at any time, except that a leaf's uplink carries only what
      the core has sent to that leaf. If rules match, one of them takes the frame; if none does, a
      connected switch hands it to the controller. No timer is ever served more than `late` seconds
      after it is due. */
  ghost predicate Enabled(cfg: Config, n: Net, s: Step, late: Time) {
    match s
    case ConnectionUp(_) => true
    case Arrive(dpid, port, f, _, via, c) =>
      && (IsLeafUplink(cfg, dpid, port) ==> (dpid, f) in n.down)
      && (match via
          case Some(m) => Hits(n, dpid, m, f, port)
          case None => dpid in n.router.connections && (forall m :: !Hits(n, dpid, m, f, port))
                       && n.now <= c.t <= c.s <= c.u && TimersServed(n.router.timers, c.u, late))
    case TimerFires(id) => id in n.router.timers && n.now >= n.router.timers[id].due
    case SweepRuns(readings, u) =>
      && n.now <= u && TimersServed(n.router.timers, u, late)
      && readings.Keys == n.router.conns.Keys && (forall f :: f in readings ==> n.now <= readings[f] <= u)
    case Wait(t) => n.now <= t && TimersServed(n.router.timers, t, late)
  }

  // --- What it does ----------------------------------------------------------------------------

  function Emit(cfg: Config, n: Net, dpid: Dpid, out: OutPort, f: Frame, byRule: bool): Net {
    var reached := set d | d in cfg.maps.leafCorePort && dpid == cfg.maps.coreDpid
                           && (out.Flood? || out.port == cfg.maps.leafCorePort[d]) :: (d, f);
    n.(trace := n.trace + [Sent(n.now, dpid, out, f, byRule)], down := n.down + reached)
  }

  function EmitAll(cfg: Config, n: Net, dpid: Dpid, outs: seq<(OutPort, Frame)>, byRule: bool): Net
    decreases outs
  {
    if outs == [] then n else EmitAll(cfg, Emit(cfg, n, dpid, outs[0].0, outs[0].1, byRule), dpid, outs[1..], byRule)
  }

  function Install(n: Net, dpid: Dpid, m: Match, rule: Rule): Net {
    n.(tables := n.tables[dpid := TableOf(n, dpid)[m := rule]])
  }

  /** A switch carries out one message. */
  function Obey(cfg: Config, n: Net, m: Msg): Net {
    match m
    case PacketOut(dpid, f, out) => Emit(cfg, n, dpid, out, f, false)
    case FlowMod(dpid, mt, idle, hard, actions, data) =>
      var installed := Install(n, dpid, mt, Rule(actions, idle, hard, n.now, n.now));
      if data.None? then installed else EmitAll(cfg, installed, dpid, Execute(actions, data.value), false)
  }

  function ObeyAll(cfg: Config, n: Net, msgs: seq<Msg>): Net
    decreases msgs
  {
    if msgs == [] then n else ObeyAll(cfg, Obey(cfg, n, msgs[0]), msgs[1..])
  }

  /** The controller has reached state `r` at time `u`; the switches carry out what it sent. */
  function Deliver(cfg: Config, n: Net, r: Router, u: Time): Net {
    ObeyAll(cfg, n.(router := r.(outbox := []), now := u), r.outbox)
  }

  function Apply(cfg: Config, n: Net, s: Step): Net
    requires ConfigOk(cfg) && Consistent(cfg, n.router)
    requires s.TimerFires? ==> s.id in n.router.timers
    requires s.Arrive? && s.via.Some? ==> s.via.value in TableOf(n, s.dpid)
  {
    match s
    case ConnectionUp(dpid) => n.(router := HandleConnectionUp(n.router, dpid))
    case Arrive(dpid, port, f, complete, via, c) => (
      match via
      case Some(m) =>
        var rule := TableOf(n, dpid)[m];
        EmitAll(cfg, Install(n, dpid, m, rule.(lastHit := n.now)), dpid, Execute(rule.actions, f), true)
      case None => Deliver(cfg, n, HandlePacketIn(cfg, n.router, PacketIn(dpid, port, f, complete), c), c.u))
    case TimerFires(id) => Deliver(cfg, n, RetryArp(cfg, n.router, id, n.now), n.now)
    case SweepRuns(readings, u) => n.(router := HandleSweep(n.router, readings, n.now, u), now := u)
    case Wait(t) => n.(now := t)
  }

  ghost predicate Consistent(cfg: Config, r: Router) {
    forall ip :: ip in r.pending ==> r.pending[ip].zone in cfg.gateways
  }

  // --- Invariant -------------------------------------------------------------------------------

  ghost predicate TablesOk(cfg: Config, log: seq<Obs>, tables: map<Dpid, FlowTable>) {
    forall d, m :: d in tables && m in tables[d] ==>
      RuleOk(cfg, log, tables[d][m].installed, d, m, tables[d][m].hard, tables[d][m].actions)
  }

  ghost predicate DownOk(cfg: Config, log: seq<Obs>, down: set<(Dpid, Frame)>) {
    forall x :: x in down ==> TransitOk(cfg, log, x.1)
  }

  ghost predicate TraceOk(cfg: Config, log: seq<Obs>, trace: seq<Sent>, late: Time) {
    forall i :: 0 <= i < |trace| ==> FrameOk(cfg, log, trace[i].time, trace[i].dpid, trace[i].frame, trace[i].out, late)
  }

  /** What the switches hold, carry and have sent is in order. */
  ghost predicate SwitchesOk(cfg: Config, n: Net, late: Time) {
    var log := n.router.log;
    TablesOk(cfg, log, n.tables) && DownOk(cfg, log, n.down) && TraceOk(cfg, log, n.trace, late)
  }

  ghost predicate Inv(cfg: Config, n: Net, late: Time) {
    RouterOk(cfg, n.router, n.now, late) && n.router.outbox == [] && SwitchesOk(cfg, n, late)
  }

  lemma EmitIsOk(cfg: Config, n: Net, dpid: Dpid, out: OutPort, f: Frame, byRule: bool, late: Time)
    requires SwitchesOk(cfg, n, late) && FrameOk(cfg, n.router.log, n.now, dpid, f, out, late)
    ensures SwitchesOk(cfg, Emit(cfg, n, dpid, out, f, byRule), late)
  {
  }

  lemma {:induction false} EmitAllIsOk(cfg: Config, n: Net, dpid: Dpid, outs: seq<(OutPort, Frame)>, byRule: bool, late: Time)
    requires SwitchesOk(cfg, n, late)
    requires forall i :: 0 <= i < |outs| ==> FrameOk(cfg, n.router.log, n.now, dpid, outs[i].1, outs[i].0, late)
    ensures var n' := EmitAll(cfg, n, dpid, outs, byRule);
            SwitchesOk(cfg, n', late) && n'.router == n.router && n'.now == n.now
    decreases outs
  {
    if outs != [] {
      EmitIsOk(cfg, n, dpid, outs[0].0, outs[0].1, byRule, late);
      EmitAllIsOk(cfg, Emit(cfg, n, dpid, outs[0].0, outs[0].1, byRule), dpid, outs[1..], byRule, late);
    }
  }

  /** Executing actions on a frame that may cross the network within its zone, or already vouched
      for, keeps it so. */
  lemma ExecutedFramesAreOk(cfg: Config, log: seq<Obs>, now: Time, dpid: Dpid, f: Frame, actions: seq<Action>, i: nat, late: Time)
    requires i < |Execute(actions, f)| && TransitOk(cfg, log, f)
    requires dpid == cfg.maps.coreDpid && f.payload.Ip? ==> SameZone(cfg, f.payload.ip.src, f.payload.ip.dst)
    ensures FrameOk(cfg, log, now, dpid, Execute(actions, f)[i].1, Execute(actions, f)[i].0, late)
  {
    ExecutionKeepsTheConnection(actions, f, i);
  }

  lemma ObeyIsOk(cfg: Config, n: Net, m: Msg, late: Time)
    requires SwitchesOk(cfg, n, late) && MsgOk(cfg, n.router.log, n.now, m, late)
    ensures var n' := Obey(cfg, n, m);
            SwitchesOk(cfg, n', late) && n'.router == n.router && n'.now == n.now
  {
    if m.PacketOut? {
      EmitIsOk(cfg, n, m.dpid, m.out, m.frame, false, late);
    } else {
      var installed := Install(n, m.dpid, m.m, Rule(m.actions, m.idle, m.hard, n.now, n.now));
      if m.data.Some? {
        forall i | 0 <= i < |Execute(m.actions, m.data.value)|
          ensures FrameOk(cfg, n.router.log, n.now, m.dpid, Execute(m.actions, m.data.value)[i].1, Execute(m.actions, m.data.value)[i].0, late)
        {
          ExecutedFramesAreOk(cfg, n.router.log, n.now, m.dpid, m.data.value, m.actions, i, late);
        }
        EmitAllIsOk(cfg, installed, m.dpid, Execute(m.actions, m.data.value), false, late);
      }
    }
  }

  lemma {:induction false} ObeyAllIsOk(cfg: Config, n: Net, msgs: seq<Msg>, late: Time)
    requires SwitchesOk(cfg, n, late) && OutboxOk(cfg, n.router.log, n.now, msgs, late)
    ensures var n' := ObeyAll(cfg, n, msgs);
            SwitchesOk(cfg, n', late) && n'.router == n.router && n'.now == n.now
    decreases msgs
  {
    if msgs != [] {
      ObeyIsOk(cfg, n, msgs[0], late);
      ObeyAllIsOk(cfg, Obey(cfg, n, msgs[0]), msgs[1..], late);
    }
  }

  lemma DeliverKeepsInv(cfg: Config, n: Net, r: Router, u: Time, late: Time)
    requires SwitchesOk(cfg, n, late) && Handled(cfg, n.router, r, u, late)
    ensures Inv(cfg, Deliver(cfg, n, r, u), late)
  {
    var quiet := r.(outbox := []);
    SendingKeepsOk(cfg, r, quiet, u, late);
    ObeyAllIsOk(cfg, n.(router := quiet, now := u), r.outbox, late);
  }

  // --- Rules -----------------------------------------------------------------------------------

  /** The check that vouches for a rule vouches for every frame the rule matches. */
  lemma RuleVouchesForItsFrames(log: seq<Obs>, m: Match, at: Time, f: Frame, port: Port, now: Time, late: Time)
    requires MatchVouched(log, m, at) && Matches(m, f, port) && f.payload.Ip?
    ensures Vouched(log, f.payload.ip)
    ensures Recent(now, at, late) ==> VouchedRecently(log, f.payload.ip, now, late)
  {
  }

  lemma RuledFrameIsOk(cfg: Config, log: seq<Obs>, now: Time, m: Match, rule: Rule, f: Frame, port: Port, i: nat, late: Time)
    requires MatchVouched(log, m, rule.installed) && Matches(m, f, port) && f.payload.Ip? && Active(rule, now)
    requires rule.hard <= ROUTED_FLOW_HARD_TIMEOUT && m.nw.Some? && RoutesTo(cfg, m, rule.actions, m.nw.value.1)
    requires i < |Execute(rule.actions, f)|
    ensures FrameOk(cfg, log, now, cfg.maps.coreDpid, Execute(rule.actions, f)[i].1, Execute(rule.actions, f)[i].0, late)
  {
    RuleVouchesForItsFrames(log, m, rule.installed, f, port, now, late);
    var gw, mac, out := cfg.gateways[cfg.zoneOf(m.nw.value.1).value].mac, rule.actions[1].mac, rule.actions[3].out.port;
    RouteActionsRoute(gw, mac, out, f);
    var g := Execute(rule.actions, f)[i].1;
    var o :| o in log && Passes(o) && Covers(o.ip, f.payload.ip) && Recent(now, o.u, late);
    assert Covers(o.ip, g.payload.ip);
  }

  /** Whatever an active rule sends is in order. */
  lemma RuleHitIsOk(cfg: Config, n: Net, dpid: Dpid, m: Match, f: Frame, port: Port, i: nat, late: Time)
    requires MapsOk(cfg.maps) && SwitchesOk(cfg, n, late) && Hits(n, dpid, m, f, port)
    requires IsLeafUplink(cfg, dpid, port) ==> (dpid, f) in n.down
    requires i < |Execute(TableOf(n, dpid)[m].actions, f)|
    ensures var sent := Execute(TableOf(n, dpid)[m].actions, f)[i];
            FrameOk(cfg, n.router.log, n.now, dpid, sent.1, sent.0, late)
  {
    var log, rule := n.router.log, TableOf(n, dpid)[m];
    assert RuleOk(cfg, log, rule.installed, dpid, m, rule.hard, rule.actions);
    if IsLeafUplink(cfg, dpid, port) {
      assert dpid in cfg.maps.switchZone.Keys;
      assert TransitOk(cfg, log, (dpid, f).1);
      ExecutedFramesAreOk(cfg, log, n.now, dpid, f, rule.actions, i, late);
    } else if !f.payload.Ip? || SameZone(cfg, f.payload.ip.src, f.payload.ip.dst) {
      ExecutedFramesAreOk(cfg, log, n.now, dpid, f, rule.actions, i, late);
    } else {
      RuleVouchesForItsFrames(log, m, rule.installed, f, port, n.now, late);
      if dpid == cfg.maps.coreDpid {
        RuledFrameIsOk(cfg, log, n.now, m, rule, f, port, i, late);
      } else {
        ExecutedFramesAreOk(cfg, log, n.now, dpid, f, rule.actions, i, late);
      }
    }
  }

  lemma RuleStepKeepsInv(cfg: Config, n: Net, s: Step, late: Time)
    requires ConfigOk(cfg) && Inv(cfg, n, late) && Consistent(cfg, n.router) && Enabled(cfg, n, s, late)
    requires s.Arrive? && s.via.Some?
    ensures Inv(cfg, Apply(cfg, n, s), late)
  {
    var m := s.via.value;
    var rule := TableOf(n, s.dpid)[m];
    var hit := Install(n, s.dpid, m, rule.(lastHit := n.now));
    assert RuleOk(cfg, n.router.log, rule.installed, s.dpid, m, rule.hard, rule.actions);
    assert SwitchesOk(cfg, hit, late);
    var outs := Execute(rule.actions, s.frame);
    forall i | 0 <= i < |outs| ensures FrameOk(cfg, n.router.log, n.now, s.dpid, outs[i].1, outs[i].0, late) {
      RuleHitIsOk(cfg, n, s.dpid, m, s.frame, s.port, i, late);
    }
    EmitAllIsOk(cfg, hit, s.dpid, outs, true, late);
  }

  // --- Runs ------------------------------------------------------------------------------------

  lemma SweepKeepsRouterOk(cfg: Config, r: Router, readings: map<Flow, Time>, now: Time, u: Time, late: Time)
    requires RouterOk(cfg, r, now, late) && now <= u && TimersServed(r.timers, u, late)
    requires forall f :: f in readings ==> now <= readings[f] <= u
    ensures RouterOk(cfg, HandleSweep(r, readings, now, u), u, late)
  {
    var o := Sweep(readings, now, u);
    var r' := HandleSweep(r, readings, now, u);
    LogGrows(cfg, r.log, r.conns, now, o);
    PendingLater(cfg, r, now, u, late);
    PendingWithLongerLog(cfg, r, [o], u, late);
    SweepKeepsQueues(r, r');
  }

  lemma SweepKeepsQueues(r: Router, r': Router)
    requires RoundsOk(r) && Conserved(r) && r' == r.(conns := r'.conns, log := r'.log)
    ensures RoundsOk(r') && Conserved(r')
  {
    forall ip ensures History(r'.queued, ip) == JobsOf(History(r'.released, ip)) + QueueOf(r'.pending, ip) {
      assert History(r.queued, ip) == JobsOf(History(r.released, ip)) + QueueOf(r.pending, ip);
    }
  }

  lemma SwitchesWithLongerLog(cfg: Config, n: Net, n': Net, o: Obs, late: Time)
    requires SwitchesOk(cfg, n, late) && n' == n.(router := n'.router, now := n'.now) && n'.router.log == n.router.log + [o]
    ensures SwitchesOk(cfg, n', late)
  {
  }

  lemma SweepKeepsInv(cfg: Config, n: Net, readings: map<Flow, Time>, u: Time, late: Time)
    requires ConfigOk(cfg) && Inv(cfg, n, late) && Consistent(cfg, n.router) && Enabled(cfg, n, SweepRuns(readings, u), late)
    ensures Inv(cfg, Apply(cfg, n, SweepRuns(readings, u)), late)
  {
    SweepKeepsRouterOk(cfg, n.router, readings, n.now, u, late);
    SwitchesWithLongerLog(cfg, n, Apply(cfg, n, SweepRuns(readings, u)), Sweep(readings, n.now, u), late);
  }

  /** Every step keeps the invariant. */
  lemma StepKeepsInv(cfg: Config, n: Net, s: Step, late: Time)
    requires ConfigOk(cfg) && DaemonAgrees(cfg) && 0.0 <= late
    requires Inv(cfg, n, late) && Consistent(cfg, n.router) && Enabled(cfg, n, s, late)
    ensures Inv(cfg, Apply(cfg, n, s), late)
  {
    match s {
      case ConnectionUp(dpid) =>
        SendingKeepsOk(cfg, n.router, HandleConnectionUp(n.router, dpid), n.now, late);
      case Arrive(dpid, port, f, complete, via, c) =>
        if via.Some? {
          RuleStepKeepsInv(cfg, n, s, late);
        } else {
          var e := PacketIn(dpid, port, f, complete);
          var r' := HandlePacketIn(cfg, n.router, e, c);
          assert IsLeafUplink(cfg, dpid, port) ==> TransitOk(cfg, n.router.log, (dpid, f).1);
          PacketInIsHandled(cfg, n.router, r', e, c, n.now, late);
          DeliverKeepsInv(cfg, n, r', c.u, late);
        }
      case TimerFires(id) =>
        var r' := RetryArp(cfg, n.router, id, n.now);
        TickKeepsOk(cfg, n.router, r', id, n.now, late);
        DeliverKeepsInv(cfg, n, r', n.now, late);
      case SweepRuns(readings, u) => SweepKeepsInv(cfg, n, readings, u, late);
      case Wait(t) =>
        RouterLater(cfg, n.router, n.now, t, late);
    }
  }

  ghost predicate Follows(cfg: Config, n: Net, s: Step, n': Net, late: Time)
    requires ConfigOk(cfg)
  {
    Consistent(cfg, n.router) && Enabled(cfg, n, s, late) && n' == Apply(cfg, n, s)
  }

  /** A run: every step is possible in the state it is taken in. */
  ghost predicate IsRun(cfg: Config, steps: seq<Step>, nets: seq<Net>, late: Time)
    requires ConfigOk(cfg)
  {
    && |nets| == |steps| + 1 && nets[0] == START
    && forall i :: 0 <= i < |steps| ==> Follows(cfg, nets[i], steps[i], nets[i + 1], late)
  }

  lemma RunGrows(cfg: Config, steps: seq<Step>, nets: seq<Net>, s: Step, n: Net, late: Time)
    requires ConfigOk(cfg) && IsRun(cfg, steps, nets, late) && Follows(cfg, nets[|steps|], s, n, late)
    ensures IsRun(cfg, steps + [s], nets + [n], late)
  {
  }

  lemma StartIsOk(cfg: Config, late: Time)
    ensures Inv(cfg, START, late)
  {
  }

  lemma InvIsConsistent(cfg: Config, n: Net, late: Time)
    requires ConfigOk(cfg) && Inv(cfg, n, late)
    ensures Consistent(cfg, n.router)
  {
    forall ip | ip in n.router.pending ensures n.router.pending[ip].zone in cfg.gateways {
      assert EntryOk(cfg, n.router.log, ip, n.router.pending[ip], n.router.timers, n.now, late);
    }
  }

  lemma FollowingKeepsInv(cfg: Config, n: Net, s: Step, n': Net, late: Time)
    requires ConfigOk(cfg) && DaemonAgrees(cfg) && 0.0 <= late && Inv(cfg, n, late) && Follows(cfg, n, s, n', late)
    ensures Inv(cfg, n', late)
  {
    StepKeepsInv(cfg, n, s, late);
  }

  /** The invariant holds in every state of every run, and with it Consistent, so that clause of
      Follows excludes nothing. */
  lemma {:induction false} RunKeepsInv(cfg: Config, steps: seq<Step>, nets: seq<Net>, late: Time, i: nat)
    requires ConfigOk(cfg) && DaemonAgrees(cfg) && 0.0 <= late && IsRun(cfg, steps, nets, late) && i < |nets|
    ensures Inv(cfg, nets[i], late) && Consistent(cfg, nets[i].router)
  {
    if i == 0 {
      StartIsOk(cfg, late);
    } else {
      RunKeepsInv(cfg, steps, nets, late, i - 1);
      FollowingKeepsInv(cfg, nets[i - 1], steps[i - 1], nets[i], late);
    }
    InvIsConsistent(cfg, nets[i], late);
  }
}
