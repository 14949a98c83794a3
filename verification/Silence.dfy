/** The other half of the contract between rule timeouts and connection tracking: a connection on which
    both sides have been silent for the idle timeout is closed, in the table and in the switches. */
module Silence {
  import opened Common
  import opened Policy
  import opened ConnTrack
  import opened ConnHistory
  import opened OpenFlow
  import opened RouterModel
  import opened RouterInv
  import opened RouterEffects
  import opened DataPlane
  import opened Isolation
  import opened Floods
  import opened RunLog
  import opened KeepAlive

  /** No packet of the connection that is tracked, in either direction, was handled after `since`. */
  ghost predicate SilentSince(steps: seq<DataPlane.Step>, nets: seq<Net>, i: nat, flow: Flow, since: Time)
    requires i < |nets| == |steps| + 1
  {
    forall q :: 0 <= q < i && steps[q].Arrive? && steps[q].frame.payload.Ip? && TrackedOf(steps[q].frame.payload.ip).Some?
                && (FlowOf(steps[q].frame.payload.ip) == flow || FlowOf(steps[q].frame.payload.ip) == flow.Reversed())
      ==> nets[q + 1].now <= since
  }

  // --- The table -------------------------------------------------------------------------------

  lemma SilentEvents(cfg: Config, steps: seq<DataPlane.Step>, nets: seq<Net>, late: Time, i: nat, ip: IpPacket, t: Time, j: nat)
    requires InRun(cfg, steps, nets, late, i) && EveryCheckMade(steps, nets, i) && CanBe(ip, false)
    requires SilentSince(steps, nets, i, FlowOf(ip), t - IDLE_TIMEOUT)
    requires LogOk(cfg, nets[i].router.log, nets[i].router.conns, nets[i].now) && j < |nets[i].router.log|
    ensures var e := EventOf(nets[i].router.log[j]);
            OpensIt(e, FlowOf(ip).Reversed()) || AnswersIt(e, FlowOf(ip).Reversed()) ==> t - Stamp(e) >= IDLE_TIMEOUT
  {
    var o := nets[i].router.log[j];
    var e := EventOf(o);
    if OpensIt(e, FlowOf(ip).Reversed()) || AnswersIt(e, FlowOf(ip).Reversed()) {
      var q :| q < i && MadeBy(nets, steps, q, o);
      StepOfRun(cfg, steps, nets, late, q);
      assert EventsOf(nets[i].router.log)[j] == e;
    }
  }

  /** After silence of the idle timeout, the table refuses a reply the policy blocks. */
  lemma SilentRepliesAreRefused(cfg: Config, steps: seq<DataPlane.Step>, nets: seq<Net>, late: Time, i: nat, ip: IpPacket, t: Time)
    requires InRun(cfg, steps, nets, late, i) && CanBe(ip, false) && nets[i].now <= t
    requires SilentSince(steps, nets, i, FlowOf(ip), t - IDLE_TIMEOUT)
    ensures VerdictOf(nets[i].router.conns, IDLE_TIMEOUT, false, TrackedOf(ip), t) == Drop
  {
    RecordsAreOk(cfg, steps, nets, late, i);
    EveryCheckHasItsPacket(cfg, steps, nets, late, i);
    var log := nets[i].router.log;
    forall j | 0 <= j < |EventsOf(log)| && (OpensIt(EventsOf(log)[j], FlowOf(ip).Reversed()) || AnswersIt(EventsOf(log)[j], FlowOf(ip).Reversed()))
      ensures t - Stamp(EventsOf(log)[j]) >= IDLE_TIMEOUT
    {
      SilentEvents(cfg, steps, nets, late, i, ip, t, j);
    }
    SilenceEndsTheConnection(EventsOf(log), IDLE_TIMEOUT, TrackedOf(ip).value, t);
  }

  // --- The switches ----------------------------------------------------------------------------

  /** A packet the policy blocks, but that could be a reply, enters the network, honest or not. */
  predicate BlockedArrival(cfg: Config, s: DataPlane.Step) {
    && s.Arrive? && !IsLeafUplink(cfg, s.dpid, s.port) && s.frame.payload.Ip? && CanBe(s.frame.payload.ip, false)
    && !SameZone(cfg, s.frame.payload.ip.src, s.frame.payload.ip.dst)
    && !PolicyAllows(cfg, s.frame.payload.ip.src, s.frame.payload.ip.dst, s.frame.payload.ip.proto)
  }

  /** No reply of another ping between the same hosts comes to the controller. */
  ghost predicate NoOtherReplies(steps: seq<DataPlane.Step>, flow: Flow) {
    forall q :: 0 <= q < |steps| && ToController(steps[q]) ==> !IsOtherEcho(steps[q].frame.payload.ip, flow, false)
  }

  /** Only a check of the packet's own flow lets a blocked packet through: a check without ports to track
      passes only if the policy allows the packet. */
  lemma BlockedPassesWereParsed(cfg: Config, log: seq<Obs>, conns: Table, now: Time, j: nat, m: Match, f: Frame, port: Port)
    requires LogOk(cfg, log, conns, now) && j < |log| && log[j].Check? && CoversMatch(log[j].ip, m) && Matches(m, f, port)
    requires f.payload.Ip? && CanBe(f.payload.ip, false) && !PolicyAllows(cfg, f.payload.ip.src, f.payload.ip.dst, f.payload.ip.proto)
    ensures Passes(log[j]) ==> CheckOf(log, j, FlowOf(f.payload.ip), false) || IsOtherEcho(log[j].ip, FlowOf(f.payload.ip), false)
  {
  }

  lemma CheckedPacketsCame(steps: seq<DataPlane.Step>, nets: seq<Net>, k: nat, flow: Flow, j: nat)
    requires k < |nets| == |steps| + 1 && EveryCheckMade(steps, nets, k) && NoOtherReplies(steps, flow)
    requires j < |nets[k].router.log| && nets[k].router.log[j].Check?
    ensures !IsOtherEcho(nets[k].router.log[j].ip, flow, false)
  {
    var q :| q < k && MadeBy(nets, steps, q, nets[k].router.log[j]);
    assert ToController(steps[q]);
  }

  /** After the silence no rule carries the packet on: its flow was last checked too long ago. */
  lemma SilentRulesDrop(cfg: Config, steps: seq<DataPlane.Step>, nets: seq<Net>, late: Time, k: nat)
    requires InRun(cfg, steps, nets, late, k) && k < |steps| && BlockedArrival(cfg, steps[k]) && steps[k].via.Some?
    requires NoOtherReplies(steps, FlowOf(steps[k].frame.payload.ip))
    requires SilentSince(steps, nets, k, FlowOf(steps[k].frame.payload.ip), nets[k].now - IDLE_TIMEOUT)
    ensures steps[k].via.value in TableOf(nets[k], steps[k].dpid) && TableOf(nets[k], steps[k].dpid)[steps[k].via.value].actions == []
  {
    var n, s, flow := nets[k], steps[k], FlowOf(steps[k].frame.payload.ip);
    RunKeepsInv(cfg, steps, nets, late, k);
    assert Follows(cfg, n, s, nets[k + 1], late);
    var j := RuleHasItsCheck(cfg, n, s, late);
    BlockedPassesWereParsed(cfg, n.router.log, n.router.conns, n.now, j, s.via.value, s.frame, s.port);
    EveryCheckHasItsPacket(cfg, steps, nets, late, k);
    CheckedPacketsCame(steps, nets, k, flow, j);
    SilentChecksAreOld(steps, nets, k, flow, n.now - IDLE_TIMEOUT);
  }

  lemma SilentChecksAreOld(steps: seq<DataPlane.Step>, nets: seq<Net>, k: nat, flow: Flow, since: Time)
    requires k < |nets| == |steps| + 1 && EveryCheckMade(steps, nets, k) && SilentSince(steps, nets, k, flow, since)
    ensures forall j :: 0 <= j < |nets[k].router.log| && CheckOf(nets[k].router.log, j, flow, false) ==> nets[k].router.log[j].u <= since
  {
  }

  // --- The controller --------------------------------------------------------------------------

  /** At most a rule, and nothing to send along. */
  ghost predicate SendsNoFrame(msgs: seq<Msg>) {
    msgs == [] || (|msgs| == 1 && msgs[0].FlowMod? && msgs[0].data == None)
  }

  lemma RefusedPacketSendsNothing(cfg: Config, r: Router, e: PacketIn, src: ZoneName, c: Readings)
    requires ConfigOk(cfg) && DaemonAgrees(cfg) && e.frame.payload.Ip? && ZoneOfPort(cfg, e.dpid, e.port) == Some(src) && r.outbox == []
    requires SourceValid(cfg, e.frame.payload.ip.src, src) && !SameZone(cfg, e.frame.payload.ip.src, e.frame.payload.ip.dst)
    requires !PolicyAllows(cfg, e.frame.payload.ip.src, e.frame.payload.ip.dst, e.frame.payload.ip.proto)
    requires VerdictOf(r.conns, IDLE_TIMEOUT, false, TrackedOf(e.frame.payload.ip), c.t) == Drop
    ensures SendsNoFrame(HandleHonestIp(cfg, r, e, src, c).outbox)
  {
  }

  lemma RefusedPacketInSendsNothing(cfg: Config, r: Router, s: DataPlane.Step)
    requires ConfigOk(cfg) && DaemonAgrees(cfg) && Consistent(cfg, r) && r.outbox == [] && BlockedArrival(cfg, s)
    requires VerdictOf(r.conns, IDLE_TIMEOUT, false, TrackedOf(s.frame.payload.ip), s.c.t) == Drop
    ensures SendsNoFrame(HandlePacketIn(cfg, r, EventOfStep(s), s.c).outbox)
  {
    var e := EventOfStep(s);
    var ip, src := e.frame.payload.ip, ZoneOfPort(cfg, e.dpid, e.port);
    if s.complete && src.Some? && SourceValid(cfg, ip.src, src.value) {
      LearningChecksNothing(cfg, r, e, ip.src, e.frame.src, src.value);
      var learned := Learn(cfg, r, e.dpid, e.port, ip.src, e.frame.src, src.value);
      assert HandlePacketIn(cfg, r, e, s.c) == HandleHonestIp(cfg, learned, e, src.value, s.c);
      RefusedPacketSendsNothing(cfg, learned, e, src.value, s.c);
    }
  }

  lemma NoFrameNoTrace(cfg: Config, n: Net, msgs: seq<Msg>)
    requires SendsNoFrame(msgs)
    ensures ObeyAll(cfg, n, msgs).trace == n.trace
  {
  }

  // --- The network -----------------------------------------------------------------------------

  /** If neither side has sent for the idle timeout, the next packet the policy blocks goes nowhere,
      whether a rule takes it or the controller: the step adds nothing to what the switches have sent.
      An echo reply can still go along with those of another ping, so there must be none of these. */
  lemma SilentConnectionsAreClosed(cfg: Config, steps: seq<DataPlane.Step>, nets: seq<Net>, late: Time, k: nat)
    requires InRun(cfg, steps, nets, late, k) && k < |steps| && BlockedArrival(cfg, steps[k])
    requires NoOtherReplies(steps, FlowOf(steps[k].frame.payload.ip))
    requires SilentSince(steps, nets, k, FlowOf(steps[k].frame.payload.ip), nets[k].now - IDLE_TIMEOUT)
    ensures nets[k + 1].trace == nets[k].trace
  {
    var n, s := nets[k], steps[k];
    StepOfRun(cfg, steps, nets, late, k);
    if s.via.Some? {
      SilentRulesDrop(cfg, steps, nets, late, k);
      assert Execute([], s.frame) == [];
    } else {
      SilentRepliesAreRefused(cfg, steps, nets, late, k, s.frame.payload.ip, s.c.t);
      RefusedPacketInSendsNothing(cfg, n.router, s);
      var r' := HandlePacketIn(cfg, n.router, EventOfStep(s), s.c);
      NoFrameNoTrace(cfg, n.(router := r'.(outbox := []), now := s.c.u), r'.outbox);
    }
  }
}
