/** What the switches make of the messages a handler sends: which frames go out, where, and which rules
    are installed. */
module Messages {
  import opened Common
  import opened Policy
  import opened ConnTrack
  import opened OpenFlow
  import opened RouterModel
  import opened RouterEffects
  import opened DataPlane
  import opened Floods
  import opened RunLog

  // --- Packets ---------------------------------------------------------------------------------

  /** The frames of packet-outs, as they leave at `now`. */
  function Leaving(msgs: seq<Msg>, now: Time): seq<Sent>
    requires PacketsOnly(msgs)
  {
    seq(|msgs|, i requires 0 <= i < |msgs| => Sent(now, msgs[i].dpid, msgs[i].out, msgs[i].frame, false))
  }

  lemma {:induction false} PacketsLeaveInOrder(cfg: Config, n: Net, msgs: seq<Msg>)
    requires PacketsOnly(msgs)
    ensures ObeyAll(cfg, n, msgs).trace == n.trace + Leaving(msgs, n.now) && ObeyAll(cfg, n, msgs).tables == n.tables
    decreases msgs
  {
    if msgs != [] {
      PacketsLeaveInOrder(cfg, Obey(cfg, n, msgs[0]), msgs[1..]);
      assert Leaving(msgs, n.now) == [Leaving(msgs, n.now)[0]] + Leaving(msgs[1..], n.now);
    }
  }

  lemma PacketsAreSent(cfg: Config, n: Net, r: Router, u: Time, msgs: seq<Msg>)
    requires r.outbox == msgs && PacketsOnly(msgs)
    ensures var n' := Deliver(cfg, n, r, u);
            n'.router == r.(outbox := []) && n'.now == u && n'.tables == n.tables && n'.trace == n.trace + Leaving(msgs, u)
  {
    PacketsLeaveInOrder(cfg, n.(router := r.(outbox := []), now := u), msgs);
    DeliveryKeepsRouter(cfg, n, r, u);
  }

  /** Delivering packets only changes no rule. */
  lemma OnlySendingKeepsTables(cfg: Config, n: Net, r: Router, r': Router, u: Time)
    requires OnlySends(r, r') && r.outbox == []
    ensures var n' := Deliver(cfg, n, r', u); n'.tables == n.tables && n'.router == r'.(outbox := []) && n'.now == u
  {
    var sent :| r'.outbox == r.outbox + sent && PacketsOnly(sent);
    assert r'.outbox == sent;
    PacketsAreSent(cfg, n, r', u, sent);
  }

  // --- Rules -----------------------------------------------------------------------------------

  /** A rule with one output, and the frame it takes along. */
  lemma RuleTakesItsFrame(cfg: Config, n: Net, dpid: Dpid, m: Match, idle: Time, hard: Time, out: OutPort, f: Frame)
    ensures var n' := Obey(cfg, n, FlowMod(dpid, m, idle, hard, [Output(out)], Some(f)));
            && n'.tables == n.tables[dpid := TableOf(n, dpid)[m := Rule([Output(out)], idle, hard, n.now, n.now)]]
            && n'.trace == n.trace + [Sent(n.now, dpid, out, f, false)]
  {
    OutputSends(out, f);
    var outs, installed := Execute([Output(out)], f), Install(n, dpid, m, Rule([Output(out)], idle, hard, n.now, n.now));
    assert outs[1..] == [];
    assert EmitAll(cfg, installed, dpid, outs, false) == EmitAll(cfg, Emit(cfg, installed, dpid, outs[0].0, outs[0].1, false), dpid, [], false);
  }

  lemma OneMessageIsObeyed(cfg: Config, n: Net, r: Router, u: Time, m: Msg)
    requires r.outbox == [m]
    ensures Deliver(cfg, n, r, u) == Obey(cfg, n.(router := r.(outbox := []), now := u), m)
  {
    var quiet := n.(router := r.(outbox := []), now := u);
    assert [m][1..] == [];
    assert ObeyAll(cfg, quiet, [m]) == ObeyAll(cfg, Obey(cfg, quiet, m), []);
  }

  // --- One frame per port of a zone ------------------------------------------------------------

  predicate OnPort(cfg: Config, zone: ZoneName, except: Option<Port>, port: Port) {
    Get(cfg.maps.corePortZones, port) == Some(zone) && except != Some(port)
  }

  /** The frame leaves the core exactly once through every port of the zone, but for one port if it is
      excepted, and through no other. */
  ghost predicate OncePerPort(cfg: Config, sent: seq<Sent>, time: Time, f: Frame, zone: ZoneName, except: Option<Port>) {
    && (forall i :: 0 <= i < |sent| ==> sent[i].out.To? && OnPort(cfg, zone, except, sent[i].out.port)
                                        && sent[i] == Sent(time, cfg.maps.coreDpid, sent[i].out, f, false))
    && (forall i, j :: 0 <= i < j < |sent| ==> sent[i].out != sent[j].out)
    && (forall port :: OnPort(cfg, zone, except, port) ==> exists i :: 0 <= i < |sent| && sent[i].out == To(port))
  }

  /** One message for each port but the excepted one, in order. */
  ghost predicate OneEach(msgs: seq<Msg>, dpid: Dpid, f: Frame, ports: seq<Port>, except: Option<Port>) {
    && (forall i :: 0 <= i < |msgs| ==> msgs[i].PacketOut? && msgs[i].out.To? && msgs[i].out.port in ports && except != Some(msgs[i].out.port)
                                        && msgs[i] == PacketOut(dpid, f, msgs[i].out))
    && (forall i, j :: 0 <= i < j < |msgs| ==> msgs[i].out != msgs[j].out)
    && (forall k :: 0 <= k < |ports| && except != Some(ports[k]) ==> exists i :: 0 <= i < |msgs| && msgs[i].out == To(ports[k]))
  }

  lemma {:induction false} OutAllIsOneEach(dpid: Dpid, f: Frame, ports: seq<Port>, except: Option<Port>)
    requires forall i, j :: 0 <= i < j < |ports| ==> ports[i] != ports[j]
    ensures OneEach(OutAll(dpid, f, ports, except), dpid, f, ports, except)
  {
    if ports != [] {
      OutAllIsOneEach(dpid, f, ports[1..], except);
      OneMorePort(dpid, f, ports, except, OutAll(dpid, f, ports[1..], except));
    }
  }

  lemma OneMorePort(dpid: Dpid, f: Frame, ports: seq<Port>, except: Option<Port>, rest: seq<Msg>)
    requires ports != [] && (forall i, j :: 0 <= i < j < |ports| ==> ports[i] != ports[j]) && OneEach(rest, dpid, f, ports[1..], except)
    ensures OneEach((if except == Some(ports[0]) then [] else [PacketOut(dpid, f, To(ports[0]))]) + rest, dpid, f, ports, except)
  {
    var msgs := (if except == Some(ports[0]) then [] else [PacketOut(dpid, f, To(ports[0]))]) + rest;
    forall k | 0 <= k < |ports| && except != Some(ports[k]) ensures exists i :: 0 <= i < |msgs| && msgs[i].out == To(ports[k]) {
      if k == 0 {
        assert msgs[0].out == To(ports[0]);
      } else {
        assert ports[1..][k - 1] == ports[k];
        var i :| 0 <= i < |rest| && rest[i].out == To(ports[k]);
        assert msgs[|msgs| - |rest| + i] == rest[i];
      }
    }
  }

  lemma OneEachLeaves(cfg: Config, zone: ZoneName, f: Frame, except: Option<Port>, msgs: seq<Msg>, time: Time)
    requires ConfigOk(cfg) && OneEach(msgs, cfg.maps.coreDpid, f, PortsOfZone(cfg, zone), except)
    ensures PacketsOnly(msgs) && OncePerPort(cfg, Leaving(msgs, time), time, f, zone, except)
  {
    var ports, sent := PortsOfZone(cfg, zone), Leaving(msgs, time);
    forall port | OnPort(cfg, zone, except, port) ensures exists i :: 0 <= i < |sent| && sent[i].out == To(port) {
      var k :| 0 <= k < |ports| && ports[k] == port;
      var i :| 0 <= i < |msgs| && msgs[i].out == To(port);
      assert sent[i].out == To(port);
    }
  }

  /** A frame sent to every port of the zone. */
  lemma ZoneIsSentTo(cfg: Config, n: Net, r: Router, u: Time, f: Frame, zone: ZoneName, except: Option<Port>)
    requires ConfigOk(cfg) && r.outbox == OutAll(cfg.maps.coreDpid, f, PortsOfZone(cfg, zone), except)
    ensures var n' := Deliver(cfg, n, r, u);
            && n'.router == r.(outbox := []) && n'.now == u && n'.tables == n.tables
            && exists sent :: n'.trace == n.trace + sent && OncePerPort(cfg, sent, u, f, zone, except)
  {
    OutAllIsOneEach(cfg.maps.coreDpid, f, PortsOfZone(cfg, zone), except);
    OneEachLeaves(cfg, zone, f, except, r.outbox, u);
    PacketsAreSent(cfg, n, r, u, r.outbox);
  }

  // --- Floods ----------------------------------------------------------------------------------

  /** The network before and after: nothing was sent and no rule changed. */
  ghost predicate Untouched(n: Net, n': Net) {
    n'.trace == n.trace && n'.tables == n.tables
  }

  /** The step's frame is flooded in its zone: by its leaf, or by the core through every other port of the
      zone it came from. No rule changes. */
  ghost predicate IsFlooded(cfg: Config, n: Net, s: Step, n': Net)
    requires s.Arrive?
  {
    && n'.tables == n.tables
    && if s.dpid != cfg.maps.coreDpid then n'.trace == n.trace + [Sent(s.c.u, s.dpid, Flood, s.frame, false)]
       else match Get(cfg.maps.corePortZones, s.port)
         case None => n'.trace == n.trace
         case Some(zone) => exists sent :: n'.trace == n.trace + sent && OncePerPort(cfg, sent, s.c.u, s.frame, zone, Some(s.port))
  }

  lemma FloodIsSent(cfg: Config, n: Net, s: Step, r: Router)
    requires ConfigOk(cfg) && s.Arrive? && r.outbox == FloodMsgs(cfg, EventOfStep(s))
    ensures IsFlooded(cfg, n, s, Deliver(cfg, n, r, s.c.u))
  {
    if s.dpid != cfg.maps.coreDpid || s.port !in cfg.maps.corePortZones {
      PacketsAreSent(cfg, n, r, s.c.u, r.outbox);
    } else {
      ZoneIsSentTo(cfg, n, r, s.c.u, s.frame, cfg.maps.corePortZones[s.port], Some(s.port));
    }
  }
}
