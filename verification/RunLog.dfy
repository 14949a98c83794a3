/** What a run does to the firewall's records: they only grow, and every check in them was made for a
    packet that arrived. */
module RunLog {
  import opened ConnTrack
  import opened OpenFlow
  import opened RouterModel
  import opened RouterInv
  import opened RouterEffects
  import opened DataPlane
  import opened Isolation
  import opened Floods

  /** What a step does to the log: nothing, a sweep, or the check of the packet that arrived. */
  ghost predicate LogStep(n: Net, s: Step, n': Net) {
    || n'.router.log == n.router.log
    || (&& |n'.router.log| == |n.router.log| + 1 && n'.router.log[..|n.router.log|] == n.router.log
        && var o := n'.router.log[|n.router.log|];
           o.Check? ==> s.Arrive? && s.via.None? && s.frame.payload.Ip? && o.ip == s.frame.payload.ip
                        && o.t == s.c.t && o.s == s.c.s && o.u == s.c.u == n'.now)
  }

  lemma StepsLog(cfg: Config, n: Net, s: Step, n': Net, late: Time)
    requires ConfigOk(cfg) && Follows(cfg, n, s, n', late) && n.router.outbox == []
    ensures LogStep(n, s, n') && n.now <= n'.now
  {
    if s.TimerFires? {
      var r' := RetryArp(cfg, n.router, s.id, n.now);
      TickSends(cfg, n.router, r', s.id, n.now);
      DeliveryKeepsRouter(cfg, n, r', n.now);
    } else if s.Arrive? {
      if s.via.None? {
        var r' := HandlePacketIn(cfg, n.router, EventOfStep(s), s.c);
        PacketInEffects(cfg, n.router, r', EventOfStep(s), s.c);
        DeliveryKeepsRouter(cfg, n, r', s.c.u);
      } else {
        var rule := TableOf(n, s.dpid)[s.via.value];
        EmittingChangesNoTable(cfg, Install(n, s.dpid, s.via.value, rule.(lastHit := n.now)), s.dpid, Execute(rule.actions, s.frame), true);
      }
    }
  }

  lemma {:induction false} ObeyingKeepsRouter(cfg: Config, n: Net, msgs: seq<Msg>)
    ensures ObeyAll(cfg, n, msgs).router == n.router && ObeyAll(cfg, n, msgs).now == n.now
    decreases msgs
  {
    if msgs != [] {
      var m := msgs[0];
      if m.FlowMod? && m.data.Some? {
        EmittingChangesNoTable(cfg, Install(n, m.dpid, m.m, Rule(m.actions, m.idle, m.hard, n.now, n.now)), m.dpid, Execute(m.actions, m.data.value), false);
      }
      ObeyingKeepsRouter(cfg, Obey(cfg, n, m), msgs[1..]);
    }
  }

  lemma DeliveryKeepsRouter(cfg: Config, n: Net, r: Router, u: Time)
    ensures Deliver(cfg, n, r, u).router == r.(outbox := []) && Deliver(cfg, n, r, u).now == u
  {
    ObeyingKeepsRouter(cfg, n.(router := r.(outbox := []), now := u), r.outbox);
  }

  lemma {:induction false} GrowsThroughout(nets: seq<Net>, k: nat, i: nat)
    requires k <= i < |nets|
    requires forall q :: k <= q < i ==> nets[q].now <= nets[q + 1].now && nets[q].router.log <= nets[q + 1].router.log
    ensures nets[k].now <= nets[i].now && nets[k].router.log <= nets[i].router.log
  {
    if k < i {
      GrowsThroughout(nets, k, i - 1);
    }
  }

  lemma LogsAndClocksGrow(cfg: Config, steps: seq<Step>, nets: seq<Net>, late: Time, k: nat, i: nat)
    requires InRun(cfg, steps, nets, late, i) && k <= i
    ensures nets[k].now <= nets[i].now && nets[k].router.log <= nets[i].router.log
  {
    forall q | k <= q < i ensures nets[q].now <= nets[q + 1].now && nets[q].router.log <= nets[q + 1].router.log {
      StepOfRun(cfg, steps, nets, late, q);
      StepsLog(cfg, nets[q], steps[q], nets[q + 1], late);
    }
    GrowsThroughout(nets, k, i);
  }

  /** The check was made when the packet of step `q` came to the controller. */
  predicate MadeBy(nets: seq<Net>, steps: seq<Step>, q: int, o: Obs)
    requires |nets| == |steps| + 1
  {
    && 0 <= q < |steps| && steps[q].Arrive? && steps[q].via.None? && steps[q].frame.payload.Ip? && o.Check?
    && o.ip == steps[q].frame.payload.ip && o.t == steps[q].c.t && o.s == steps[q].c.s && o.u == steps[q].c.u == nets[q + 1].now
  }

  ghost predicate EveryCheckMade(steps: seq<Step>, nets: seq<Net>, i: nat)
    requires i < |nets| == |steps| + 1
  {
    forall j :: 0 <= j < |nets[i].router.log| && nets[i].router.log[j].Check? ==> exists q :: q < i && MadeBy(nets, steps, q, nets[i].router.log[j])
  }

  lemma OneMoreStepMakesItsCheck(steps: seq<Step>, nets: seq<Net>, i: nat)
    requires i < |steps| && |nets| == |steps| + 1 && EveryCheckMade(steps, nets, i) && LogStep(nets[i], steps[i], nets[i + 1])
    ensures EveryCheckMade(steps, nets, i + 1)
  {
    var log, log' := nets[i].router.log, nets[i + 1].router.log;
    forall j | 0 <= j < |log'| && log'[j].Check? ensures exists q :: q < i + 1 && MadeBy(nets, steps, q, log'[j]) {
      if j < |log| {
        assert log'[j] == log[j];
        var q :| q < i && MadeBy(nets, steps, q, log[j]);
      } else {
        assert MadeBy(nets, steps, i, log'[j]);
      }
    }
  }

  lemma {:induction false} ChecksMadeThroughout(steps: seq<Step>, nets: seq<Net>, i: nat)
    requires i < |nets| == |steps| + 1 && nets[0] == START
    requires forall q :: 0 <= q < i ==> LogStep(nets[q], steps[q], nets[q + 1])
    ensures EveryCheckMade(steps, nets, i)
  {
    if i > 0 {
      ChecksMadeThroughout(steps, nets, i - 1);
      OneMoreStepMakesItsCheck(steps, nets, i - 1);
    }
  }

  /** Every recorded check was made for a packet that arrived earlier in the run. */
  lemma EveryCheckHasItsPacket(cfg: Config, steps: seq<Step>, nets: seq<Net>, late: Time, i: nat)
    requires InRun(cfg, steps, nets, late, i)
    ensures EveryCheckMade(steps, nets, i)
  {
    forall q | 0 <= q < i ensures LogStep(nets[q], steps[q], nets[q + 1]) {
      StepOfRun(cfg, steps, nets, late, q);
      StepsLog(cfg, nets[q], steps[q], nets[q + 1], late);
    }
    ChecksMadeThroughout(steps, nets, i);
  }

  lemma RecordsAreOk(cfg: Config, steps: seq<Step>, nets: seq<Net>, late: Time, i: nat)
    requires InRun(cfg, steps, nets, late, i)
    ensures LogOk(cfg, nets[i].router.log, nets[i].router.conns, nets[i].now)
  {
    RunKeepsInv(cfg, steps, nets, late, i);
  }
}
