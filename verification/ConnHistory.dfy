/** What a connection table's answers mean in terms of the packets it has seen. */
module ConnHistory {
  import opened Common
  import opened ConnTrack

  /** One use of the table: a check with its two clock readings, or a sweep with a reading for each
      entry it judged, all taken between `t` and `u`. */
  datatype Event =
    | Checked(allowed: bool, packet: Option<TrackedPacket>, t: Time, u: Time)
    | Swept(readings: map<Flow, Time>, t: Time, u: Time)

  function Step(table: Table, idle: Time, e: Event): Table {
    match e
    case Checked(allowed, packet, t, u) => AfterCheck(table, idle, allowed, packet, t, u)
    case Swept(readings, _, _) => AfterSweep(table, idle, readings)
  }

  function Run(events: seq<Event>, idle: Time): Table {
    if events == [] then map[]
    else Step(Run(events[..|events| - 1], idle), idle, events[|events| - 1])
  }

  ghost predicate EventTimed(e: Event) {
    e.t <= e.u && (e.Swept? ==> forall f :: f in e.readings ==> e.t <= e.readings[f] <= e.u)
  }

  /** The clock never runs backwards, within an event or from one to the next. */
  ghost predicate WellTimed(events: seq<Event>) {
    && (forall i :: 0 <= i < |events| ==> EventTimed(events[i]))
    && (forall i, j :: 0 <= i < j < |events| ==> events[i].u <= events[j].t)
  }

  ghost predicate NotBefore(events: seq<Event>, t: Time) {
    forall i :: 0 <= i < |events| ==> events[i].u <= t
  }

  // --- Chains ----------------------------------------------------------------------------------

  predicate OpensIt(e: Event, flow: Flow) {
    e.Checked? && Opens(e.allowed, e.packet, flow)
  }

  predicate AnswersIt(e: Event, flow: Flow) {
    e.Checked? && Answers(e.allowed, e.packet, flow)
  }

  /** The time an opener or a reply leaves in the table. */
  function Stamp(e: Event): Time {
    if e.Checked? && e.allowed then e.t else e.u
  }

  /** `links` picks an opener of the connection and then openers or blocked reply-direction packets
      of it, each less than the idle timeout after the one before. It mentions no table. */
  ghost predicate Chain(events: seq<Event>, idle: Time, flow: Flow, links: seq<nat>) {
    && links != []
    && (forall k :: 0 <= k < |links| ==> links[k] < |events|)
    && OpensIt(events[links[0]], flow)
    && (forall k :: 0 < k < |links| ==>
          && links[k - 1] < links[k]
          && (OpensIt(events[links[k]], flow) || AnswersIt(events[links[k]], flow))
          && events[links[k]].t - Stamp(events[links[k - 1]]) < idle)
  }

  function LastStamp(events: seq<Event>, links: seq<nat>): Time
    requires links != [] && links[|links| - 1] < |events|
  {
    Stamp(events[links[|links| - 1]])
  }

  lemma {:induction false} StampsArePast(events: seq<Event>, idle: Time, t: Time)
    requires WellTimed(events) && NotBefore(events, t)
    ensures forall f :: f in Run(events, idle) ==> Run(events, idle)[f] <= t
  {
    if events != [] {
      var n := |events| - 1;
      assert NotBefore(events[..n], t);
      StampsArePast(events[..n], idle, t);
    }
  }

  /** A step taken before `t` keeps an entry that is still live at `t`. */
  lemma StepKeepsLive(table: Table, idle: Time, e: Event, flow: Flow, t: Time)
    requires EventTimed(e) && e.u <= t && Alive(table, idle, flow, t)
    requires table[flow] <= e.t
    ensures Alive(Step(table, idle, e), idle, flow, t)
  {
  }

  lemma PrefixIsTimed(events: seq<Event>, n: nat)
    requires WellTimed(events) && n < |events|
    ensures WellTimed(events[..n]) && NotBefore(events[..n], events[n].t)
  {
  }

  /** The first `k` links of a chain form a chain of any prefix of the history that holds them. */
  lemma ChainOfPrefix(events: seq<Event>, idle: Time, flow: Flow, links: seq<nat>, k: nat, n: nat)
    requires Chain(events, idle, flow, links) && 0 < k <= |links| && links[k - 1] < n <= |events|
    ensures Chain(events[..n], idle, flow, links[..k])
    ensures LastStamp(events[..n], links[..k]) == Stamp(events[links[k - 1]])
  {
    LinksIncrease(events, idle, flow, links, k - 1);
  }

  /** An opener, or a reply to a live entry, leaves the entry live for the idle timeout. */
  lemma LinkStampsTheEntry(table: Table, idle: Time, e: Event, flow: Flow, t: Time)
    requires OpensIt(e, flow) || (AnswersIt(e, flow) && Alive(table, idle, flow, e.t))
    requires t - Stamp(e) < idle
    ensures Alive(Step(table, idle, e), idle, flow, t)
  {
  }

  /** What is live at `t` after all but the last event is live after that one too. */
  lemma LiveBeforeTheLast(events: seq<Event>, idle: Time, flow: Flow, t: Time)
    requires events != [] && WellTimed(events) && NotBefore(events, t) && Alive(Run(events[..|events| - 1], idle), idle, flow, t)
    ensures Alive(Run(events, idle), idle, flow, t)
  {
    var n := |events| - 1;
    PrefixIsTimed(events, n);
    StampsArePast(events[..n], idle, events[n].t);
    StepKeepsLive(Run(events[..n], idle), idle, events[n], flow, t);
  }

  lemma {:induction false} ChainKeepsAlive(events: seq<Event>, idle: Time, flow: Flow, links: seq<nat>, t: Time)
    requires WellTimed(events) && NotBefore(events, t) && Chain(events, idle, flow, links)
    requires t - LastStamp(events, links) < idle
    ensures Alive(Run(events, idle), idle, flow, t)
    decreases |events|
  {
    var n, k := |events| - 1, |links| - 1;
    PrefixIsTimed(events, n);
    if links[k] < n {
      ChainOfPrefix(events, idle, flow, links, k + 1, n);
      assert links[..k + 1] == links && NotBefore(events[..n], t);
      ChainKeepsAlive(events[..n], idle, flow, links, t);
      LiveBeforeTheLast(events, idle, flow, t);
    } else {
      if !OpensIt(events[n], flow) {
        ChainOfPrefix(events, idle, flow, links, k, n);
        ChainKeepsAlive(events[..n], idle, flow, links[..k], events[n].t);
      }
      LinkStampsTheEntry(Run(events[..n], idle), idle, events[n], flow, t);
    }
  }

  lemma {:induction false} LinksIncrease(events: seq<Event>, idle: Time, flow: Flow, links: seq<nat>, k: nat)
    requires Chain(events, idle, flow, links) && k < |links|
    ensures forall i :: 0 <= i <= k ==> links[i] <= links[k]
  {
    if k > 0 {
      LinksIncrease(events, idle, flow, links, k - 1);
    }
  }

  lemma ChainOfLonger(events: seq<Event>, e: Event, idle: Time, flow: Flow, links: seq<nat>)
    requires Chain(events, idle, flow, links)
    ensures Chain(events + [e], idle, flow, links) && LastStamp(events + [e], links) == LastStamp(events, links)
  {
  }

  lemma ChainExtended(events: seq<Event>, e: Event, idle: Time, flow: Flow, links: seq<nat>)
    requires Chain(events, idle, flow, links)
    requires AnswersIt(e, flow) && e.t - LastStamp(events, links) < idle
    ensures Chain(events + [e], idle, flow, links + [|events|])
    ensures LastStamp(events + [e], links + [|events|]) == e.u
  {
  }

  lemma {:induction false} EntryHasChain(events: seq<Event>, idle: Time, flow: Flow) returns (links: seq<nat>)
    requires flow in Run(events, idle)
    ensures Chain(events, idle, flow, links) && LastStamp(events, links) == Run(events, idle)[flow]
  {
    var n := |events| - 1;
    var prefix, e := events[..n], events[n];
    assert prefix + [e] == events;
    if OpensIt(e, flow) {
      links := [n];
    } else {
      links := EntryHasChain(prefix, idle, flow);
      if AnswersIt(e, flow) && Alive(Run(prefix, idle), idle, flow, e.t) {
        ChainExtended(prefix, e, idle, flow, links);
        links := links + [n];
      } else {
        ChainOfLonger(prefix, e, idle, flow, links);
      }
    }
  }

  /** `check` says Reply exactly when the policy blocks the packet, the packet may be a reply, and
      the history holds a chain for the reversed flow whose last link is less than the idle timeout
      before the check. */
  lemma ReplyIsExactlyAChain(events: seq<Event>, idle: Time, allowed: bool, packet: Option<TrackedPacket>, t: Time)
    requires WellTimed(events) && NotBefore(events, t)
    ensures VerdictOf(Run(events, idle), idle, allowed, packet, t) == Reply
            <==> && !allowed && packet.Some? && packet.value.mayReply
                 && exists links :: Chain(events, idle, packet.value.flow.Reversed(), links) && t - LastStamp(events, links) < idle
  {
    if !allowed && packet.Some? && packet.value.mayReply {
      var flow := packet.value.flow.Reversed();
      forall links | Chain(events, idle, flow, links) && t - LastStamp(events, links) < idle
        ensures Alive(Run(events, idle), idle, flow, t)
      {
        ChainKeepsAlive(events, idle, flow, links, t);
      }
      if Alive(Run(events, idle), idle, flow, t) {
        var links := EntryHasChain(events, idle, flow);
      }
    }
  }

  /** A connection that was silent in both directions for the idle timeout gets no reply through. */
  lemma SilenceEndsTheConnection(events: seq<Event>, idle: Time, packet: TrackedPacket, t: Time)
    requires WellTimed(events) && NotBefore(events, t)
    requires forall i :: 0 <= i < |events| && (OpensIt(events[i], packet.flow.Reversed()) || AnswersIt(events[i], packet.flow.Reversed()))
                         ==> t - Stamp(events[i]) >= idle
    ensures VerdictOf(Run(events, idle), idle, false, Some(packet), t) == Drop
  {
  }

  /** An echo request the policy blocks is dropped whatever the table holds: it cannot pass as the
      reply to a ping. */
  lemma BlockedEchoRequestsNeverPass(table: Table, idle: Time, ip: Flow, icmpId: nat, t: Time)
    ensures VerdictOf(table, idle, false, Tracked(ip.src, ip.dst, IPPROTO_ICMP, 0, 0, ICMP_ECHO_REQUEST, icmpId), t) == Drop
  {
  }

  // --- Sweeps are unobservable -----------------------------------------------------------------

  function WithoutSweeps(events: seq<Event>): seq<Event> {
    if events == [] then []
    else
      var n := |events| - 1;
      if events[n].Swept? then WithoutSweeps(events[..n]) else WithoutSweeps(events[..n]) + [events[n]]
  }

  /** The answers the checks of a run return, in order. */
  function Verdicts(events: seq<Event>, idle: Time): seq<Verdict> {
    if events == [] then []
    else
      var n := |events| - 1;
      var e := events[n];
      if e.Swept? then Verdicts(events[..n], idle)
      else Verdicts(events[..n], idle) + [VerdictOf(Run(events[..n], idle), idle, e.allowed, e.packet, e.t)]
  }

  /** The bisimulation: the two tables agree on every entry that either holds live at `now`. */
  ghost predicate SameLive(a: Table, b: Table, idle: Time, now: Time) {
    forall f :: Alive(a, idle, f, now) || Alive(b, idle, f, now) ==> f in a && f in b && a[f] == b[f]
  }

  lemma CheckKeepsSameLive(a: Table, b: Table, idle: Time, e: Event)
    requires e.Checked? && EventTimed(e) && SameLive(a, b, idle, e.t)
    ensures VerdictOf(a, idle, e.allowed, e.packet, e.t) == VerdictOf(b, idle, e.allowed, e.packet, e.t)
    ensures SameLive(Step(a, idle, e), Step(b, idle, e), idle, e.u)
  {
  }

  lemma SweepKeepsSameLive(a: Table, b: Table, idle: Time, e: Event)
    requires e.Swept? && EventTimed(e) && SameLive(a, b, idle, e.t)
    ensures SameLive(Step(a, idle, e), b, idle, e.u)
  {
  }

  lemma {:induction false} SweepsLeaveLiveEntries(events: seq<Event>, idle: Time, now: Time)
    requires WellTimed(events) && NotBefore(events, now)
    ensures SameLive(Run(events, idle), Run(WithoutSweeps(events), idle), idle, now)
    ensures Verdicts(events, idle) == Verdicts(WithoutSweeps(events), idle)
  {
    if events != [] {
      var n := |events| - 1;
      var prefix, e := events[..n], events[n];
      assert WellTimed(prefix) && NotBefore(prefix, e.t);
      SweepsLeaveLiveEntries(prefix, idle, e.t);
      var a, b := Run(prefix, idle), Run(WithoutSweeps(prefix), idle);
      if e.Checked? {
        CheckKeepsSameLive(a, b, idle, e);
        var swept := WithoutSweeps(events);
        assert swept[..|swept| - 1] == WithoutSweeps(prefix);
      } else {
        SweepKeepsSameLive(a, b, idle, e);
      }
    }
  }

  /** Two histories with the same checks, and sweeps inserted anywhere at any readings, give the
      same answers. */
  lemma SweepingIsUnobservable(events: seq<Event>, others: seq<Event>, idle: Time)
    requires WellTimed(events) && WellTimed(others) && WithoutSweeps(events) == WithoutSweeps(others)
    ensures Verdicts(events, idle) == Verdicts(others, idle)
  {
    var end := if events == [] then 0.0 else events[|events| - 1].u;
    var otherEnd := if others == [] then 0.0 else others[|others| - 1].u;
    SweepsLeaveLiveEntries(events, idle, end);
    SweepsLeaveLiveEntries(others, idle, otherEnd);
  }
}
