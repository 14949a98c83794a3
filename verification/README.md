# A verified model of the zone-segmentation router and firewall

The system is an SDN controller that keeps network zones apart. It validates a policy and a network
layout, compiles the policy into tables for a C++ daemon, tracks connections, routes between zones
through a core switch, and installs switch rules so that most packets never reach it. This project
models all of that for an arbitrary accepted policy and layout and proves what it promises, over every
run: any frames at any port at any time, any clock, late timers, sweeps, failing daemons, any
chunking of the byte streams.

## How it is built

| file | models |
|---|---|
| `Common.dfy` | Option, Result, bytes |
| `Ipv4.dfy` | addresses, masks and CIDR blocks, in the arithmetic of Python and of the daemon |
| `Policy.dfy` | `firewall_rules.py`: loading a policy, classifying addresses, the stateless verdict |
| `Daemon.dfy` | `tools/gen_policy_header.py` and the deciding half of `cpp/firewall_daemon.cpp` |
| `Layout.dfy` | `network.py`: loading a layout |
| `Wiring.dfy` | `network.py`: the port maps, and what an accepted layout guarantees about them |
| `ConnTrack.dfy`, `ConnHistory.dfy` | `conntrack.py` as a value and as objects; what its answers mean in terms of history |
| `Wire.dfy`, `Session.dfy` | `firewall_client.py` and the daemon's socket loops; both ends running at once |
| `OpenFlow.dfy` | frames, matches, actions and flow entries (OpenFlow 1.0.0, sections 3.4, 4.6, 4.7) |
| `RouterModel.dfy`, `ZoneRouter.dfy` | `controller.py`: handlers as functions of the state, and the class whose methods are proved to compute them |
| `RouterInv.dfy`, `RouterSteps.dfy`, `RouterPacketIn.dfy`, `RouterEffects.dfy` | the router's invariant, what each handler does to it, and what each handler cannot do |
| `DataPlane.dfy`, `RunLog.dfy`, `Messages.dfy` | controller and switches as one timed step machine, its invariant over every run, where the records of a run come from, and what the switches make of messages |
| `Delivery.dfy`, `Routing.dfy`, `Probing.dfy` | what becomes of every packet that comes to the controller and of every timer tick, field by field on the wire |
| `Offload.dfy`, `FastPath.dfy` | how long and how exactly installed rules carry a connection without the controller |
| `Isolation.dfy`, `Exactness.dfy`, `Lateness.dfy` | what is ever sent between zones, and exactly when |
| `KeepAlive.dfy`, `Silence.dfy`, `Hiding.dfy` | the contract between rule timeouts and connection tracking, and exactly when it holds |
| `Runs.dfy` | pieces of concrete runs, for the results that say when a property fails |
| `Floods.dfy`, `Queues.dfy`, `Broadcast.dfy`, `Backends.dfy`, `Sweeps.dfy` | the other whole-system properties |
| `Deployment.dfy` | start-up from the two files, and the guarantees stated on the files |

The imperative parts keep their form: `ConnectionTable`, `ZoneRouter` and `FirewallClient` are classes
whose methods update fields, the loaders and table scans are loops. Each method is proved equal to a
function of the old state; the properties are proved about those functions. `Probing.EveryPacketInIsOfAKind`
shows that no packet is left out: for each kind a result over runs says, with its numbers and fields
written out, which frames leave which ports and which rules are installed.

The step machine `DataPlane` lets any frame arrive at any switch port at any time, except that a leaf's
uplink carries only what the core has put on it. A frame that an active rule matches is taken by the
rule; otherwise a connected switch hands it to the controller, whose clock advances while it handles
the packet. Timers are served at most `late` seconds after they are due, for any `late`: since a finite
run has some lateness, the whole-run theorems cover every run.

Findings:

- One-way blocking does not isolate two zones, because replies pass:
  `Deployment.IsolatedIffTheFileBlocksBothWays` proves, for ICMP and for everything else, that two zones
  are kept apart in every run if and only if the policy file blocks both directions.
- A zone cannot be isolated from itself: `Isolation.WithinAZoneNothingIsBlocked`.
- Everything the core sends between zones was checked less than 60 seconds before, if and only if
  timers are served less than 19 seconds late (`Lateness.JustCheckedIffTimersServed`).
- A rule takes packets of exactly one pair of ports (for ICMP, one type and code) if and only if POX could
  parse the packet's transport header (`FastPath.RulesAreExactIffParsed`); otherwise it takes every port
  of that pair of hosts. It never tells pings apart, because a match has no echo identifier.
- The 120-second idle timeout does not always exceed what 60-second rules can hide. A packet whose header
  POX cannot parse gets a rule for every port of its two hosts, and an echo packet gets one for every ping
  between them; neither is tracked as the connection, so the rule hides live connections until their
  entries go idle. Connections stay tracked as promised, in either direction and for TCP, UDP and ICMP
  echo alike, if and only if no such packet comes to the controller (`Hiding.OpenersTrackedIffNothingHides`,
  `Hiding.RepliesTrackedIffNothingHides`). For the case the comments feature, a ping whose replies the
  policy blocks on their own: a second ping between the two hosts can make the controller refuse them.
- The core sends only what was checked with its own ports if and only if no unparsed packet comes
  (`Hiding.PortsCheckedIffParsed`).
- A silent ping is not always closed: its late replies still pass along the rule of another ping between
  its hosts. Silence closes a connection in every run if and only if no replies of other pings may come
  to the controller (`Hiding.SilenceClosesIffNoOtherEchoes`).
- The two firewalls agree only because of the anti-spoofing check: `Backends.SpoofCheckIsNeeded` gives
  a policy and a spoofed packet on which they would differ.
- The opening comment of `controller.py` (lines 42-50) says a location is learned when a host ARPs for
  its gateway. The code also learns it from other ARP packets and from IP packets (lines 265 and 319);
  the model follows the code.
- The `$` in the patterns of `firewall_rules.py:29` and `tools/gen_policy_header.py:27` also accepts one
  final newline; the model follows the code.

Check it with `dafny verify dfyconfig.toml`.

## Model

| member | source | states |
|---|---|---|
| `Ipv4.MasksAgree` | cpp/firewall_daemon.cpp:93 | the daemon's shifted 32-bit mask is the network mask of the prefix, prefix length 0 included |
| `Ipv4.ContainsIsInterval` | firewall_rules.py:91 | subnet containment by mask is membership in the interval from the network to the broadcast address |
| `Ipv4.EndsAreMembers` | network.py:95-96 | the network and broadcast addresses are the ends of the subnet |
| `Ipv4.OverlapsIsExact` | firewall_rules.py:61 | the overlap test fails exactly for subnets that share no address |
| `Ipv4.NestedOrDisjoint` | firewall_rules.py:61 | two subnets are nested or disjoint |
| `Ipv4.MaskEqualIsContains` | cpp/firewall_daemon.cpp:94 | the daemon's mask comparison is subnet containment, for all 32-bit addresses |
| `Policy.CheckAgainst` | firewall_rules.py:60-64 | no fault if and only if the zone is disjoint from, and shares no MAC with, every earlier one; a fault is justified and blames this zone |
| `Policy.CheckZone` | firewall_rules.py:49-65 | no fault if and only if the zone is well formed and clear of the earlier ones; a fault is justified and blames this zone |
| `Policy.LoadZones` | firewall_rules.py:48-67 | succeeds exactly on a non-empty list of acceptable, pairwise clear zones, and keeps their order |
| `Policy.LoadRules` | firewall_rules.py:69-81 | succeeds exactly on acceptable rules; the result holds exactly the pairs the rules block, per kind |
| `Policy.CrossProduct` | firewall_rules.py:79-81 | every pair of a from-zone and a to-zone, and no other |
| `Policy.LoadPolicy` | firewall_rules.py:36-82 | succeeds exactly on acceptable files; errors are justified; the policy holds exactly the file's zones and blocks |
| `Policy.AcceptedIsWellFormed` | firewall_rules.py:36-82 | acceptance implies pairwise disjoint subnets, distinct names and MACs, gateways inside their zones, rules over known zones |
| `Policy.ZoneForIp` | firewall_rules.py:88-93 | the zone found contains the address; none is found only if no zone contains it |
| `Policy.ClassifyIp` | firewall_rules.py:88-93 | the loop computes the first matching zone |
| `Policy.FirstMatchIsUnique` | firewall_rules.py:88-93 | a zone contains an address if and only if it is the first match |
| `Policy.ClassificationIsOrderIndependent` | firewall_rules.py:88-93 | classification is the same for any order of the zones |
| `Policy.ValidSourceIsNoGateway` | firewall_rules.py:96-108 | an address that passes the anti-spoofing check is no zone's gateway |
| `Policy.SpoofCheckIsExact` | firewall_rules.py:96-108 | the anti-spoofing check accepts exactly the addresses of the zone's subnet that are no zone's gateway |
| `Policy.GatewayIsInItsZone` | firewall_rules.py:55-56 | a gateway address classifies as its own zone |
| `Daemon.Render` | tools/gen_policy_header.py:31-84 | succeeds exactly when all names are usable; the header then compiles the policy; the error is the first bad name |
| `Daemon.Pairs` | tools/gen_policy_header.py:38-46 | the rows are the encoded pairs, each once, in order, with their count; an empty table gets an unread placeholder |
| `Daemon.Insert` | tools/gen_policy_header.py:39 | one step of sorting keeps the rows ordered and adds exactly the new row |
| `Daemon.ContainsPair` | cpp/firewall_daemon.cpp:82-87 | true exactly if the pair is among the first `count` rows |
| `Daemon.ClassifyZone` | cpp/firewall_daemon.cpp:91-97 | the scan computes the first matching table entry or Unknown |
| `Daemon.Decide` | cpp/firewall_daemon.cpp:103-114 | the cascade over the tables |
| `Daemon.ClassifyAgrees` | cpp/firewall_daemon.cpp:91-97 | on compiled tables, mask tests find the enumerator of the zone subnet containment finds |
| `Daemon.RowsMeanTheTable` | tools/gen_policy_header.py:38-46 | a row is in the generated table if and only if its pair is in the policy's set |
| `Daemon.DecisionAgrees` | cpp/firewall_daemon.cpp:103-114 | the decision on tables is the policy's verdict with its first reason |
| `Daemon.CompilationIsCorrect` | cpp/firewall_daemon.cpp:151-164 | for all addresses and protocols the daemon's answer is the policy's verdict, naming the first matching reason |
| `ConnTrack.Tracked` | conntrack.py:51-68 | exactly TCP, UDP and ICMP echo are tracked; an echo request may only open, an echo reply only reply, TCP and UDP both; the flow carries the ports, or the echo identifier twice |
| `ConnTrack.ConnectionTable.IsAlive` | conntrack.py:82-84 | an entry is alive if less than the idle timeout old at the reading taken |
| `ConnTrack.ConnectionTable.Track` | conntrack.py:86-88 | sets exactly this entry to the reading taken |
| `ConnTrack.ConnectionTable.IsReply` | conntrack.py:90-97 | true exactly if the reversed flow is alive; a hit refreshes it at a second, later reading |
| `ConnTrack.ConnectionTable.FindStale` | conntrack.py:101 | the stale flows are exactly those idle when the clock was read for them |
| `ConnTrack.ConnectionTable.Expire` | conntrack.py:99-104 | removes exactly the entries idle at their own reading and returns how many |
| `ConnTrack.ConnectionTable.Check` | conntrack.py:106-119 | verdict and new table as a function of the old table and the two readings |
| `ConnHistory.ReplyIsExactlyAChain` | conntrack.py:82-119 | a check answers reply if and only if the packet is blocked, may reply, and the history holds an opener and a chain of openers and accepted replies with every gap below the idle timeout |
| `ConnHistory.ChainKeepsAlive` | conntrack.py:82-97 | a chain of openers and replies with short gaps keeps the entry alive |
| `ConnHistory.EntryHasChain` | conntrack.py:82-97 | every entry of a reachable table has such a chain behind it |
| `ConnHistory.SilenceEndsTheConnection` | conntrack.py:30-34 | after the idle timeout without a packet in either direction a blocked packet is dropped |
| `ConnHistory.SweepsLeaveLiveEntries` | conntrack.py:99-104 | with and without sweeps, tables agree on every live entry and all checks answer the same |
| `ConnHistory.SweepingIsUnobservable` | controller.py:158-159 | histories that differ only in sweeps, anywhere and at any readings, give the same answers |
| `ConnHistory.BlockedEchoRequestsNeverPass` | conntrack.py:57-60 | a blocked echo request is dropped whatever the table holds |
| `Wire.UnpackOfPack` | firewall_client.py:58-59 | the request the daemon reads is the request the client packed |
| `Wire.PackOfUnpack` | cpp/firewall_daemon.cpp:52-58 | every 13 bytes are the packing of some request |
| `Wire.RequestsAreInNetworkOrder` | firewall_client.py:17-19 | the 13 bytes of a request, one by one: addresses, ports and protocol, most significant byte first |
| `Wire.ServeAllOneMore` | cpp/firewall_daemon.cpp:151-167 | one more complete request adds exactly its response |
| `Wire.PartialRequestIsNotServed` | cpp/firewall_daemon.cpp:154 | a trailing partial request adds nothing |
| `Wire.ReadFull` | cpp/firewall_daemon.cpp:123-133 | exactly the next bytes of the stream however they are chunked; false only after a failed read |
| `Wire.WriteFull` | cpp/firewall_daemon.cpp:135-145 | all the data or a prefix of it; false only after a failed write |
| `Wire.ServeRequest` | cpp/firewall_daemon.cpp:153-166 | consumes one request and sends its decision |
| `Wire.HandleClient` | cpp/firewall_daemon.cpp:151-169 | what is sent is a prefix of the answers to the complete requests received; ends only on failure |
| `Wire.FirewallClient.EnsureConnected` | firewall_client.py:42-47 | keeps the socket, or makes a fresh one, or fails without one |
| `Wire.FirewallClient.RecvExact` | firewall_client.py:74-83 | exactly the next n bytes, or an error after a failed read |
| `Wire.FirewallClient.IsAllowed` | firewall_client.py:49-72 | sends the packed request and returns exactly the next two bytes of the stream, on a new connection the first two; a failed exchange forgets the socket |
| `Wire.FirewallClient.Close` | firewall_client.py:85-88 | afterwards there is no socket |
| `Session.RunKeepsInv` | firewall_client.py:61-70 | over every interleaving of client and daemon, the current connection carries only the current call |
| `Session.EveryAnswerIsToItsOwnRequest` | firewall_client.py:49-72 | each returned response is the daemon's decision on that call's own request, for any chunking, interleaving and failures |
| `Session.PartialRequestsGetNoResponse` | cpp/firewall_daemon.cpp:151-169 | on every connection, abandoned ones too, only complete requests are answered |
| `Session.NoStaleBytes` | firewall_client.py:65-69 | a call starts on a connection with no byte of an earlier exchange in it |
| `Session.TheLoopsStayInStep` | firewall_client.py:49-83 | of a prefix of the daemon's answers to all it receives, the two bytes that call n+1 reads are the decision on its own request |
| `Session.Exchange` | firewall_client.py:49-72 | on a new connection as on an old one, a call that returns over what the daemon's loop sends returns the decision on its own request, and leaves the connection ready for the next |
| `Session.Converse` | cpp/firewall_daemon.cpp:151-169 | the daemon's loop and the client's calls, run end to end over chunked and failing sockets: the calls that return, in order, return the decisions on their own requests |
| `OpenFlow.ExecutionKeepsTheConnection` | controller.py:410-416 | actions never change addresses, protocol or ports |
| `OpenFlow.RouteActionsRoute` | controller.py:410-416 | the routed rule's actions send one frame with the new MACs and TTL one lower, or nothing |
| `Layout.LoadSwitches` | network.py:45-64 | accepts exactly the switch lists with unique positive dpids, known zones and one core, and returns them |
| `Layout.LoadUplinks` | network.py:67-80 | accepts exactly the uplink lists giving every leaf one uplink, and returns them |
| `Layout.LoadHosts` | network.py:83-109 | accepts exactly hosts with a distinct, unreserved address of a zone on a switch of that zone, and returns them |
| `Layout.CheckPortsUnique` | network.py:112-125 | true exactly if every port is positive and no port has two plugs |
| `Layout.LoadNetwork` | network.py:31-42 | succeeds with the network the file describes; fails only if it describes none |
| `Wiring.AcceptedIsAStar` | network.py:31-42 | an accepted layout is a star with one uplink per leaf, unique ports and consistent zones |
| `Wiring.PortMapsOfIsMapped` | network.py:128-140 | the derived maps hold an entry for every leaf and core host and nothing else |
| `Wiring.MapsAreConsistent` | network.py:128-140 | every leaf has one uplink port and one distinct core port, whose zone is the leaf's |
| `Wiring.MappedZonesAreKnown` | network.py:128-140 | the maps name only zones of the policy |
| `Wiring.HostsEnterInTheirZone` | controller.py:129-136 | a host's port maps to the zone of its address and is never taken for an uplink |
| `Wiring.UplinksAreRecognised` | controller.py:135-136 | a port is taken for an uplink if and only if the layout plugs a leaf's uplink in there |
| `Wiring.SameLocationAtLeafAndCore` | controller.py:139-145 | a host first seen at its leaf or at the core gets the same zone and the same stored location |
| `ZoneRouter.ZoneRouter.constructor` | controller.py:150-160 | starts in the initial state |
| `ZoneRouter.ZoneRouter.HandlePacketIn` | controller.py:193-212 | the whole new state after any packet-in, as the function RouterModel.HandlePacketIn of the old state |
| `ZoneRouter.ZoneRouter.HandleTransit` | controller.py:214-226 | new state after a frame from an uplink |
| `ZoneRouter.ZoneRouter.HandleArp` | controller.py:230-266 | new state after an ARP packet |
| `ZoneRouter.ZoneRouter.HandleIp` | controller.py:304-347 | new state after an IP packet, with the clock readings it took |
| `ZoneRouter.ZoneRouter.HandleCrossZoneIp` | controller.py:338-347 | firewall, connection check, then drop rule or routing |
| `ZoneRouter.ZoneRouter.FirewallAllowed` | controller.py:166-182 | the daemon's answer by address if it is in use and can be reached; Python's by zone exactly if not |
| `ZoneRouter.ZoneRouter.AskDaemon` | controller.py:171-177 | the daemon's answer exactly if it can be reached |
| `ZoneRouter.ZoneRouter.Route` | controller.py:368-377 | rules and forwarding for a known host, else the queue |
| `ZoneRouter.ZoneRouter.InstallDropFlow` | controller.py:379-386 | sends the drop rule for the exact match |
| `ZoneRouter.ZoneRouter.InstallRouteFlows` | controller.py:388-425 | sends the core's rule, then the leaf's |
| `ZoneRouter.ZoneRouter.ForwardIp` | controller.py:427-440 | rewrites and sends, or answers an expired TTL |
| `ZoneRouter.ZoneRouter.QueueAndResolve` | controller.py:444-453 | opens the entry with its probe and timer if needed, and appends the packet |
| `ZoneRouter.ZoneRouter.RetryArp` | controller.py:455-467 | probes again, or gives up on the whole queue in order |
| `ZoneRouter.ZoneRouter.ResolvePending` | controller.py:469-478 | removes the entry and forwards its queue in order |
| `ZoneRouter.ZoneRouter.SendArpProbe` | controller.py:286-300 | one probe per core port of the zone |
| `ZoneRouter.ZoneRouter.SendIcmpError` | controller.py:482-512 | one ICMP error to the sender, or nothing |
| `ZoneRouter.ZoneRouter.Learn` | controller.py:516-520 | stores MAC and location |
| `ZoneRouter.ZoneRouter.L2Forward` | controller.py:522-533 | a rule for a known MAC, else a flood |
| `ZoneRouter.ZoneRouter.FloodInZone` | controller.py:535-548 | the zone's other core ports, or the leaf's flood |
| `ZoneRouter.ZoneRouter.HandleConnectionUp` | controller.py:186-188 | the switch is connected, its MAC table kept |
| `ZoneRouter.ZoneRouter.SweepConnections` | controller.py:159 | the sweep changes only the connection table |
| `ZoneRouter.BuildZoneCorePorts` | controller.py:99-101 | each core port once, under its zone |
| `RouterModel.CorePortIsInTheZone` | controller.py:139-145 | a host port and the core port it is reached through lie in one zone |
| `RouterPacketIn.BothFirewallsSayPolicy` | controller.py:306-338 | behind the anti-spoofing check both firewalls give the policy's verdict on the addresses |
| `RouterPacketIn.PacketInIsHandled` | controller.py:193-212 | every packet-in keeps the router's invariant and sends only messages the invariant allows |
| `RouterSteps.TickKeepsOk` | controller.py:455-467 | so does every timer tick |
| `RouterSteps.ResolveKeepsOk` | controller.py:469-478 | so does draining a queue |
| `RouterSteps.QueuedPacketsAreRecent` | controller.py:120-121 | no packet waits longer than three probe rounds take |
| `RouterEffects.PacketInEffects` | controller.py:193-212 | a packet-in makes at most one check, of its own packet, installs rules only for its own match, and leaves in the tables exactly what it teaches |
| `RouterEffects.TickSends` | controller.py:455-467 | a timer tick sends packets only: it checks, learns and installs nothing |
| `DataPlane.StepKeepsInv` | controller.py:193-212 | every step of controller, switches, timers, sweeps and clock keeps the invariant |
| `DataPlane.RunKeepsInv` | controller.py:148-562 | the invariant holds in every state of every run |
| `Isolation.RunsExtend` | controller.py:148-562 | no reachable state fails a handler's precondition |
| `Isolation.PassedChecksAreJustified` | conntrack.py:12-16 | a check passes only if the policy allows the packet or allowed an earlier opener of its connection |
| `Isolation.EverythingSentIsJustified` | controller.py:304-347 | every cross-zone IP packet any switch sends in any run has such a check behind it |
| `Isolation.BlockedBothWaysMeansIsolated` | controller.py:338-347 | zones blocked both ways never exchange a packet, over all runs |
| `Isolation.WithinAZoneNothingIsBlocked` | controller.py:333-336 | an honest packet within a zone, at any switch, is forwarded without a check, whatever the policy says: to the port its destination was seen at, with a rule of 30 and 60 seconds, or flooded |
| `Isolation.CoreSendsWhatWasJustChecked` | controller.py:103-108 | what the core sends between zones has a recent passed check (under 60 seconds if timers are under 19 late) for its own ports, unless the policy itself allows it, and leaves toward the destination's zone |
| `Isolation.PortsAgreeOrAllowed` | controller.py:350-366 | a passed check that covers a packet was for its very ports, or the policy allows the packet |
| `Isolation.LocationsAreSound` | controller.py:516-520 | a stored location is a core port of the address's own zone, and no gateway has one |
| `Isolation.QueuesConservePackets` | controller.py:444-478 | per destination, packets queued are packets released, in order, then packets waiting |
| `Isolation.WaitingPacketsAreUntouched` | controller.py:453 | a waiting packet is exactly the packet that was checked, TTL included |
| `Isolation.PendingEntriesAreProbing` | controller.py:444-467 | every entry has packets, exactly one live timer, and as many retries as rounds are counted for it, one to three |
| `Isolation.GivingUpTakesThreeRounds` | controller.py:459-465 | a packet is given up only after exactly three counted rounds, and no entry ever counts more |
| `Isolation.TicksProbeAgain` | controller.py:466-467 | below three rounds a tick counts one more and raises the retry count by one |
| `Isolation.TheThirdTickGivesUp` | controller.py:459-465 | at three it removes entry and timer and releases the whole queue in order |
| `Exactness.OneOpenDirectionIsEnough` | conntrack.py:4-10 | if either direction is allowed, a run exists that sends from the one zone to the other |
| `Exactness.IsolatedIffBlockedBothWays` | controller.py:338-347 | per kind of packet, zones are isolated in every run if and only if both directions are blocked |
| `Lateness.LateTimersBreakTheBound` | controller.py:455-478 | with timers 19 seconds late a run sends a packet 60 seconds after its only check |
| `Lateness.JustCheckedIffTimersServed` | controller.py:103-121 | the 60-second bound holds in every run if and only if timers are under 19 seconds late |
| `Queues.ForwardAllInOrder` | controller.py:476-478 | a drained queue becomes one message per packet, in order, TTL lowered once |
| `Queues.ResolvingDrainsInOrder` | controller.py:469-478 | an ARP reply drains the entry's queue that way toward the stored location |
| `Queues.GivingUpAnswersInOrder` | controller.py:459-465 | the last tick answers every sender in order with host unreachable (3, 1) from its gateway's address and MAC, TTL 64, quoting its packet unchanged |
| `FastPath.RulesRefineForwardIp` | controller.py:388-440 | for every frame the rules match, leaf rule then core rule send what _forward_ip would send; an expiring TTL is dropped |
| `FastPath.FirstPacketGoesTheSameWay` | controller.py:368-377 | the first packet leaves as its rules will send the rest; the rules, of 30 and 60 seconds, go out before it, the core's first |
| `FastPath.CoreRulesRouteOnward` | controller.py:404-417 | in every run a core rule sends a cross-zone packet one hop on to its zone, never back out of its ingress port |
| `FastPath.RulesAreExactIffParsed` | controller.py:394-402 | a rule takes exactly one connection if and only if the transport header was parsed |
| `FastPath.SpoofedPacketsRideNoRule` | controller.py:394-402 | a rule never takes a frame from another port or with other MACs, addresses or protocol |
| `Offload.LiveRulesTakeWhatComes` | controller.py:103-108 | until the rule is replaced, under 60 seconds old and under 30 since its last packet, no packet it matches can come to the controller |
| `Offload.RulesHaveTheirPacket` | controller.py:394-402 | in every run every rule was made for a packet that came to the controller |
| `Offload.LeavesCarryConnections` | controller.py:419-425 | in every run, for 60 seconds after a packet was routed at a leaf, the leaf passes the connection's packets (under 30 seconds apart) up unchanged, and none comes to the controller |
| `Offload.TheCoreCarriesConnections` | controller.py:404-417 | likewise the core routes them: each leaves as _forward_ip would send it, and only an expiring one is dropped |
| `Delivery.TablesHoldTheLastPlace` | controller.py:516-520 | in every reachable state the MAC and location tables hold exactly the last port and place each address was learned at |
| `Delivery.FramesReachTheLastPort` | controller.py:214-226 | in every run a unicast frame from the core leaves its leaf through the port its destination was last seen at, with a rule of 30 and 60 seconds to the same port, and is flooded only if it never was seen |
| `Delivery.HostPacketsReachTheLastPort` | controller.py:522-533 | in every run, at a leaf and at the core, so does a host's packet to its own zone |
| `Delivery.MulticastsAreFloodedDown` | controller.py:223-224 | in every run a multicast of any kind that comes down an uplink is flooded by the leaf |
| `Delivery.HostTalkIsFlooded` | controller.py:264-266 | in every run honest ARP between hosts, and any frame that is neither IP, ARP nor LLDP, is flooded in its zone: by its leaf, or once through every other core port of the zone and no other port |
| `Delivery.DeadEndsGoNowhere` | controller.py:310-330 | in every run nothing is sent, checked, queued or installed for an incomplete, spoofed or LLDP packet, or one for a gateway or no zone |
| `Delivery.GatewayRequestsAreAnswered` | controller.py:248-284 | in every run an honest request for a gateway gets exactly one answer, out of its port, field by field: the address asked for is at its own zone's gateway MAC; and the asker is located |
| `Delivery.AnswersDrainTheQueue` | controller.py:258-262 | in every run the answer to a probe removes the entry and puts every waiting packet on the wire, in order, toward where the host answered |
| `Messages.PacketsLeaveInOrder` | controller.py:552-562 | packets the controller sends leave the switches in the order it sent them |
| `Routing.RefusedPacketsAreDropped` | controller.py:379-386 | in every run a refused packet goes nowhere and leaves a rule that drops the ones like it, 10 seconds idle and 30 in all |
| `Routing.KnownHostsAreRoutedTo` | controller.py:388-440 | in every run a packet that passes, for a known host, leaves the core one hop on, and the core's rule and the leaf's are installed, 30 seconds idle and 60 in all |
| `Routing.OthersAreNotRouted` | controller.py:427-435 | one whose TTL expires is answered with time exceeded (11, 0), one that cannot reach the core goes nowhere |
| `Probing.UnknownHostsAreAskedFor` | controller.py:444-453 | in every run the first packet for a host with no known place puts one ARP request, in the name of the zone's gateway, on every core port of the zone and on no other, waits, and sets the timer one second on |
| `Probing.LaterPacketsWaitInLine` | controller.py:453 | in every run later ones wait behind it, and nothing is sent |
| `Probing.TicksAskAgain` | controller.py:466-467 | in every run a tick below three rounds sends one more such round and sets the timer one second on |
| `Probing.TheLastTickAnswersEverybody` | controller.py:459-465 | in every run the tick after the third round puts one host-unreachable error per waiting packet on the wire, in order, and removes entry and timer |
| `Probing.RoundsAreOnTheWire` | controller.py:444-467 | in every reachable state the retry count of an entry is the number of rounds that went out for it, each a second or more after the one before |
| `Probing.GivenUpAfterThreeRounds` | controller.py:459-465 | a host is given up only after exactly three rounds on the wire, three seconds or more after the first |
| `Probing.SwitchesStayConnected` | controller.py:186-187 | in every reachable state the controller talks to exactly the switches that have connected |
| `Probing.EveryPacketInIsOfAKind` | controller.py:193-212 | every packet-in is of one of the kinds whose effect these results state |
| `Floods.BlockedInstallsADropRule` | controller.py:341-345 | a refused packet has exactly one effect on the switches: its drop rule, of 10 and 30 seconds |
| `Floods.MadeRulesStay` | controller.py:103-116 | any rule stays as it was made, but for when it last took a packet, until the controller sees a packet that may replace it |
| `Floods.TheRuleStays` | controller.py:110-116 | until the controller sees the match again, the drop rule stays as installed, whatever else comes, refused packets of the same header at other switches included |
| `Floods.SightingsAreFarApart` | controller.py:110-116 | sightings of a blocked match are 10 seconds apart, 30 if the rule is kept busy |
| `Floods.FloodsAreBounded` | controller.py:110-116 | at most floor(T/10)+1 sightings in T seconds, floor(T/30)+1 for a steady flood |
| `RunLog.EveryCheckHasItsPacket` | controller.py:338-341 | every check in a run was made for a packet that came to the controller in it, with its clock readings |
| `RunLog.StepsLog` | controller.py:193-212 | a step adds to the firewall's records nothing, a sweep, or the check of the packet that arrived |
| `KeepAlive.LiveEntriesLast` | conntrack.py:82-84 | an entry not idle at a time survives everything before it |
| `KeepAlive.AliveAfterRefusal` | conntrack.py:90-97 | an entry alive after its replies, of any tracked kind, were refused was stamped since |
| `KeepAlive.RuleWasChecked` | controller.py:379-425 | a rule that takes a tracked packet stems from a check of its very flow, under 30 seconds ago if it drops and under 60 if it routes, when nothing that hides the flow came |
| `KeepAlive.DropRulesSpareAllowedPackets` | controller.py:379-386 | no drop rule ever takes an IP packet the policy allows |
| `KeepAlive.AllowedPacketsGetThrough` | controller.py:338-347 | every honest IP packet of an allowed direction gets through, by rule or by check |
| `KeepAlive.RepliesGetThrough` | conntrack.py:90-97 | an honest packet that can be a reply and comes to the controller gets through if the entry it answers is alive at the reading |
| `KeepAlive.ThroughPacketsKeepTheConnection` | conntrack.py:30-34 | after a packet gets through, by rule or check, its entry is alive for 60 seconds less the controller's delay |
| `KeepAlive.BusyConnectionsStayTracked` | conntrack.py:30-34 | an allowed direction (TCP, UDP or echo requests) with gaps under 60 seconds keeps its entry alive in every state, however few packets the controller sees and whatever rules carry them, while nothing that hides it comes to the controller |
| `KeepAlive.ReplyKeepsTheConnection` | conntrack.py:90-97 | one reply to an alive entry keeps it alive for 60 seconds less twice the delay, even if a leftover drop rule takes it |
| `KeepAlive.RepliesKeepTheConnection` | conntrack.py:90-97 | replies alone (TCP, UDP or echo replies) keep the entry they answer alive in every state, given only that it was alive when the first arrived and that nothing that hides them comes to the controller |
| `Hiding.HidersHideOpeners` | controller.py:349-366 | for each kind of hiding packet a run in which two of them make the controller forget an allowed connection whose gaps stay under a minute |
| `Hiding.HidersHideReplies` | controller.py:349-366 | the same for replies to a direction the policy allows, pings included |
| `Hiding.OpenersTrackedIffNothingHides` | conntrack.py:30-34 | an allowed TCP, UDP or echo flow stays tracked in every run if and only if neither unparsed packets of its hosts nor, for a ping, those of other pings may come to the controller |
| `Hiding.RepliesTrackedIffNothingHides` | conntrack.py:90-97 | replies the policy blocks on their own keep their connection tracked in every run if and only if the same holds in their direction |
| `Hiding.SilenceClosesIffNoOtherEchoes` | conntrack.py:30-34 | after 120 silent seconds a blocked packet of the connection goes nowhere in every run, if and only if no replies of other pings between its hosts may come to the controller; a TCP or UDP connection is always closed |
| `Hiding.UncheckedPortsCanPass` | controller.py:394-402 | a run in which the core sends a packet whose ports no check ever saw |
| `Hiding.PortsCheckedIffParsed` | controller.py:394-402 | between two hosts everything the core sends was checked with its own ports (ICMP: type and code), in every run, if and only if no unparsed packet between them may come to the controller |
| `Silence.SilentRepliesAreRefused` | conntrack.py:30-34 | after 120 silent seconds the table refuses a blocked reply of any tracked kind |
| `Silence.SilentRulesDrop` | controller.py:107-108 | after 120 silent seconds any rule that takes a blocked packet of the connection drops it, when no reply of another ping came |
| `Silence.SilentConnectionsAreClosed` | conntrack.py:30-34 | then a blocked packet of the connection goes nowhere: neither rule nor controller sends anything for it |
| `Broadcast.BroadcastsAreFlooded` | controller.py:193-266 | in any state and at any switch a broadcast, ARP between hosts included, is flooded if its sender may send it, and otherwise only teaches where it came from |
| `Broadcast.BroadcastsMeetNoRule` | controller.py:522-533 | no rule ever takes a broadcast, ARP included |
| `Broadcast.CoreSends` | controller.py:536-541 | the core puts one copy of an honest broadcast on each other port of the zone, none elsewhere |
| `Broadcast.TrailsAreShort` | controller.py:535-548 | flooding ends within three switch hops |
| `Broadcast.TrailsStayInTheZone` | controller.py:535-548 | no copy leaves any switch through a port outside the sender's zone, plugged or not |
| `Broadcast.BroadcastIsExact` | controller.py:535-548 | a host's broadcast reaches another host of the layout if and only if the host may send it and the other is in its zone, by one way, once |
| `Broadcast.BroadcastsReallyArrive` | controller.py:264-266 | the same of what the handlers send in whatever states they are in at each hop: an ARP request for another host reaches exactly the hosts of its zone, one copy each |
| `Backends.BackendsAreInterchangeable` | controller.py:166-182 | any run is, state for state, a run of the pure-Python firewall |
| `Backends.SpoofCheckIsNeeded` | controller.py:310-313 | on a concrete sound configuration a spoofed packet is passed by the daemon and refused by Python; the check drops it before either is asked |
| `Sweeps.StepTwins` | controller.py:158-159 | networks that differ only in entries no longer alive can do the same and stay so, and where the one sweeps the other can wait |
| `Sweeps.SweepsChangeNothing` | controller.py:158-159 | for every run there is one without any sweep that sends the same frames and keeps the same rules at the same times |
| `Sweeps.SweepsFreeIdleEntries` | conntrack.py:99-104 | in every run a sweep removes exactly the entries idle for 120 seconds at their reading |
| `Deployment.Deploy` | controller.py:83-101 | start-up from accepted files gives a sound configuration; it is refused only for a fault in them |
| `Deployment.DeployedConfigIsOk` | network.py:3-8 | every deployment meets what the handlers rely on |
| `Deployment.DeployedDaemonAgrees` | firewall_rules.py:111-121 | in every deployment the daemon gives the policy's verdict |
| `Deployment.BlockAllBothWaysIsolates` | firewall_rules.py:117-118 | two zones with all IP blocked both ways in the policy file never exchange an IP packet in any run |
| `Deployment.BlockIcmpBothWaysIsolatesIcmp` | firewall_rules.py:119-120 | the same for ICMP, blocked by rules of either kind |
| `Deployment.IsolatedIffTheFileBlocksBothWays` | firewall_rules.py:111-121 | for hosts of an accepted layout in different zones: no run sends that kind of packet from the one zone to the other if and only if the policy file blocks it both ways |
| `Deployment.HostsAreInTheirZone` | network.py:83-109 | every host's address passes the check at its core-side port, which lies in its zone |
| `Deployment.SourceCheckIsThePolicys` | firewall_rules.py:96-108 | the controller's anti-spoofing check is the policy's |
| `Deployment.HostsPassTheSpoofCheck` | network.py:83-109 | every host passes the check where it is plugged in, and only with addresses of its own zone |
| `Deployment.GatewaysAreThePolicys` | firewall_rules.py:50-58 | a zone's gateway has the address and the MAC the policy file gives it |
| `Deployment.OnlyGatewaysAreGateways` | controller.py:245-246 | no other address counts as a gateway's |
| `Deployment.HostsLearnTheirGateway` | controller.py:248-256 | in every run of a deployment a host that asks for its gateway is told, at its own port, the MAC in the policy file |
| `Deployment.WireAnswersAreThePolicys` | controller.py:171-176 | what is_allowed returns over any interleaving is what Python says about the packet's zones, with the reason |

## Left out

- POX, Mininet, Open vSwitch, real sockets, threads, signals, JSON reading, logging, file writing and the Makefile: the loaders start from parsed values, and streams are byte sequences read and written in arbitrary pieces.
- The text of the generated C++ header: it is modelled as its tables. At most 255 zones, so that the 8-bit enumeration has room for `Unknown`.
- IPv6, VLAN tags, ToS, fragments and IP options; checksums and the byte layout of ICMP errors, which quote the whole packet here.
- The `zones` argument of `load_network`: `_load_hosts` uses the global table whatever is passed (network.py:91), so one table is used throughout.
- `Layout.LoadNetwork`: its errors name only the stage that refused the file, not the message.
- `pending` and `ip_to_loc` are not claimed to be disjoint: a host's own packets fill the one without draining the other.
- Unicast forwarding within a zone at the core is not claimed to stay within the zone at layer 2, since MAC tables carry no zone; routing and isolation are stated by IP address.
- `FastPath.RulesRefineForwardIp`: installed ICMP rules match type and code but not the echo identifier.
- Time inside a step: a packet-in takes the clock from its arrival to `c.u`, and the switches carry out what the controller sent at that moment; the 60-second bounds of `Isolation`, `Lateness` and `Hiding` are counted from there, so transmission and rule installation are instantaneous.
- Sending a frame back out of the port it came in through: the model sends it if that is the port learned for its destination, where OpenFlow 1.0.0 (section 5.2.1) wants a reserved port number for it.
- `Offload.LeavesCarryConnections`: takes packets POX could parse, and no unparsed packet of their hosts in between, so that one rule takes them all; `Offload.LiveRulesTakeWhatComes` needs neither.
- `Floods.FloodsAreBounded`: takes rule installation as instantaneous, at the end of the handler, and counts consecutive refused sightings of one match.
- `KeepAlive.BusyConnectionsStayTracked`: subtracts from the gap the longest time the controller takes from a packet's check to the end of handling it; `KeepAlive.RepliesKeepTheConnection` twice the longest from its arrival, because a reply is stamped after it arrives and before its rule is installed.
- `ZoneRouter.ZoneRouter.AskDaemon`: is told whether the daemon can be reached; `Wire` and `Session` model the exchange itself.
- Agreement of a drop rule with a later check while the rule lasts: only its lifetime is bounded.
- `topology.py`, the benchmark and test scripts and Docker: wiring and measurement only.
