/** Client and daemon running at the same time: calls, short reads and writes at both ends, daemon
    threads of abandoned connections still running, and failures at any point. */
module Session {
  import opened Common
  import opened Daemon
  import opened Wire

  /** One stream connection and the daemon thread that serves it. The thread has read the complete
      requests `served` and then `partial`; it has written `written` and has `unwritten` to go. */
  datatype Conn = Conn(
    toDaemon: seq<Byte>, served: seq<Byte>, partial: seq<Byte>,
    unwritten: seq<Byte>, written: seq<Byte>, toClient: seq<Byte>, open: bool)

  /** A call of is_allowed in progress. */
  datatype Call = Call(request: Request, unsent: seq<Byte>, received: seq<Byte>)

  /** What a call returned: the response bytes, or None for an OSError. */
  datatype Outcome = Outcome(request: Request, response: Option<seq<Byte>>)

  datatype World = World(conns: seq<Conn>, current: Option<nat>, call: Option<Call>, outcomes: seq<Outcome>)

  const INITIAL := World([], None, None, [])

  datatype Step =
    | Begin(request: Request)          // is_allowed is called; reuses the socket or connects
    | CannotConnect(request: Request)  // is_allowed is called without a socket and connect fails
    | ClientSends(n: nat)              // sendall moves n more bytes
    | ClientReceives(n: nat)           // recv returns n bytes
    | Return                           // the response is complete
    | Fail                             // any OSError during the exchange: forget the socket
    | DaemonReads(c: nat, n: nat)      // read() returns n bytes; a full request is decided at once
    | DaemonWrites(c: nat, n: nat)     // write() takes n bytes
    | DaemonCloses(c: nat)             // the thread ends, or the whole daemon dies

  ghost predicate Enabled(w: World, s: Step) {
    match s
    case Begin(_) => w.call.None?
    case CannotConnect(_) => w.call.None? && w.current.None?
    case ClientSends(n) => w.call.Some? && w.current.Some? && w.current.value < |w.conns| && 0 < n <= |w.call.value.unsent|
    case ClientReceives(n) =>
      && w.call.Some? && w.call.value.unsent == [] && w.current.Some? && w.current.value < |w.conns|
      && 0 < n <= RESPONSE_SIZE - |w.call.value.received| && n <= |w.conns[w.current.value].toClient|
    case Return => w.call.Some? && |w.call.value.received| == RESPONSE_SIZE
    case Fail => w.call.Some?
    case DaemonReads(c, n) =>
      && c < |w.conns| && w.conns[c].open && w.conns[c].unwritten == []
      && 0 < n <= |w.conns[c].toDaemon| && |w.conns[c].partial| + n <= REQUEST_SIZE
    case DaemonWrites(c, n) => c < |w.conns| && w.conns[c].open && 0 < n <= |w.conns[c].unwritten|
    case DaemonCloses(c) => c < |w.conns|
  }

  const NEW_CONN := Conn([], [], [], [], [], [], true)

  function AfterDaemonReads(h: Header, c: Conn, n: nat): Conn
    requires TablesReadable(h) && n <= |c.toDaemon|
  {
    var partial := c.partial + c.toDaemon[..n];
    var moved := c.(toDaemon := c.toDaemon[n..]);
    if |partial| == REQUEST_SIZE then moved.(served := c.served + partial, partial := [], unwritten := Serve(h, partial))
    else moved.(partial := partial)
  }

  function Apply(h: Header, w: World, s: Step): World
    requires TablesReadable(h) && Enabled(w, s)
  {
    match s
    case Begin(q) =>
      var call := Some(Call(q, Pack(q), []));
      if w.current.Some? then w.(call := call)
      else w.(conns := w.conns + [NEW_CONN], current := Some(|w.conns|), call := call)
    case CannotConnect(q) => w.(outcomes := w.outcomes + [Outcome(q, None)])
    case ClientSends(n) =>
      var c, call := w.conns[w.current.value], w.call.value;
      w.(conns := w.conns[w.current.value := c.(toDaemon := c.toDaemon + call.unsent[..n])],
         call := Some(call.(unsent := call.unsent[n..])))
    case ClientReceives(n) =>
      var c, call := w.conns[w.current.value], w.call.value;
      w.(conns := w.conns[w.current.value := c.(toClient := c.toClient[n..])],
         call := Some(call.(received := call.received + c.toClient[..n])))
    case Return => w.(call := None, outcomes := w.outcomes + [Outcome(w.call.value.request, Some(w.call.value.received))])
    case Fail => w.(call := None, current := None, outcomes := w.outcomes + [Outcome(w.call.value.request, None)])
    case DaemonReads(c, n) => w.(conns := w.conns[c := AfterDaemonReads(h, w.conns[c], n)])
    case DaemonWrites(c, n) =>
      var d := w.conns[c];
      w.(conns := w.conns[c := d.(unwritten := d.unwritten[n..], written := d.written + d.unwritten[..n],
                                  toClient := d.toClient + d.unwritten[..n])])
    case DaemonCloses(c) => w.(conns := w.conns[c := w.conns[c].(open := false)])
  }

  // --- Invariant -------------------------------------------------------------------------------

  /** Everything written answers the complete requests read. */
  ghost predicate Served(h: Header, c: Conn)
    requires TablesReadable(h)
  {
    && |c.partial| < REQUEST_SIZE && |c.served| % REQUEST_SIZE == 0
    && c.written + c.unwritten == ServeAll(h, c.served)
  }

  ghost predicate Quiet(c: Conn) {
    c.toDaemon == [] && c.partial == [] && c.unwritten == [] && c.toClient == []
  }

  /** The current connection carries nothing but the current call: either part of its request, or
      its response. */
  ghost predicate InStep(h: Header, c: Conn, call: Call)
    requires TablesReadable(h)
  {
    || (&& c.partial + c.toDaemon + call.unsent == Pack(call.request)
        && |c.partial| < REQUEST_SIZE
        && c.unwritten == [] && c.toClient == [] && call.received == [])
    || (&& call.unsent == [] && c.partial == [] && c.toDaemon == []
        && call.received + c.toClient + c.unwritten == Serve(h, Pack(call.request)))
  }

  /** The decision the daemon makes on a request, as response bytes. */
  function DecisionBytes(h: Header, q: Request): seq<Byte>
    requires TablesReadable(h)
  {
    PackResponse(Answer(h, q.src, q.dst, q.protocol))
  }

  ghost predicate Inv(h: Header, w: World)
    requires TablesReadable(h)
  {
    && (forall c :: 0 <= c < |w.conns| ==> Served(h, w.conns[c]))
    && (w.current.Some? ==> w.current.value < |w.conns|)
    && (w.call.Some? ==> w.current.Some? && InStep(h, w.conns[w.current.value], w.call.value))
    && (w.call.None? && w.current.Some? ==> Quiet(w.conns[w.current.value]))
    && (forall i :: 0 <= i < |w.outcomes| && w.outcomes[i].response.Some? ==>
          w.outcomes[i].response.value == DecisionBytes(h, w.outcomes[i].request))
  }

  lemma OneMoreRequest(n: nat)
    ensures (n + REQUEST_SIZE) % REQUEST_SIZE == n % REQUEST_SIZE
  {
  }

  lemma DaemonReadsKeepsServed(h: Header, c: Conn, n: nat)
    requires TablesReadable(h) && Served(h, c) && c.unwritten == []
    requires 0 < n <= |c.toDaemon| && |c.partial| + n <= REQUEST_SIZE
    ensures Served(h, AfterDaemonReads(h, c, n))
  {
    assert c.written + c.unwritten == c.written;
    var b := c.partial + c.toDaemon[..n];
    if |b| == REQUEST_SIZE {
      ServeAllOneMore(h, c.served, |c.served| / REQUEST_SIZE, b);
      OneMoreRequest(|c.served|);
    } else {
      assert AfterDaemonReads(h, c, n).unwritten == c.unwritten;
    }
  }

  lemma DaemonReadsKeepsInStep(h: Header, c: Conn, n: nat, call: Call)
    requires TablesReadable(h) && InStep(h, c, call) && c.unwritten == []
    requires 0 < n <= |c.toDaemon| && |c.partial| + n <= REQUEST_SIZE
    ensures InStep(h, AfterDaemonReads(h, c, n), call)
  {
    var b, rest := c.partial + c.toDaemon[..n], c.toDaemon[n..];
    assert c.partial + c.toDaemon + call.unsent == b + rest + call.unsent;
    if |b| == REQUEST_SIZE {
      assert b == Pack(call.request) && rest == [] && call.unsent == [];
      assert [] + [] + Serve(h, b) == Serve(h, b);
    }
  }

  lemma DaemonWritesKeepsServed(h: Header, c: Conn, n: nat, d: Conn)
    requires TablesReadable(h) && Served(h, c) && 0 < n <= |c.unwritten|
    requires d == c.(unwritten := c.unwritten[n..], written := c.written + c.unwritten[..n], toClient := d.toClient)
    ensures Served(h, d)
  {
  }

  lemma DaemonWritesKeepsInStep(h: Header, c: Conn, n: nat, d: Conn, call: Call)
    requires TablesReadable(h) && InStep(h, c, call) && 0 < n <= |c.unwritten|
    requires d == c.(unwritten := c.unwritten[n..], written := d.written, toClient := c.toClient + c.unwritten[..n])
    ensures InStep(h, d, call)
  {
  }

  lemma DaemonStepKeepsInv(h: Header, w: World, s: Step)
    requires TablesReadable(h) && Inv(h, w) && Enabled(w, s)
    requires s.DaemonReads? || s.DaemonWrites? || s.DaemonCloses?
    ensures Inv(h, Apply(h, w, s))
  {
    var w' := Apply(h, w, s);
    if s.DaemonReads? {
      DaemonReadsKeepsServed(h, w.conns[s.c], s.n);
      if w.call.Some? && w.current.value == s.c {
        DaemonReadsKeepsInStep(h, w.conns[s.c], s.n, w.call.value);
      }
    } else if s.DaemonWrites? {
      DaemonWritesKeepsServed(h, w.conns[s.c], s.n, w'.conns[s.c]);
      if w.call.Some? && w.current.value == s.c {
        DaemonWritesKeepsInStep(h, w.conns[s.c], s.n, w'.conns[s.c], w.call.value);
      }
    }
  }

  lemma ClientSendsKeepsInStep(h: Header, c: Conn, call: Call, n: nat)
    requires TablesReadable(h) && InStep(h, c, call) && 0 < n <= |call.unsent|
    ensures InStep(h, c.(toDaemon := c.toDaemon + call.unsent[..n]), call.(unsent := call.unsent[n..]))
  {
  }

  lemma ClientReceivesKeepsInStep(h: Header, c: Conn, call: Call, n: nat)
    requires TablesReadable(h) && InStep(h, c, call) && 0 < n <= |c.toClient|
    ensures InStep(h, c.(toClient := c.toClient[n..]), call.(received := call.received + c.toClient[..n]))
  {
  }

  lemma ClientStepKeepsInv(h: Header, w: World, s: Step)
    requires TablesReadable(h) && Inv(h, w) && Enabled(w, s)
    requires s.ClientSends? || s.ClientReceives?
    ensures Inv(h, Apply(h, w, s))
  {
    if s.ClientSends? {
      ClientSendsKeepsInStep(h, w.conns[w.current.value], w.call.value, s.n);
    } else {
      ClientReceivesKeepsInStep(h, w.conns[w.current.value], w.call.value, s.n);
    }
  }

  lemma CallStepKeepsInv(h: Header, w: World, s: Step)
    requires TablesReadable(h) && Inv(h, w) && Enabled(w, s)
    requires s.Begin? || s.CannotConnect? || s.Return? || s.Fail?
    ensures Inv(h, Apply(h, w, s))
  {
    if s.Return? {
      var c, call := w.conns[w.current.value], w.call.value;
      UnpackOfPack(call.request);
      assert |call.received + c.toClient + c.unwritten| == RESPONSE_SIZE;
      assert c.toClient == [] && c.unwritten == [] && call.received == Serve(h, Pack(call.request));
    } else if s.Begin? {
      assert [] + [] + Pack(s.request) == Pack(s.request);
    }
  }

  // --- Whole runs ------------------------------------------------------------------------------

  ghost predicate IsRun(h: Header, steps: seq<Step>, worlds: seq<World>)
    requires TablesReadable(h)
  {
    && |worlds| == |steps| + 1 && worlds[0] == INITIAL
    && forall i :: 0 <= i < |steps| ==> Enabled(worlds[i], steps[i]) && worlds[i + 1] == Apply(h, worlds[i], steps[i])
  }

  lemma {:induction false} RunKeepsInv(h: Header, steps: seq<Step>, worlds: seq<World>, i: nat)
    requires TablesReadable(h) && IsRun(h, steps, worlds) && i < |worlds|
    ensures Inv(h, worlds[i])
  {
    if i > 0 {
      RunKeepsInv(h, steps, worlds, i - 1);
      var w, s := worlds[i - 1], steps[i - 1];
      match s {
        case DaemonReads(_, _) | DaemonWrites(_, _) | DaemonCloses(_) => DaemonStepKeepsInv(h, w, s);
        case ClientSends(_) | ClientReceives(_) => ClientStepKeepsInv(h, w, s);
        case _ => CallStepKeepsInv(h, w, s);
      }
    }
  }

  /** Whatever the chunking, the interleaving and the failures, every value is_allowed returns is
      the daemon's decision on that call's own request. */
  lemma EveryAnswerIsToItsOwnRequest(h: Header, steps: seq<Step>, worlds: seq<World>, i: nat, k: nat)
    requires TablesReadable(h) && IsRun(h, steps, worlds) && i < |worlds|
    requires k < |worlds[i].outcomes| && worlds[i].outcomes[k].response.Some?
    ensures var o := worlds[i].outcomes[k];
            o.response.value == PackResponse(Answer(h, o.request.src, o.request.dst, o.request.protocol))
  {
    RunKeepsInv(h, steps, worlds, i);
  }

  /** On every connection, current or abandoned, the bytes the daemon has written answer complete
      requests only: a partial request gets no response. */
  lemma PartialRequestsGetNoResponse(h: Header, steps: seq<Step>, worlds: seq<World>, i: nat, c: nat)
    requires TablesReadable(h) && IsRun(h, steps, worlds) && i < |worlds| && c < |worlds[i].conns|
    ensures var d := worlds[i].conns[c];
            d.written <= ServeAll(h, d.served + d.partial)
            && |d.written| <= RESPONSE_SIZE * (|d.served + d.partial| / REQUEST_SIZE)
  {
    RunKeepsInv(h, steps, worlds, i);
    var d := worlds[i].conns[c];
    PartialRequestIsNotServed(h, d.served, |d.served| / REQUEST_SIZE, d.partial);
    ServeAllLength(h, d.served + d.partial);
  }

  lemma {:induction false} ServeAllLength(h: Header, input: seq<Byte>)
    requires TablesReadable(h)
    ensures |ServeAll(h, input)| == RESPONSE_SIZE * (|input| / REQUEST_SIZE)
  {
    if |input| >= REQUEST_SIZE {
      ServeAllLength(h, input[REQUEST_SIZE..]);
    }
  }

  /** A call never starts with bytes of an earlier exchange waiting: the connection it uses is
      either new or completely quiet. */
  lemma NoStaleBytes(h: Header, steps: seq<Step>, worlds: seq<World>, i: nat)
    requires TablesReadable(h) && IsRun(h, steps, worlds) && i < |steps| && steps[i].Begin?
    ensures var w := worlds[i + 1];
            w.current.Some? && w.current.value < |w.conns|
            && w.conns[w.current.value].toClient == [] && w.conns[w.current.value].unwritten == []
            && w.conns[w.current.value].toDaemon == [] && w.conns[w.current.value].partial == []
  {
    RunKeepsInv(h, steps, worlds, i);
  }

  // --- The loops themselves --------------------------------------------------------------------

  /** The contracts of the two loops compose to the same. After `n` calls that sent the bytes `sent` and
      read the first `2n` bytes back, IsAllowed sends one more request and reads the next two bytes;
      HandleClient sends a prefix of its answers to `all` it receives, which starts with these. So those
      two bytes are the decision on that very request. */
  lemma TheLoopsStayInStep(h: Header, sent: seq<Byte>, n: nat, q: Request, all: seq<Byte>, output: seq<Byte>)
    requires TablesReadable(h) && |sent| == n * REQUEST_SIZE && sent + Pack(q) <= all
    requires output <= ServeAll(h, all) && RESPONSE_SIZE * n + RESPONSE_SIZE <= |output|
    ensures output[RESPONSE_SIZE * n..][..RESPONSE_SIZE] == DecisionBytes(h, q)
  {
    var rest := all[|sent| + REQUEST_SIZE..];
    assert all == sent + (Pack(q) + rest);
    var before := NextAnswer(h, sent, n, q, rest);
    NextBytes(output, before, DecisionBytes(h, q), ServeAll(h, rest));
  }

  lemma NextAnswer(h: Header, sent: seq<Byte>, n: nat, q: Request, rest: seq<Byte>) returns (before: seq<Byte>)
    requires TablesReadable(h) && |sent| == n * REQUEST_SIZE
    ensures |before| == RESPONSE_SIZE * n && ServeAll(h, sent + (Pack(q) + rest)) == before + (DecisionBytes(h, q) + ServeAll(h, rest))
  {
    before := ServeAll(h, sent);
    ServeAllConcatenates(h, sent, n, Pack(q) + rest);
    ServeAllFirst(h, Pack(q), rest);
    ServeAllLength(h, sent);
    UnpackOfPack(q);
  }

  lemma NextBytes(output: seq<Byte>, before: seq<Byte>, next: seq<Byte>, after: seq<Byte>)
    requires output <= before + (next + after) && |before| + |next| <= |output|
    ensures output[|before|..][..|next|] == next
  {
    assert output == (before + (next + after))[..|output|];
  }

  /** The client is on a new connection, or on one where `n` calls have sent `sent` and read their answers. */
  ghost predicate AfterCalls(client: FirewallClient, sent: seq<Byte>, n: nat)
    reads client, if client.sock == null then {} else {client.sock}
  {
    && |sent| == n * REQUEST_SIZE
    && if client.sock == null then n == 0
       else client.sock.outgoing == sent && RESPONSE_SIZE * n <= |client.sock.stream|
            && client.sock.incoming == client.sock.stream[RESPONSE_SIZE * n..]
  }

  function DecisionOn(h: Header, q: Request): (bool, Byte)
    requires TablesReadable(h)
  {
    (Answer(h, q.src, q.dst, q.protocol).verdict == ALLOW, Answer(h, q.src, q.dst, q.protocol).ruleId)
  }

  function Decisions(h: Header, qs: seq<Request>): seq<(bool, Byte)>
    requires TablesReadable(h)
  {
    seq(|qs|, i requires 0 <= i < |qs| => DecisionOn(h, qs[i]))
  }

  lemma DecisionAt(h: Header, sent: seq<Byte>, n: nat, q: Request, all: seq<Byte>, output: seq<Byte>)
    requires TablesReadable(h) && |sent| == n * REQUEST_SIZE && sent + Pack(q) <= all
    requires output <= ServeAll(h, all) && RESPONSE_SIZE * n + RESPONSE_SIZE <= |output|
    ensures DecisionOn(h, q) == (output[RESPONSE_SIZE * n] == ALLOW, output[RESPONSE_SIZE * n + 1])
  {
    TheLoopsStayInStep(h, sent, n, q, all, output);
    TwoBytes(output, RESPONSE_SIZE * n);
    DecisionOfBytes(h, q);
  }

  lemma TwoBytes(output: seq<Byte>, k: nat)
    requires k + RESPONSE_SIZE <= |output|
    ensures output[k..][..RESPONSE_SIZE] == [output[k], output[k + 1]]
  {
  }

  lemma DecisionOfBytes(h: Header, q: Request)
    requires TablesReadable(h)
    ensures |DecisionBytes(h, q)| == RESPONSE_SIZE && DecisionOn(h, q) == (DecisionBytes(h, q)[0] == ALLOW, DecisionBytes(h, q)[1])
  {
  }

  /** One call. If what comes over its connection is what HandleClient sends, having received `all`, then
      the call returns the decision on its own request, on a new connection as on an old one. */
  method Exchange(h: Header, client: FirewallClient, ghost sent: seq<Byte>, ghost n: nat, q: Request, ghost all: seq<Byte>)
    returns (r: Option<(bool, Byte)>)
    requires TablesReadable(h) && AfterCalls(client, sent, n) && sent + Pack(q) <= all
    modifies client, if client.sock == null then {} else {client.sock}
    ensures r.Some? ==> client.sock != null && AfterCalls(client, sent + Pack(q), n + 1)
    ensures r.Some? ==> if old(client.sock) == null then fresh(client.sock) else client.sock == old(client.sock)
    ensures r.Some? && client.sock.stream <= ServeAll(h, all) ==> r.value == DecisionOn(h, q)
    ensures r.None? ==> client.sock == null
  {
    r := client.IsAllowed(q);
    if r.Some? {
      ghost var output := client.sock.stream;
      assert output[RESPONSE_SIZE * n..][RESPONSE_SIZE..] == output[RESPONSE_SIZE * (n + 1)..];
      if output <= ServeAll(h, all) {
        DecisionAt(h, sent, n, q, all, output);
      }
    }
  }

  /** The first `n` requests, packed. */
  function PackAll(qs: seq<Request>, n: nat): (b: seq<Byte>)
    requires n <= |qs|
    ensures |b| == n * REQUEST_SIZE
  {
    if n == 0 then [] else PackAll(qs, n - 1) + Pack(qs[n - 1])
  }

  lemma {:induction false} PackAllGrows(qs: seq<Request>, k: nat, n: nat)
    requires k <= n <= |qs|
    ensures PackAll(qs, k) <= PackAll(qs, n)
  {
    if k < n {
      PackAllGrows(qs, k, n - 1);
    }
  }

  /** The stream holds the answers, two bytes each, as far as it goes. */
  ghost predicate Spells(stream: seq<Byte>, answers: seq<(bool, Byte)>) {
    forall n :: 0 <= n < |answers| && RESPONSE_SIZE * n + RESPONSE_SIZE <= |stream| ==>
      answers[n] == (stream[RESPONSE_SIZE * n] == ALLOW, stream[RESPONSE_SIZE * n + 1])
  }

  /** One call after another over one connection, until one fails. */
  method CallAll(client: FirewallClient, qs: seq<Request>, ghost expected: seq<(bool, Byte)>) returns (answers: seq<(bool, Byte)>)
    requires client.sock != null && AfterCalls(client, [], 0) && |expected| == |qs| && Spells(client.sock.stream, expected)
    modifies client, client.sock
    ensures answers <= expected
  {
    answers := [];
    for n := 0 to |qs|
      invariant client.sock == old(client.sock) && AfterCalls(client, PackAll(qs, n), n)
      invariant answers == expected[..n]
    {
      var r := client.IsAllowed(qs[n]);
      if r.None? {
        return;
      }
      assert client.sock.incoming == client.sock.stream[RESPONSE_SIZE * (n + 1)..];
      answers := answers + [r.value];
    }
  }

  predicate HasRequest(all: seq<Byte>, qs: seq<Request>, n: nat)
    requires n < |qs|
  {
    PackAll(qs, n) + Pack(qs[n]) <= all
  }

  lemma AllAreRequested(qs: seq<Request>)
    ensures forall n :: 0 <= n < |qs| ==> HasRequest(PackAll(qs, |qs|), qs, n)
  {
    forall n | 0 <= n < |qs| ensures HasRequest(PackAll(qs, |qs|), qs, n) {
      PackAllGrows(qs, n + 1, |qs|);
    }
  }

  /** What the daemon's loop sends, having received the requests, are the decisions on them. */
  lemma TheDaemonSpellsDecisions(h: Header, qs: seq<Request>, all: seq<Byte>, output: seq<Byte>)
    requires TablesReadable(h) && output <= ServeAll(h, all) && forall n :: 0 <= n < |qs| ==> HasRequest(all, qs, n)
    ensures Spells(output, Decisions(h, qs))
  {
    forall n | 0 <= n < |qs| && RESPONSE_SIZE * n + RESPONSE_SIZE <= |output|
      ensures Decisions(h, qs)[n] == (output[RESPONSE_SIZE * n] == ALLOW, output[RESPONSE_SIZE * n + 1])
    {
      assert HasRequest(all, qs, n);
      DecisionAt(h, PackAll(qs, n), n, qs[n], all, output);
    }
  }

  /** The daemon's loop and the client's, end to end: the daemon receives the requests of the calls and
      the client what the daemon then sends. Whatever the chunking and wherever it breaks off, the calls
      that return, in order, return the decisions on their own requests. */
  method Converse(h: Header, qs: seq<Request>) returns (answers: seq<(bool, Byte)>)
    requires TablesReadable(h)
    ensures answers <= Decisions(h, qs)
  {
    var all := PackAll(qs, |qs|);
    AllAreRequested(qs);
    var daemon := new Socket(all);
    HandleClient(h, daemon);
    TheDaemonSpellsDecisions(h, qs, all, daemon.outgoing);
    var client := new FirewallClient();
    client.sock := new Socket(daemon.outgoing);
    answers := CallAll(client, qs, Decisions(h, qs));
  }
}
