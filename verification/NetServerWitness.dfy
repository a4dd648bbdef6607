/**
 A run in which a pending entry outlives its client record: the response thread drops a
 connection that the listen thread is closing, and creates the erased entry again.
 */
module NetServerWitness {
  import opened PendingTable
  import opened NetServer
  import opened NetServerTheorems

  ghost predicate Reachable(s: State) {
    exists r :: IsRun(r) && r[|r| - 1] == s
  }

  // equality, one collection at a time
  predicate Same(s: State, s': State) {
    && s.ids == s'.ids && s.fds == s'.fds && s.nextSock == s'.nextSock && s.pipe == s'.pipe
    && s.clients.info == s'.clients.info && s.clients.lastIdent == s'.clients.lastIdent
       && s.clients.home == s'.clients.home
    && s.pending == s'.pending
    && s.l.pc == s'.l.pc && s.l.master == s'.l.master && s.l.working == s'.l.working && s.l.paused == s'.l.paused
    && s.l.maxSd == s'.l.maxSd && s.l.framers == s'.l.framers
    && s.t.requests == s'.t.requests && s.t.handlers == s'.t.handlers && s.t.responses == s'.t.responses
    && s.rpc == s'.rpc && s.sent == s'.sent
  }

  lemma Extend(s: State, a: Step, s': State)
    requires Reachable(s) && Enabled(s, a) && Same(Do(s, a), s')
    ensures Reachable(s')
  {
    hide Init, Do, Enabled;
    var r :| IsRun(r) && r[|r| - 1] == s;
    var r' := r + [s'];
    forall i | 0 <= i < |r'| - 1
      ensures Next(r'[i], r'[i + 1])
    {
      if i < |r| - 1 {
        assert Next(r[i], r[i + 1]);
      }
    }
    assert IsRun(r');
  }

  lemma Single(s: State)
    requires Init(s)
    ensures Reachable(s)
  {
    assert IsRun([s]);
  }

  const IDS := Ids(3, 4, 5)
  const NO_TRAFFIC := Traffic([], multiset{}, [])
  const ONE := Pending(1, false, false, 0, 0)

  // the server before and after its first client, fd 6 with connection id 1
  function Empty(pc: ListenPc, working: set<int>): State {
    State(IDS, map[3 := Listening, 4 := WakeRead, 5 := WakeWrite], 0, 0, Clients(map[], 0, map[]), map[],
          Listener(pc, {3, 4}, working, {}, 4, map[]), NO_TRAFFIC, Idle, [])
  }

  function Joining(k: Clients, pc: ListenPc): State {
    State(IDS, map[3 := Listening, 4 := WakeRead, 5 := WakeWrite, 6 := Conn(0)], 1, 0, k, map[],
          Listener(pc, {3, 4}, {}, {}, 4, map[]), NO_TRAFFIC, Idle, [])
  }

  function Serving(pc: ListenPc, working: set<int>, rpc: ResponsePc, t: Traffic, messages: nat, pending: Table): State {
    State(IDS, map[3 := Listening, 4 := WakeRead, 5 := WakeWrite, 6 := Conn(0)], 1, 0,
          Clients(map[6 := 1], 1, map[1 := Home(6, 0)]), pending,
          Listener(pc, {3, 4, 6}, working, {}, 6, map[6 := messages]), t, rpc, [])
  }

  lemma Accepts()
    ensures Reachable(Joining(Clients(map[], 0, map[]), Accepted(6)))
  {
    hide Reachable;
    Single(Empty(Select, {}));
    Extend(Empty(Select, {}), Loop(Ready({3})), Empty(Scan, {3}));
    Extend(Empty(Scan, {3}), Loop(Incoming), Empty(Accept, {}));
    Extend(Empty(Accept, {}), Loop(AcceptNew(6)), Joining(Clients(map[], 0, map[]), Accepted(6)));
  }

  lemma Connects()
    ensures Reachable(Serving(Accept, {}, Idle, NO_TRAFFIC, 0, map[]))
  {
    hide Reachable;
    Accepts();
    var s0 := Joining(Clients(map[], 0, map[]), Accepted(6));
    var s1 := Joining(Clients(map[6 := 1], 1, map[1 := Home(6, 0)]), Registered(6));
    Extend(s0, Loop(Register), s1);
    Extend(s1, Loop(Attach), Serving(Accept, {}, Idle, NO_TRAFFIC, 0, map[]));
  }

  lemma Reads()
    ensures Reachable(Serving(Queue(6, FromRecv(false)), {}, Idle, NO_TRAFFIC, 1, map[]))
  {
    hide Reachable;
    Connects();
    var s0, s1 := Serving(Accept, {}, Idle, NO_TRAFFIC, 0, map[]), Serving(Scan, {}, Idle, NO_TRAFFIC, 0, map[]);
    var s2, s3 := Serving(Select, {}, Idle, NO_TRAFFIC, 0, map[]), Serving(Scan, {6}, Idle, NO_TRAFFIC, 0, map[]);
    var s4 := Serving(Recv(6), {}, Idle, NO_TRAFFIC, 0, map[]);
    Extend(s0, Loop(AcceptNone), s1);
    Extend(s1, Loop(ScanEnd), s2);
    Extend(s2, Loop(Ready({6})), s3);
    Extend(s3, Loop(Readable(6)), s4);
    Extend(s4, Data(RecvData(1, false)), Serving(Queue(6, FromRecv(false)), {}, Idle, NO_TRAFFIC, 1, map[]));
  }

  lemma Queues()
    ensures Reachable(Serving(Recv(6), {}, Idle, Traffic([], multiset{Req(6, 1)}, []), 0, map[1 := ONE]))
  {
    hide Reachable;
    Reads();
    var recv, put, handed := FromRecv(false),
        Traffic([Req(6, 1)], multiset{}, []), Traffic([], multiset{Req(6, 1)}, []);
    var s0 := Serving(Queue(6, recv), {}, Idle, NO_TRAFFIC, 1, map[]);
    var s1 := Serving(QueueLoop(6, recv), {}, Idle, NO_TRAFFIC, 1, map[]);
    var s2 := Serving(QueueTake(6, recv), {}, Idle, NO_TRAFFIC, 1, map[1 := ONE]);
    var s3 := Serving(QueueLoop(6, recv), {}, Idle, put, 0, map[1 := ONE]);
    var s4 := Serving(Notify(6, false, recv), {}, Idle, put, 0, map[1 := ONE]);
    var s5 := Serving(Notify(6, false, recv), {}, Idle, handed, 0, map[1 := ONE]);
    var s6 := Serving(Queued(6, false, recv), {}, Idle, handed, 0, map[1 := ONE]);
    Extend(s0, Data(QueueBegin), s1);
    Extend(s1, Data(QueueCount), s2);
    Extend(s2, Data(QueuePut), s3);
    Extend(s3, Data(QueueCount), s4);
    Extend(s4, Data(NotifyOne), s5);
    Extend(s5, Data(NotifyEnd), s6);
    Extend(s6, Data(QueueEnd), Serving(Recv(6), {}, Idle, handed, 0, map[1 := ONE]));
  }

  // the response to that request could not be sent, and the listen thread goes on
  function Failing(pc: ListenPc, rpc: ResponsePc, requests: seq<Req>, messages: nat, e: Pending): State {
    State(IDS, map[3 := Listening, 4 := WakeRead, 5 := WakeWrite, 6 := Conn(0), 7 := Conn(0)], 1, 0,
          Clients(map[6 := 1], 1, map[1 := Home(6, 0)]), map[1 := e],
          Listener(pc, {3, 4, 6}, {}, {}, 6, map[6 := messages]),
              Traffic(requests, multiset{}, []), rpc, [Delivery(1, 0)])
  }

  lemma Answers()
    ensures Reachable(Failing(Recv(6), Dropping(Req(6, 1), 7), [], 0, ONE))
  {
    hide Reachable;
    Queues();
    var r := Req(6, 1);
    var s0 := Serving(Recv(6), {}, Idle, Traffic([], multiset{r}, []), 0, map[1 := ONE]);
    var s1 := Serving(Recv(6), {}, Idle, Traffic([], multiset{}, [r]), 0, map[1 := ONE]);
    var s2 := Serving(Recv(6), {}, Got(r), NO_TRAFFIC, 0, map[1 := ONE]);
    var s3 := Serving(Recv(6), {}, Looking(r), NO_TRAFFIC, 0, map[1 := ONE]);
    Extend(s0, Schedule(r), s1);
    Extend(s1, Respond(Take), s2);
    Extend(s2, Respond(CheckDead), s3);
    var s4 := Failing(Recv(6), Holding(r, 7), [], 0, ONE).(sent := []);
    Extend(s3, Respond(Lookup(7)), s4);
    Extend(s4, Respond(Send(false)), Failing(Recv(6), Dropping(r, 7), [], 0, ONE));
  }

  /** Not every pending entry belongs to a registered connection. */
  lemma EntryOutlivesRecord() returns (s: State)
    ensures Reachable(s) && s.clients.info == map[] && s.pending == map[1 := ORPHAN]
  {
    hide Reachable;
    Answers();
    var s0 := Failing(Recv(6), Dropping(Req(6, 1), 7), [], 0, ONE);
    var s1 := Do(s0, Data(RecvEnd));
    var s2 := Do(s1, Shut(Erase));
    var s3 := Do(s2, Shut(Deregister));
    s := Do(s3, Respond(Drop));
    Extend(s0, Data(RecvEnd), s1);
    Extend(s1, Shut(Erase), s2);
    Extend(s2, Shut(Deregister), s3);
    Extend(s3, Respond(Drop), s);
  }

  // a second batch of requests, read before the connection was dropped and queued after that

  function Requests(n: nat): seq<Req> {
    seq(n, _ => Req(6, 1))
  }

  function Filling(pc: ListenPc, n: nat, messages: nat, e: Pending): State {
    Failing(pc, DropWake(Req(6, 1), 7, false), Requests(n), messages, e)
  }

  lemma ReadsMore()
    ensures Reachable(Failing(QueueLoop(6, FromRecv(false)), Dropping(Req(6, 1), 7), [], 256, ONE))
  {
    hide Reachable;
    Answers();
    var recv, r := FromRecv(false), Dropping(Req(6, 1), 7);
    var s0, s1 := Failing(Recv(6), r, [], 0, ONE), Failing(Queue(6, recv), r, [], 256, ONE);
    Extend(s0, Data(RecvData(256, false)), s1);
    Extend(s1, Data(QueueBegin), Failing(QueueLoop(6, recv), r, [], 256, ONE));
  }

  lemma Begins()
    ensures Reachable(Filling(QueueLoop(6, FromRecv(false)), 0, 256, Pending(1, false, true, 0, 0)))
  {
    hide Reachable;
    ReadsMore();
    assert Requests(0) == [];
    Extend(Failing(QueueLoop(6, FromRecv(false)), Dropping(Req(6, 1), 7), [], 256, ONE), Respond(Drop),
           Filling(QueueLoop(6, FromRecv(false)), 0, 256, Pending(1, false, true, 0, 0)));
  }

  lemma CountsOne(n: nat)
    requires n < 255 && Reachable(Filling(QueueLoop(6, FromRecv(false)), n, 256 - n, Pending(n + 1, false, true, 0, 0)))
    ensures Reachable(Filling(QueueTake(6, FromRecv(false)), n, 256 - n, Pending(n + 2, false, true, 0, 0)))
  {
    hide Reachable, Requests;
    Extend(Filling(QueueLoop(6, FromRecv(false)), n, 256 - n, Pending(n + 1, false, true, 0, 0)), Data(QueueCount),
           Filling(QueueTake(6, FromRecv(false)), n, 256 - n, Pending(n + 2, false, true, 0, 0)));
  }

  lemma PutsOne(n: nat)
    requires n < 255 && Reachable(Filling(QueueTake(6, FromRecv(false)), n, 256 - n, Pending(n + 2, false, true, 0, 0)))
    ensures Reachable(Filling(QueueLoop(6, FromRecv(false)), n + 1, 255 - n, Pending(n + 2, false, true, 0, 0)))
  {
    hide Reachable;
    assert Requests(n) + [Req(6, 1)] == Requests(n + 1);
    hide Requests;
    Extend(Filling(QueueTake(6, FromRecv(false)), n, 256 - n, Pending(n + 2, false, true, 0, 0)), Data(QueuePut),
           Filling(QueueLoop(6, FromRecv(false)), n + 1, 255 - n, Pending(n + 2, false, true, 0, 0)));
  }

  lemma {:induction false} Fills(n: nat)
    requires n <= 255
    ensures Reachable(Filling(QueueLoop(6, FromRecv(false)), n, 256 - n, Pending(n + 1, false, true, 0, 0)))
  {
    hide Reachable, Filling;
    if n == 0 {
      Begins();
    } else {
      Fills(n - 1);
      CountsOne(n - 1);
      PutsOne(n - 1);
    }
  }

  /** A dropped connection can still be paused: the dead flag is looked at once, before the
      loop that counts requests. */
  lemma DeadAndPaused() returns (s: State)
    ensures Reachable(s) && s.pending == map[1 := Pending(MAX_PENDING, true, true, 0, 0)]
  {
    hide Reachable;
    Fills(255);
    s := Filling(Notify(6, true, FromRecv(false)), 255, 1, Pending(256, true, true, 0, 0));
    Extend(Filling(QueueLoop(6, FromRecv(false)), 255, 1, Pending(256, false, true, 0, 0)), Data(QueueCount), s);
  }
}
