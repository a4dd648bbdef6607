/**
 What holds in every state of every run of the server.
 */
module NetServerTheorems {
  import opened PendingTable
  import opened NetServer
  import opened NetServerFd
  import opened NetServerFlow

  // Sockets: no two registrations are for the same one

  ghost predicate SocksFit(fds: map<int, Target>, next: nat, home: map<int, Home>, pc: ListenPc) {
    && (forall fd :: IsConn(fds, fd) ==> fds[fd].sock < next)
    && (forall c :: c in home ==> home[c].sock < next)
    && (forall c, d :: c in home && d in home && home[c].sock == home[d].sock ==> c == d)
    && (pc.Accepted? && IsConn(fds, pc.fd) ==> forall c :: c in home ==> home[c].sock != fds[pc.fd].sock)
  }

  ghost predicate SockInv(s: State) {
    SocksFit(s.fds, s.nextSock, s.clients.home, s.l.pc)
  }

  lemma SocksLoop(s: State, a: LoopStep)
    requires FdInv(s) && SockInv(s) && LoopEnabled(s, a)
    ensures SockInv(DoLoop(s, a))
  {
    hide DupFits, SentFits, FramersFit, MasterFits, PlaceFits, WorkingFits, MaxFits, NothingStranded, IsPaused;
  }

  lemma SocksData(s: State, a: DataStep)
    requires SockInv(s) && DataEnabled(s, a)
    ensures SockInv(DoData(s, a))
  {
    hide SocksFit, CountOrPause, AtLimit, IsDead;
    var s' := DoData(s, a);
    assert s'.fds == s.fds && s'.clients == s.clients && s'.nextSock == s.nextSock && !s'.l.pc.Accepted?;
    StillFits(s.fds, s.nextSock, s.clients.home, s.l.pc, s'.l.pc);
  }

  lemma StillFits(fds: map<int, Target>, next: nat, home: map<int, Home>, pc: ListenPc, pc': ListenPc)
    requires SocksFit(fds, next, home, pc) && !pc'.Accepted?
    ensures SocksFit(fds, next, home, pc')
  {}

  lemma SocksClose(s: State, a: CloseStep)
    requires SockInv(s) && CloseEnabled(s, a)
    ensures SockInv(DoClose(s, a))
  {}

  lemma SocksResponse(s: State, a: ResponseStep)
    requires FdInv(s) && SockInv(s) && ResponseEnabled(s, a)
    ensures SockInv(DoResponse(s, a))
  {
    hide SentFits, FramersFit, MasterFits, PlaceFits, WorkingFits, MaxFits, NothingStranded, IsPaused, MarkDead;
    hide Release, IsDead;
  }

  lemma SocksKept(s: State, a: Step)
    requires FdInv(s) && SockInv(s) && Enabled(s, a)
    ensures SockInv(Do(s, a))
  {
    hide DoLoop, DoData, DoClose, DoResponse, FdInv, SocksFit;
    match a
    case Loop(b) => SocksLoop(s, b);
    case Data(b) => SocksData(s, b);
    case Shut(b) => SocksClose(s, b);
    case Respond(b) => SocksResponse(s, b);
    case Schedule(_) =>
    case Unchecked(_) =>
  }

  // Pending entries without a connection

  // what drop_connection leaves behind when the entry was erased before
  const ORPHAN := FRESH.(dead := true)

  predicate Open(k: Clients, erased: set<int>, c: int) {
    c in k.home && k.home[c].fd in k.info && k.info[k.home[c].fd] == c && k.home[c].fd !in erased
  }

  ghost predicate OrphansFit(k: Clients, p: Table, erased: set<int>) {
    forall c :: c in p ==> c in k.home && (Open(k, erased, c) || p[c] == ORPHAN)
  }

  ghost predicate OrphanInv(s: State) {
    OrphansFit(s.clients, s.pending, Erased(s.l.pc))
  }

  lemma OrphansLoop(s: State, a: LoopStep)
    requires FdInv(s) && OrphanInv(s) && LoopEnabled(s, a)
    ensures OrphanInv(DoLoop(s, a))
  {
    hide DupFits, SentFits, FramersFit, MasterFits, PlaceFits, WorkingFits, MaxFits, NothingStranded, IsPaused;
  }

  lemma OrphansData(s: State, a: DataStep)
    requires FdInv(s) && OrphanInv(s) && DataEnabled(s, a)
    ensures OrphanInv(DoData(s, a))
  {
    hide DupFits, SentFits, FramersFit, MasterFits, PlaceFits, WorkingFits, MaxFits, NothingStranded;
    var s' := DoData(s, a);
    assert s'.clients == s.clients && Erased(s'.l.pc) == Erased(s.l.pc) == {};
    if a.QueueCount? {
      assert Open(s.clients, {}, s.clients.info[s.l.pc.fd]);
    } else {
      assert s'.pending == s.pending;
    }
  }

  lemma OrphansClose(s: State, a: CloseStep)
    requires FdInv(s) && OrphanInv(s) && CloseEnabled(s, a)
    ensures OrphanInv(DoClose(s, a))
  {
    hide DupFits, SentFits, FramersFit, MasterFits, WorkingFits, MaxFits, NothingStranded;
  }

  lemma OrphansResponse(s: State, a: ResponseStep)
    requires FlowInv(s) && OrphanInv(s) && ResponseEnabled(s, a)
    ensures OrphanInv(DoResponse(s, a))
  {
    hide Unfinished, CountsFit, Bounded, WakeUpsFit;
    if a.Drop? {
      AnsweringIsUnfinished(s);
    }
  }

  lemma OrphansKept(s: State, a: Step)
    requires FdInv(s) && FlowInv(s) && OrphanInv(s) && Enabled(s, a)
    ensures OrphanInv(Do(s, a))
  {
    hide DoLoop, DoData, DoClose, DoResponse, FdInv, FlowInv, OrphansFit;
    match a
    case Loop(b) => OrphansLoop(s, b);
    case Data(b) => OrphansData(s, b);
    case Shut(b) => OrphansClose(s, b);
    case Respond(b) => OrphansResponse(s, b);
    case Schedule(_) =>
    case Unchecked(_) =>
  }

  // Runs

  ghost predicate Inv(s: State) {
    FdInv(s) && FlowInv(s) && SockInv(s) && OrphanInv(s)
  }

  lemma InitKeeps(s: State)
    requires Init(s)
    ensures Inv(s)
  {
    InitFd(s);
    InitFlow(s);
  }

  lemma StepKeeps(s: State, a: Step)
    requires Inv(s) && Enabled(s, a)
    ensures Inv(Do(s, a))
  {
    hide FdInv, FlowInv, SockInv, OrphanInv, Do, Enabled;
    FdKept(s, a);
    FlowKept(s, a);
    SocksKept(s, a);
    OrphansKept(s, a);
  }

  lemma {:induction false} RunKeeps(r: seq<State>, i: nat)
    requires IsRun(r) && i < |r|
    ensures Inv(r[i])
  {
    if i == 0 {
      InitKeeps(r[0]);
    } else {
      RunKeeps(r, i - 1);
      hide FdInv, FlowInv, SockInv, OrphanInv, Do, Enabled;
      assert Next(r[i - 1], r[i - 1 + 1]);
      var a :| Enabled(r[i - 1], a) && r[i] == Do(r[i - 1], a);
      StepKeeps(r[i - 1], a);
    }
  }

  lemma HomesStep(s: State, a: Step)
    requires FdInv(s) && Enabled(s, a)
    ensures s.clients.home.Keys <= Do(s, a).clients.home.Keys
    ensures forall c :: c in s.clients.home ==> Do(s, a).clients.home[c] == s.clients.home[c]
  {
    hide DupFits, SentFits, FramersFit, MasterFits, PlaceFits, WorkingFits, MaxFits, NothingStranded;
    hide CountOrPause, AtLimit, IsDead, IsPaused, MarkDead, Release;
  }

  /** A connection id stands for one socket for good. */
  lemma {:induction false} RegistrationsStand(r: seq<State>, i: nat, j: nat, c: int)
    requires IsRun(r) && i <= j < |r| && c in r[i].clients.home
    ensures c in r[j].clients.home && r[j].clients.home[c] == r[i].clients.home[c]
    decreases j
  {
    hide Init, Do, Enabled, FdInv, FlowInv, SockInv, OrphanInv;
    if i < j {
      RegistrationsStand(r, i, j - 1, c);
      RunKeeps(r, j - 1);
      assert Next(r[j - 1], r[j - 1 + 1]);
      var a :| Enabled(r[j - 1], a) && r[j] == Do(r[j - 1], a);
      HomesStep(r[j - 1], a);
    }
  }

  /** However fds are reused, bytes of a response with connection id c were only ever sent on
      the socket whose registration produced c, and no other registration had that socket. */
  lemma ResponsesReachTheirOwnClient(r: seq<State>, i: nat, k: nat)
    requires IsRun(r) && i < |r| && k < |r[i].sent| && r[i].sent[k].cltid >= 0
    ensures var d, home := r[i].sent[k], r[i].clients.home;
      && d.cltid in home && home[d.cltid].sock == d.sock
      && forall c :: c in home && home[c].sock == d.sock ==> c == d.cltid
  {
    RunKeeps(r, i);
    SentHome(r[i], k);
  }

  lemma SentHome(s: State, k: nat)
    requires Inv(s) && k < |s.sent| && s.sent[k].cltid >= 0
    ensures var d, home := s.sent[k], s.clients.home;
      && d.cltid in home && home[d.cltid].sock == d.sock
      && forall c :: c in home && home[c].sock == d.sock ==> c == d.cltid
  {
    assert Delivered(s.clients, s.sent[k]);
  }

  lemma NothingLeftInChain(s: State)
    requires Inv(s) && s.l.pc.Select? && s.rpc.Idle? && s.t.handlers == multiset{} && s.t.responses == []
    ensures s.t.requests == [] && Unfinished(s) == multiset{}
  {
    hide FdInv, SockInv, OrphanInv, CountInv, WakeUpsFit;
  }

  /** The count of an open connection is the number of its queued and unfinished requests. */
  lemma CountIsUnfinished(r: seq<State>, i: nat, fd: int)
    requires IsRun(r) && i < |r| && fd in r[i].clients.info && r[i].l.pc != CloseErased(fd)
    ensures var s := r[i]; var c := s.clients.info[fd];
      && At(s.pending, c).count == Unfinished(s)[Req(fd, c)]
      && 0 <= At(s.pending, c).count <= MAX_PENDING
      && (IsPaused(s.pending, c) ==> Unfinished(s)[Req(fd, c)] > MAX_PENDING / 2)
  {
    RunKeeps(r, i);
    hide FdInv, SockInv, IsRun, Unfinished, WakeUpsFit, HandedOn;
  }

  /** No lost wake-up: when the listen thread waits in select(), a paused connection either has
      more than half of the limit unfinished, or a byte is in the wake pipe or about to be. */
  lemma NoLostWakeUp(r: seq<State>, i: nat, fd: int)
    requires IsRun(r) && i < |r| && r[i].l.pc.Select? && fd in r[i].l.paused
    ensures var s := r[i];
      && fd in s.clients.info
      && if IsPaused(s.pending, s.clients.info[fd]) then Unfinished(s)[Req(fd, s.clients.info[fd])] > MAX_PENDING / 2
         else s.pipe > 0 || Writing(s.rpc)
  {
    RunKeeps(r, i);
    assert fd in r[i].clients.info;
    CountIsUnfinished(r, i, fd);
    hide SockInv, IsRun, Unfinished, CountInv;
    hide RecordsFit, DupFits, SentFits, FramersFit, MasterFits, WorkingFits, MaxFits, NothingStranded;
  }

  /** Once everything is answered and the pipe is read, nobody stays paused. */
  lemma DrainedLeavesNobodyPaused(r: seq<State>, i: nat)
    requires IsRun(r) && i < |r| && r[i].l.pc.Select? && r[i].rpc.Idle? && r[i].pipe == 0
    requires r[i].t.handlers == multiset{} && r[i].t.responses == []
    ensures r[i].l.paused == {} && r[i].t.requests == []
  {
    RunKeeps(r, i);
    assert r[i].t.requests == [];
    assert Unfinished(r[i]) == multiset{};
    forall fd | fd in r[i].l.paused
      ensures false
    {
      NoLostWakeUp(r, i, fd);
    }
  }

  /** What select() waits on: every registered connection has a framer and is in exactly one of
      master_set and paused_fds, max_sd covers the set, and no complete request is stranded. */
  lemma SelectWatchesEveryone(r: seq<State>, i: nat)
    requires IsRun(r) && i < |r| && r[i].l.pc.Select?
    ensures var s := r[i]; var l := s.l;
      && l.framers.Keys == s.clients.info.Keys
      && l.master == {s.ids.listen, s.ids.wakeRead} + (s.clients.info.Keys - l.paused)
         && l.paused <= s.clients.info.Keys
      && (forall fd :: fd in l.master ==> fd <= l.maxSd)
      && (forall fd :: fd in l.framers && fd !in l.paused ==> l.framers[fd] == 0)
      && s.t.requests == []
  {
    RunKeeps(r, i);
    hide SockInv, IsRun, CountInv, RecordsFit, PrivateFits, DupFits, SentFits;
  }

  /** The guards of the steps exclude nothing: wherever a thread stands, it can go on, and an
      answer to a connection that is still registered finds its socket. */
  lemma NobodyIsStuck(r: seq<State>, i: nat)
    requires IsRun(r) && i < |r|
    ensures var s := r[i];
      && (s.l.pc.Accepted? ==> LoopEnabled(s, Register))
      && (s.l.pc.QueueLoop? ==> DataEnabled(s, QueueCount))
      && (s.l.pc.QueueTake? ==> DataEnabled(s, QueuePut))
      && (s.rpc.Holding? ==> ResponseEnabled(s, Send(true)) && ResponseEnabled(s, Send(false)))
      && (s.rpc.Looking? && s.rpc.req.fd in s.clients.info && s.clients.info[s.rpc.req.fd] == s.rpc.req.cltid ==>
            forall d :: Free(s, d) ==> ResponseEnabled(s, Lookup(d)))
  {
    hide IsRun, SockInv, FlowInv, SentFits, Delivered, FramersFit, MasterFits, WorkingFits, MaxFits;
    RunKeeps(r, i);
  }

  /** A pending entry can outlive its connection, but then it counts nothing, pauses nobody and
      only says that the connection was dropped. */
  lemma OrphanedEntriesAreInert(r: seq<State>, i: nat, c: int)
    requires IsRun(r) && i < |r| && c in r[i].pending
        && forall fd :: fd in r[i].clients.info ==> r[i].clients.info[fd] != c
    ensures c in r[i].clients.home && r[i].pending[c] == ORPHAN
  {
    RunKeeps(r, i);
  }
}
