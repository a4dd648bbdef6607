/**
 Back-pressure: the count of a connection is the number of its requests that are
 not finished, and a connection is never left paused without a wake-up on its way.
 */
module NetServerFlow {
  import opened PendingTable
  import opened NetServer
  import opened NetServerFd

  // Conservation of requests

  // a request that was counted and not put on the request chain yet
  function InHand(info: map<int, int>, pc: ListenPc): multiset<Req> {
    if pc.QueueTake? && pc.fd in info then multiset{Req(pc.fd, info[pc.fd])} else multiset{}
  }

  // the request that the response thread is finishing
  function Answering(pc: ResponsePc): multiset<Req> {
    if pc.Idle? || pc.DoneWake? then multiset{} else multiset{pc.req}
  }

  /** Everything between being counted and being released. */
  function Unfinished(s: State): multiset<Req> {
    multiset(s.t.requests) + s.t.handlers + multiset(s.t.responses) + InHand(s.clients.info, s.l.pc) + Answering(s.rpc)
  }

  /** Requests carry the connection id that was registered for their fd. */
  ghost predicate ReqsFit(k: Clients, p: Table, u: multiset<Req>) {
    && (forall r :: r in u && r.cltid >= 0 ==> r.cltid in k.home && k.home[r.cltid].fd == r.fd)
    && p.Keys <= k.home.Keys
  }

  // the connection whose pending entry is erased while its record still stands
  function Erased(pc: ListenPc): set<int> {
    if pc.CloseErased? then {pc.fd} else {}
  }

  /** The count of every open connection is the number of its unfinished requests. */
  ghost predicate CountsFit(info: map<int, int>, p: Table, erased: set<int>, u: multiset<Req>) {
    forall fd :: fd in info && fd !in erased ==> At(p, info[fd]).count == u[Req(fd, info[fd])]
  }

  ghost predicate CountInv(k: Clients, p: Table, erased: set<int>, u: multiset<Req>) {
    Bounded(p) && ReqsFit(k, p, u) && CountsFit(k.info, p, erased, u)
  }

  // each record has an id of its own
  ghost predicate OwnIds(k: Clients) {
    && (forall fd :: fd in k.info ==> k.info[fd] in k.home && k.home[k.info[fd]].fd == fd)
    && (forall c :: c in k.home ==> 1 <= c <= k.lastIdent)
  }

  // the request chain is empty unless the listen thread is filling or emptying it
  ghost predicate HandedOn(t: Traffic, pc: ListenPc) {
    pc.QueueLoop? || pc.QueueTake? || pc.Notify? || t.requests == []
  }

  // Wake-ups

  // the pause flag is cleared and the byte not written yet
  predicate Writing(pc: ResponsePc) {
    (pc.DropWake? && pc.wake) || pc.DoneWake?
  }

  predicate Cleared(info: map<int, int>, p: Table, fd: int) {
    fd in info && !IsPaused(p, info[fd])
  }

  /** Whoever is paused with its flag cleared will be visited: a byte is in the pipe or about
      to be written, or the loop over paused connections has not come to it yet. */
  ghost predicate WakeUpsFit(info: map<int, int>, p: Table, l: Listener, pipe: nat, r: ResponsePc) {
    && (forall fd :: fd in l.paused && Cleared(info, p, fd) ==> pipe > 0 || Writing(r) || fd in Todo(l.pc))
    && ((l.pc.Notify? || l.pc.Queued?) && l.pc.full && Cleared(info, p, l.pc.fd) ==> pipe > 0 || Writing(r))
  }

  ghost predicate FlowInv(s: State) {
    && CountInv(s.clients, s.pending, Erased(s.l.pc), Unfinished(s))
    && HandedOn(s.t, s.l.pc)
    && WakeUpsFit(s.clients.info, s.pending, s.l, s.pipe, s.rpc)
  }

  lemma InitFlow(s: State)
    requires Init(s)
    ensures FlowInv(s)
  {}

  // What each step does to the multiset of unfinished requests

  lemma UnfinishedLoop(s: State, a: LoopStep)
    requires LoopEnabled(s, a)
    ensures Unfinished(DoLoop(s, a)) == Unfinished(s)
  {
    var s' := DoLoop(s, a);
    assert s'.t == s.t && s'.rpc == s.rpc && !s'.l.pc.QueueTake? && !s.l.pc.QueueTake?;
    hide DoLoop;
  }

  lemma FrontAndRest(q: seq<Req>)
    requires q != []
    ensures multiset(q) == multiset{q[0]} + multiset(q[1..])
  {
    assert q == [q[0]] + q[1..];
  }

  lemma UnfinishedNotify(s: State)
    requires DataEnabled(s, NotifyOne)
    ensures Unfinished(DoData(s, NotifyOne)) == Unfinished(s)
  {
    FrontAndRest(s.t.requests);
  }

  lemma UnfinishedPut(s: State)
    requires DataEnabled(s, QueuePut)
    ensures Unfinished(DoData(s, QueuePut)) == Unfinished(s)
  {
    var r := Req(s.l.pc.fd, s.clients.info[s.l.pc.fd]);
    assert multiset(s.t.requests + [r]) == multiset(s.t.requests) + multiset{r};
  }

  lemma SameUnfinished(s: State, s': State)
    requires s'.t == s.t && Answering(s'.rpc) == Answering(s.rpc)
    requires InHand(s'.clients.info, s'.l.pc) == InHand(s.clients.info, s.l.pc)
    ensures Unfinished(s') == Unfinished(s)
  {}

  lemma OneMore(s: State, s': State, r: Req)
    requires s'.t == s.t && s'.rpc == s.rpc
    requires InHand(s.clients.info, s.l.pc) == multiset{} && InHand(s'.clients.info, s'.l.pc) == multiset{r}
    ensures Unfinished(s') == Unfinished(s) + multiset{r}
  {}

  lemma OneLess(s: State, s': State, r: Req)
    requires s'.t == s.t && InHand(s'.clients.info, s'.l.pc) == InHand(s.clients.info, s.l.pc)
    requires Answering(s.rpc) == multiset{r} && Answering(s'.rpc) == multiset{}
    ensures Unfinished(s) == Unfinished(s') + multiset{r}
  {}

  /** One more exactly when a request was counted. */
  lemma UnfinishedData(s: State, a: DataStep)
    requires DataEnabled(s, a)
    ensures var s' := DoData(s, a);
      if s'.l.pc.QueueTake? then
        a.QueueCount? && Unfinished(s') == Unfinished(s) + multiset{Req(s.l.pc.fd, s.clients.info[s.l.pc.fd])}
      else Unfinished(s') == Unfinished(s)
  {
    hide CountOrPause, AtLimit, IsDead, Unfinished;
    var s' := DoData(s, a);
    if a.NotifyOne? {
      UnfinishedNotify(s);
    } else if a.QueuePut? {
      UnfinishedPut(s);
    } else {
      assert s'.t == s.t && s'.rpc == s.rpc && s'.clients == s.clients && !s.l.pc.QueueTake?;
      if s'.l.pc.QueueTake? {
        OneMore(s, s', Req(s.l.pc.fd, s.clients.info[s.l.pc.fd]));
      } else {
        SameUnfinished(s, s');
      }
    }
  }

  lemma UnfinishedClose(s: State, a: CloseStep)
    requires CloseEnabled(s, a)
    ensures Unfinished(DoClose(s, a)) == Unfinished(s)
  {}

  lemma UnfinishedTake(s: State)
    requires ResponseEnabled(s, Take)
    ensures Unfinished(DoResponse(s, Take)) == Unfinished(s)
  {
    FrontAndRest(s.t.responses);
  }

  lemma AnsweringIsUnfinished(s: State)
    requires !s.rpc.Idle? && !s.rpc.DoneWake?
    ensures s.rpc.req in Unfinished(s)
  {}

  /** One less exactly when a response was done. */
  lemma UnfinishedResponse(s: State, a: ResponseStep)
    requires ResponseEnabled(s, a)
    ensures var s' := DoResponse(s, a);
      Unfinished(s) == if a.Finish? then Unfinished(s') + multiset{s.rpc.req} else Unfinished(s')
    ensures a.Drop? || a.Finish? ==> s.rpc.req in Unfinished(s)
  {
    hide MarkDead, Release, IsDead, IsPaused, Unfinished;
    var s' := DoResponse(s, a);
    if a.Take? {
      UnfinishedTake(s);
    } else {
      assert s'.t == s.t && s'.l == s.l && s'.clients == s.clients;
      if a.Finish? {
        OneLess(s, s', s.rpc.req);
      } else {
        SameUnfinished(s, s');
      }
    }
    if a.Drop? || a.Finish? {
      AnsweringIsUnfinished(s);
    }
  }

  // Counts: the locked regions

  lemma CountOne(k: Clients, p: Table, fd: int, u: multiset<Req>)
    requires OwnIds(k) && CountInv(k, p, {}, u) && fd in k.info && !AtLimit(p, k.info[fd])
    ensures CountInv(k, CountOrPause(p, k.info[fd]), {}, u + multiset{Req(fd, k.info[fd])})
  {
    RegionsKeepBounds(p, k.info[fd]);
    hide Bounded;
  }

  lemma PauseOne(k: Clients, p: Table, fd: int, u: multiset<Req>)
    requires OwnIds(k) && CountInv(k, p, {}, u) && fd in k.info && AtLimit(p, k.info[fd])
    ensures CountInv(k, CountOrPause(p, k.info[fd]), {}, u)
  {
    RegionsKeepBounds(p, k.info[fd]);
    hide Bounded;
  }

  lemma DropOne(k: Clients, p: Table, r: Req, erased: set<int>, u: multiset<Req>)
    requires CountInv(k, p, erased, u) && r in u && r.cltid >= 0
    ensures CountInv(k, MarkDead(p, r.cltid), erased, u)
  {
    RegionsKeepBounds(p, r.cltid);
    hide Bounded;
  }

  lemma ReleaseOne(k: Clients, p: Table, r: Req, erased: set<int>, u: multiset<Req>)
    requires OwnIds(k) && CountInv(k, p, erased, u + multiset{r}) && r.cltid >= 0
    ensures CountInv(k, Release(p, r.cltid), erased, u)
  {
    RegionsKeepBounds(p, r.cltid);
    assert r in u + multiset{r};
    hide Bounded;
  }

  lemma ReleaseUnchecked(k: Clients, p: Table, r: Req, erased: set<int>, u: multiset<Req>)
    requires OwnIds(k) && r.cltid < 0
    ensures CountInv(k, p, erased, u + multiset{r}) <==> CountInv(k, p, erased, u)
  {
    hide Bounded;
    forall fd | fd in k.info
      ensures (u + multiset{r})[Req(fd, k.info[fd])] == u[Req(fd, k.info[fd])]
    {}
    forall q: Req | q.cltid >= 0
      ensures q in u + multiset{r} <==> q in u
    {}
  }

  lemma EraseOne(k: Clients, p: Table, fd: int, u: multiset<Req>)
    requires OwnIds(k) && CountInv(k, p, {}, u) && fd in k.info
    ensures CountInv(k, p - {k.info[fd]}, {fd}, u)
  {}

  lemma DeregisterOne(k: Clients, p: Table, fd: int, u: multiset<Req>)
    requires CountInv(k, p, {fd}, u)
    ensures CountInv(k.(info := k.info - {fd}), p, {}, u)
  {}

  lemma RegisterOne(k: Clients, p: Table, fd: int, sock: nat, u: multiset<Req>)
    requires OwnIds(k) && CountInv(k, p, {}, u) && fd !in k.info
    ensures var c := k.lastIdent + 1; CountInv(Clients(k.info[fd := c], c, k.home[c := Home(fd, sock)]), p, {}, u)
  {
    hide Bounded;
    var c := k.lastIdent + 1;
    assert c !in k.home;
    assert Req(fd, c) !in u;
  }

  lemma RecordsOwnIds(s: State)
    requires FdInv(s)
    ensures OwnIds(s.clients)
  {
    hide DupFits, SentFits, FramersFit, MasterFits, PlaceFits, WorkingFits, MaxFits, NothingStranded;
  }

  // Counts: the steps

  lemma CountsLoop(s: State, a: LoopStep)
    requires FdInv(s) && FlowInv(s) && LoopEnabled(s, a)
    ensures var s' := DoLoop(s, a);
      CountInv(s'.clients, s'.pending, Erased(s'.l.pc), Unfinished(s')) && HandedOn(s'.t, s'.l.pc)
  {
    hide OwnIds, Unfinished, WakeUpsFit, CountInv, IsPaused;
    hide RecordsFit, DupFits, SentFits, FramersFit, MasterFits, PlaceFits, WorkingFits, MaxFits, NothingStranded;
    UnfinishedLoop(s, a);
    RecordsOwnIds(s);
    if a.Register? {
      RegisterOne(s.clients, s.pending, s.l.pc.fd, s.fds[s.l.pc.fd].sock, Unfinished(s));
    }
  }

  lemma CountsData(s: State, a: DataStep)
    requires FdInv(s) && FlowInv(s) && DataEnabled(s, a)
    ensures var s' := DoData(s, a);
      CountInv(s'.clients, s'.pending, Erased(s'.l.pc), Unfinished(s')) && HandedOn(s'.t, s'.l.pc)
  {
    hide OwnIds, Unfinished, WakeUpsFit, CountInv, AtLimit, CountOrPause, IsDead;
    hide RecordsFit, DupFits, SentFits, FramersFit, MasterFits, PlaceFits, WorkingFits, MaxFits, NothingStranded;
    UnfinishedData(s, a);
    RecordsOwnIds(s);
    if a.QueueCount? && Available(s.l, s.l.pc.fd) > 0 {
      if AtLimit(s.pending, s.clients.info[s.l.pc.fd]) {
        PauseOne(s.clients, s.pending, s.l.pc.fd, Unfinished(s));
      } else {
        CountOne(s.clients, s.pending, s.l.pc.fd, Unfinished(s));
      }
    }
  }

  lemma CountsClose(s: State, a: CloseStep)
    requires FdInv(s) && FlowInv(s) && CloseEnabled(s, a)
    ensures var s' := DoClose(s, a);
      CountInv(s'.clients, s'.pending, Erased(s'.l.pc), Unfinished(s')) && HandedOn(s'.t, s'.l.pc)
  {
    UnfinishedClose(s, a);
    RecordsOwnIds(s);
    hide OwnIds, Unfinished, WakeUpsFit, CountInv;
    hide RecordsFit, DupFits, SentFits, FramersFit, MasterFits, WorkingFits, MaxFits, NothingStranded;
    var fd := s.l.pc.fd;
    if a.Erase? {
      EraseOne(s.clients, s.pending, fd, Unfinished(s));
    } else if a.Deregister? {
      DeregisterOne(s.clients, s.pending, fd, Unfinished(s));
    }
  }

  lemma CountsResponse(s: State, a: ResponseStep)
    requires FdInv(s) && FlowInv(s) && ResponseEnabled(s, a)
    ensures var s' := DoResponse(s, a);
      CountInv(s'.clients, s'.pending, Erased(s'.l.pc), Unfinished(s')) && HandedOn(s'.t, s'.l.pc)
  {
    hide OwnIds, Unfinished, WakeUpsFit, CountInv, MarkDead, Release, IsPaused, IsDead;
    hide RecordsFit, DupFits, SentFits, FramersFit, MasterFits, PlaceFits, WorkingFits, MaxFits, NothingStranded;
    UnfinishedResponse(s, a);
    RecordsOwnIds(s);
    var s' := DoResponse(s, a);
    if a.Drop? {
      if s.rpc.req.cltid >= 0 {
        DropOne(s.clients, s.pending, s.rpc.req, Erased(s.l.pc), Unfinished(s));
      }
    } else if a.Finish? {
      if s.rpc.req.cltid >= 0 {
        ReleaseOne(s.clients, s.pending, s.rpc.req, Erased(s.l.pc), Unfinished(s'));
      } else {
        ReleaseUnchecked(s.clients, s.pending, s.rpc.req, Erased(s.l.pc), Unfinished(s'));
      }
    }
  }

  // Wake-ups

  lemma WakeUpsLoop(s: State, a: LoopStep)
    requires FdInv(s) && FlowInv(s) && LoopEnabled(s, a)
    ensures var s' := DoLoop(s, a); WakeUpsFit(s'.clients.info, s'.pending, s'.l, s'.pipe, s'.rpc)
  {
    hide Unfinished, CountInv;
    hide DupFits, SentFits, FramersFit, MasterFits, WorkingFits, MaxFits, NothingStranded;
  }

  lemma WakeUpsQueueEnd(s: State)
    requires FdInv(s) && FlowInv(s) && DataEnabled(s, QueueEnd)
    ensures var s' := DoData(s, QueueEnd); WakeUpsFit(s'.clients.info, s'.pending, s'.l, s'.pipe, s'.rpc)
  {
    hide Unfinished, CountInv, IsPaused, Writing;
    hide RecordsFit, PrivateFits, DupFits, SentFits, FramersFit, MasterFits, WorkingFits, MaxFits, NothingStranded;
  }

  lemma WakeUpsData(s: State, a: DataStep)
    requires FdInv(s) && FlowInv(s) && DataEnabled(s, a)
    ensures var s' := DoData(s, a); WakeUpsFit(s'.clients.info, s'.pending, s'.l, s'.pipe, s'.rpc)
  {
    hide Unfinished, CountInv, Writing, IsDead;
    hide RecordsFit, PrivateFits, DupFits, SentFits, FramersFit, MasterFits, WorkingFits, MaxFits, NothingStranded;
    hide PlaceFits;
    if a.QueueEnd? {
      WakeUpsQueueEnd(s);
    } else {
      var s' := DoData(s, a);
      assert s'.l.paused == s.l.paused && Todo(s'.l.pc) == Todo(s.l.pc) && s'.pipe == s.pipe && s'.rpc == s.rpc;
    }
  }

  lemma WakeUpsClose(s: State, a: CloseStep)
    requires FdInv(s) && FlowInv(s) && CloseEnabled(s, a)
    ensures var s' := DoClose(s, a); WakeUpsFit(s'.clients.info, s'.pending, s'.l, s'.pipe, s'.rpc)
  {
    hide Unfinished, CountInv;
    hide DupFits, SentFits, FramersFit, MasterFits, WorkingFits, MaxFits, NothingStranded;
  }

  lemma WakeUpsResponse(s: State, a: ResponseStep)
    requires FdInv(s) && FlowInv(s) && ResponseEnabled(s, a)
    ensures var s' := DoResponse(s, a); WakeUpsFit(s'.clients.info, s'.pending, s'.l, s'.pipe, s'.rpc)
  {
    hide Unfinished, CountInv;
    hide DupFits, SentFits, FramersFit, MasterFits, WorkingFits, MaxFits, NothingStranded;
  }

  lemma UnfinishedSchedule(s: State, r: Req)
    requires r in s.t.handlers
    ensures Unfinished(Do(s, Schedule(r))) == Unfinished(s)
  {
    var s' := Do(s, Schedule(r));
    assert multiset(s'.t.responses) == multiset(s.t.responses) + multiset{r};
    assert s'.t.handlers + multiset{r} == s.t.handlers;
  }

  lemma UnfinishedUnchecked(s: State, fd: int)
    ensures Unfinished(Do(s, Unchecked(fd))) == Unfinished(s) + multiset{Req(fd, -1)}
  {
    assert multiset(s.t.responses + [Req(fd, -1)]) == multiset(s.t.responses) + multiset{Req(fd, -1)};
  }

  lemma ScheduleKeepsFlow(s: State, r: Req)
    requires FlowInv(s) && r in s.t.handlers
    ensures FlowInv(Do(s, Schedule(r)))
  {
    hide Unfinished, CountInv, WakeUpsFit;
    UnfinishedSchedule(s, r);
  }

  lemma UncheckedKeepsFlow(s: State, fd: int)
    requires FdInv(s) && FlowInv(s)
    ensures FlowInv(Do(s, Unchecked(fd)))
  {
    hide FdInv, Unfinished, CountInv, WakeUpsFit;
    UnfinishedUnchecked(s, fd);
    RecordsOwnIds(s);
    ReleaseUnchecked(s.clients, s.pending, Req(fd, -1), Erased(s.l.pc), Unfinished(s));
  }

  /** Every step keeps the counts and the wake-ups. */
  lemma FlowKept(s: State, a: Step)
    requires FdInv(s) && FlowInv(s) && Enabled(s, a)
    ensures FlowInv(Do(s, a))
  {
    hide FdInv, Unfinished, CountInv, HandedOn, WakeUpsFit;
    hide DoLoop, DoData, DoClose, DoResponse;
    match a
    case Loop(b) =>
      CountsLoop(s, b);
      WakeUpsLoop(s, b);
    case Data(b) =>
      CountsData(s, b);
      WakeUpsData(s, b);
    case Shut(b) =>
      CountsClose(s, b);
      WakeUpsClose(s, b);
    case Respond(b) =>
      CountsResponse(s, b);
      WakeUpsResponse(s, b);
    case Schedule(r) => ScheduleKeepsFlow(s, r);
    case Unchecked(fd) => UncheckedKeepsFlow(s, fd);
  }
}
