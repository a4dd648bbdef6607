/**
 Descriptors, client records and the listen thread's sets: what every step keeps.
 The main results are that a response never reaches a later client on the same fd,
 and that select() always watches what it should.
 */
module NetServerFd {
  import opened PendingTable
  import opened NetServer

  predicate Holds(pc: ResponsePc) {
    pc.Holding? || pc.Dropping? || pc.DropWake? || pc.ClosingDup?
  }

  // the descriptor that only the listen thread still knows: accepted but not registered,
  // or deregistered but not closed
  predicate Private(pc: ListenPc) {
    pc.Accepted? || pc.CloseGone?
  }

  /** Every client record names the socket that its registration was for. */
  ghost predicate RecordsFit(ids: Ids, fds: map<int, Target>, k: Clients) {
    && (forall fd :: fd in k.info ==>
       k.info[fd] in k.home && IsConn(fds, fd) && k.home[k.info[fd]] == Home(fd, fds[fd].sock))
    && (forall c :: c in k.home ==> 1 <= c <= k.lastIdent)
    && ids.listen in fds && fds[ids.listen] == Listening
    && ids.wakeRead in fds && fds[ids.wakeRead] == WakeRead
  }

  ghost predicate PrivateFits(fds: map<int, Target>, k: Clients, pc: ListenPc) {
    Private(pc) ==> IsConn(fds, pc.fd) && pc.fd !in k.info
  }

  /** The response thread's dup refers to the socket that its connection id was given to. */
  ghost predicate DupFits(fds: map<int, Target>, k: Clients, pc: ListenPc, r: ResponsePc) {
    Holds(r) ==>
      && IsConn(fds, r.dup)
      && r.dup !in k.info && !(Private(pc) && pc.fd == r.dup)
      && Delivered(k, Delivery(r.req.cltid, fds[r.dup].sock))
  }

  /** A response with a connection id goes to the connection whose registration produced it. */
  ghost predicate Delivered(k: Clients, d: Delivery) {
    d.cltid >= 0 ==> d.cltid in k.home && k.home[d.cltid].sock == d.sock
  }

  ghost predicate SentFits(k: Clients, sent: seq<Delivery>) {
    forall i :: 0 <= i < |sent| ==> Delivered(k, sent[i])
  }

  // The listen thread's own sets

  // the steps of one registered connection, from its registration to its close
  predicate AtConn(pc: ListenPc) {
    pc.Registered? || pc.Recv? || HasCaller(pc) || pc.Close? || pc.CloseErased?
  }

  predicate HasCaller(pc: ListenPc) {
    pc.Queue? || pc.QueueLoop? || pc.QueueTake? || pc.Notify? || pc.Queued?
  }

  // a connection the loop over paused connections has taken out of both sets
  predicate Resuming(pc: ListenPc) {
    HasCaller(pc) && pc.caller.FromResume?
  }

  // the paused connections that the loop has not visited yet
  function Todo(pc: ListenPc): set<int> {
    if pc.Resume? then pc.todo else if Resuming(pc) then pc.caller.todo else {}
  }

  function Detached(pc: ListenPc): set<int> {
    if pc.Registered? || Resuming(pc) then {pc.fd} else {}
  }

  function Unframed(pc: ListenPc): set<int> {
    if pc.Registered? then {pc.fd} else {}
  }

  function Leaving(pc: ListenPc): set<int> {
    if pc.CloseGone? then {pc.fd} else {}
  }

  /** Every registered connection has a framer, except for one just being registered. */
  ghost predicate FramersFit(info: map<int, int>, l: Listener) {
    l.framers.Keys == info.Keys - Unframed(l.pc) + Leaving(l.pc)
  }

  /** Every registered connection is in exactly one of master_set and paused_fds, except for
      the one the listen thread is moving just now. */
  ghost predicate MasterFits(ids: Ids, info: map<int, int>, l: Listener) {
    l.master == {ids.listen, ids.wakeRead} + (info.Keys - l.paused - Detached(l.pc)) + Leaving(l.pc)
  }

  ghost predicate PlaceFits(info: map<int, int>, l: Listener) {
    && l.paused <= info.Keys
    && (AtConn(l.pc) ==> l.pc.fd in info)
    && (AtConn(l.pc) || l.pc.CloseGone? ==> l.pc.fd !in l.paused && l.pc.fd !in l.working)
    && (l.pc.Select? || l.pc.Resume? || Resuming(l.pc) ==> l.working == {})
    && Todo(l.pc) <= l.paused
  }

  ghost predicate WorkingFits(l: Listener) {
    l.working <= l.master
  }

  /** max_sd bounds the descriptors that select() watches. */
  ghost predicate MaxFits(l: Listener) {
    l.maxSd >= 0 && forall fd :: fd in l.master ==> fd <= l.maxSd
  }

  /** No complete request stays behind in a framer that nobody will look at. */
  ghost predicate NothingStranded(l: Listener) {
    && (forall fd :: fd in l.framers && fd !in l.paused && !((AtConn(l.pc) || l.pc.CloseGone?) && l.pc.fd == fd)
          ==> l.framers[fd] == 0)
    && (l.pc.Recv? ==> Available(l, l.pc.fd) == 0)
    && ((l.pc.Notify? || l.pc.Queued?) && !l.pc.full ==> Available(l, l.pc.fd) == 0)
    && (l.pc.QueueTake? ==> Available(l, l.pc.fd) > 0)
  }

  ghost predicate FdInv(s: State) {
    && RecordsFit(s.ids, s.fds, s.clients)
    && PrivateFits(s.fds, s.clients, s.l.pc)
    && DupFits(s.fds, s.clients, s.l.pc, s.rpc)
    && SentFits(s.clients, s.sent)
    && FramersFit(s.clients.info, s.l)
    && MasterFits(s.ids, s.clients.info, s.l)
    && PlaceFits(s.clients.info, s.l)
    && WorkingFits(s.l)
    && MaxFits(s.l)
    && NothingStranded(s.l)
  }

  lemma InitFd(s: State)
    requires Init(s)
    ensures FdInv(s)
  {}

  lemma FramersLoop(s: State, a: LoopStep)
    requires FdInv(s) && LoopEnabled(s, a)
    ensures var s' := DoLoop(s, a); FramersFit(s'.clients.info, s'.l)
  {
    hide DupFits, SentFits, MaxFits, NothingStranded, MasterFits, WorkingFits, CountOrPause, AtLimit, IsDead, IsPaused;
  }

  lemma FramersData(s: State, a: DataStep)
    requires FdInv(s) && DataEnabled(s, a)
    ensures var s' := DoData(s, a); FramersFit(s'.clients.info, s'.l)
  {
    hide DupFits, SentFits, MaxFits, NothingStranded, MasterFits, WorkingFits, RecordsFit, PrivateFits, CountOrPause;
    hide AtLimit, IsDead, IsPaused;
    assert DoData(s, a).l.framers.Keys == s.l.framers.Keys;
  }

  lemma MasterLoop(s: State, a: LoopStep)
    requires FdInv(s) && LoopEnabled(s, a)
    ensures var s' := DoLoop(s, a); MasterFits(s'.ids, s'.clients.info, s'.l)
  {
    hide DupFits, SentFits, MaxFits, NothingStranded, FramersFit, CountOrPause, AtLimit, IsDead, IsPaused;
  }

  lemma MasterData(s: State, a: DataStep)
    requires FdInv(s) && DataEnabled(s, a)
    ensures var s' := DoData(s, a); MasterFits(s'.ids, s'.clients.info, s'.l)
  {
    hide DupFits, SentFits, MaxFits, NothingStranded, FramersFit, WorkingFits, CountOrPause, AtLimit, IsDead, IsPaused;
    if !a.QueueEnd? {
      var s' := DoData(s, a);
      assert s'.l.master == s.l.master && s'.l.paused == s.l.paused && s'.clients == s.clients && s'.ids == s.ids;
      assert Detached(s'.l.pc) == Detached(s.l.pc) && Leaving(s'.l.pc) == Leaving(s.l.pc) == {};
    }
  }

  lemma PlaceLoop(s: State, a: LoopStep)
    requires FdInv(s) && LoopEnabled(s, a)
    ensures var s' := DoLoop(s, a); PlaceFits(s'.clients.info, s'.l)
  {
    hide DupFits, SentFits, MaxFits, NothingStranded, FramersFit, CountOrPause, AtLimit, IsDead, IsPaused;
  }

  lemma PlaceQueueEnd(s: State)
    requires FdInv(s) && DataEnabled(s, QueueEnd)
    ensures var s' := DoData(s, QueueEnd); PlaceFits(s'.clients.info, s'.l)
  {
    hide RecordsFit, PrivateFits, DupFits, SentFits, MaxFits, NothingStranded, FramersFit, WorkingFits, MasterFits;
  }

  lemma PlaceData(s: State, a: DataStep)
    requires FdInv(s) && DataEnabled(s, a)
    ensures var s' := DoData(s, a); PlaceFits(s'.clients.info, s'.l)
  {
    hide RecordsFit, PrivateFits, DupFits, SentFits, MaxFits, NothingStranded, FramersFit, WorkingFits, MasterFits;
    hide CountOrPause, AtLimit, IsDead, IsPaused;
    if a.QueueEnd? {
      PlaceQueueEnd(s);
    } else {
      var s' := DoData(s, a);
      assert s'.l.paused == s.l.paused && s'.l.working == s.l.working && s'.clients == s.clients;
      assert Todo(s'.l.pc) == Todo(s.l.pc);
    }
  }

  lemma WorkingLoop(s: State, a: LoopStep)
    requires FdInv(s) && LoopEnabled(s, a)
    ensures var s' := DoLoop(s, a); WorkingFits(s'.l)
  {
    hide RecordsFit, DupFits, SentFits, PrivateFits, MaxFits, NothingStranded, FramersFit, MasterFits, CountOrPause;
    hide AtLimit, IsDead, IsPaused;
  }

  lemma WorkingData(s: State, a: DataStep)
    requires FdInv(s) && DataEnabled(s, a)
    ensures var s' := DoData(s, a); WorkingFits(s'.l)
  {
    hide RecordsFit, DupFits, SentFits, PrivateFits, MaxFits, NothingStranded, FramersFit, MasterFits, CountOrPause;
    hide AtLimit, IsDead, IsPaused;
  }

  lemma {:induction false} LowerBounds(m: int, fds: set<int>)
    requires m >= 0 && forall fd :: fd in fds ==> fd <= m
    ensures 0 <= Lower(m, fds) <= m && forall fd :: fd in fds ==> fd <= Lower(m, fds)
    ensures Lower(m, fds) == 0 || Lower(m, fds) in fds
    decreases m
  {
    if m > 0 && m !in fds {
      LowerBounds(m - 1, fds);
    }
  }

  lemma MaxLoop(s: State, a: LoopStep)
    requires FdInv(s) && LoopEnabled(s, a)
    ensures var s' := DoLoop(s, a); MaxFits(s'.l)
  {
    hide RecordsFit, DupFits, SentFits, PrivateFits, NothingStranded, FramersFit, MasterFits, CountOrPause, AtLimit;
    hide IsDead, IsPaused;
  }

  lemma MaxData(s: State, a: DataStep)
    requires FdInv(s) && DataEnabled(s, a)
    ensures var s' := DoData(s, a); MaxFits(s'.l)
  {
    hide RecordsFit, DupFits, SentFits, PrivateFits, NothingStranded, FramersFit, MasterFits, CountOrPause, AtLimit;
    hide IsDead, IsPaused;
  }

  lemma StrandedLoop(s: State, a: LoopStep)
    requires FdInv(s) && LoopEnabled(s, a)
    ensures var s' := DoLoop(s, a); NothingStranded(s'.l)
  {
    hide DupFits, SentFits, MaxFits, CountOrPause, AtLimit, IsDead, IsPaused;
  }

  lemma StrandedData(s: State, a: DataStep)
    requires FdInv(s) && DataEnabled(s, a)
    ensures var s' := DoData(s, a); NothingStranded(s'.l)
  {
    hide RecordsFit, DupFits, SentFits, PrivateFits, MaxFits, MasterFits, WorkingFits, CountOrPause, AtLimit, IsDead;
    hide IsPaused;
  }

  lemma RecordsLoop(s: State, a: LoopStep)
    requires FdInv(s) && LoopEnabled(s, a)
    ensures var s' := DoLoop(s, a); RecordsFit(s'.ids, s'.fds, s'.clients) && PrivateFits(s'.fds, s'.clients, s'.l.pc)
  {
    hide DupFits, SentFits, MaxFits, NothingStranded, FramersFit, CountOrPause, AtLimit, IsDead, IsPaused;
  }

  lemma RecordsData(s: State, a: DataStep)
    requires FdInv(s) && DataEnabled(s, a)
    ensures var s' := DoData(s, a); RecordsFit(s'.ids, s'.fds, s'.clients) && PrivateFits(s'.fds, s'.clients, s'.l.pc)
  {
    hide RecordsFit, DupFits, SentFits, MaxFits, NothingStranded, FramersFit, MasterFits, WorkingFits, PlaceFits;
    hide CountOrPause, AtLimit, IsDead, IsPaused;
    assert DoData(s, a).fds == s.fds && DoData(s, a).clients == s.clients && DoData(s, a).ids == s.ids;
  }

  lemma DupLoop(s: State, a: LoopStep)
    requires FdInv(s) && LoopEnabled(s, a)
    ensures var s' := DoLoop(s, a); DupFits(s'.fds, s'.clients, s'.l.pc, s'.rpc) && SentFits(s'.clients, s'.sent)
  {
    hide MaxFits, NothingStranded, FramersFit, MasterFits, WorkingFits, CountOrPause, AtLimit, IsDead, IsPaused;
  }

  lemma DupData(s: State, a: DataStep)
    requires FdInv(s) && DataEnabled(s, a)
    ensures var s' := DoData(s, a); DupFits(s'.fds, s'.clients, s'.l.pc, s'.rpc) && SentFits(s'.clients, s'.sent)
  {
    hide RecordsFit, PrivateFits, SentFits, Delivered, MaxFits, NothingStranded, FramersFit, MasterFits, WorkingFits;
    hide PlaceFits, CountOrPause, AtLimit, IsDead, IsPaused;
    assert DoData(s, a).fds == s.fds && DoData(s, a).clients == s.clients && DoData(s, a).sent == s.sent;
  }

  lemma FramersClose(s: State, a: CloseStep)
    requires FdInv(s) && CloseEnabled(s, a)
    ensures var s' := DoClose(s, a); FramersFit(s'.clients.info, s'.l)
  {
    hide DupFits, SentFits, MaxFits, NothingStranded, MasterFits, WorkingFits;
  }

  lemma MasterClose(s: State, a: CloseStep)
    requires FdInv(s) && CloseEnabled(s, a)
    ensures var s' := DoClose(s, a); MasterFits(s'.ids, s'.clients.info, s'.l)
  {
    hide DupFits, SentFits, MaxFits, NothingStranded, FramersFit, WorkingFits;
  }

  lemma PlaceClose(s: State, a: CloseStep)
    requires FdInv(s) && CloseEnabled(s, a)
    ensures var s' := DoClose(s, a); PlaceFits(s'.clients.info, s'.l) && WorkingFits(s'.l)
  {
    hide DupFits, SentFits, MaxFits, NothingStranded, FramersFit;
  }

  lemma MaxClose(s: State, a: CloseStep)
    requires FdInv(s) && CloseEnabled(s, a)
    ensures var s' := DoClose(s, a); MaxFits(s'.l)
  {
    hide RecordsFit, PrivateFits, DupFits, SentFits, NothingStranded, FramersFit, MasterFits, WorkingFits;
    if a.CloseFd? {
      LowerBounds(s.l.maxSd, s.l.master - {s.l.pc.fd});
    }
  }

  lemma StrandedClose(s: State, a: CloseStep)
    requires FdInv(s) && CloseEnabled(s, a)
    ensures var s' := DoClose(s, a); NothingStranded(s'.l)
  {
    hide RecordsFit, PrivateFits, DupFits, SentFits, MaxFits, MasterFits, WorkingFits;
  }

  lemma RecordsClose(s: State, a: CloseStep)
    requires FdInv(s) && CloseEnabled(s, a)
    ensures var s' := DoClose(s, a); RecordsFit(s'.ids, s'.fds, s'.clients) && PrivateFits(s'.fds, s'.clients, s'.l.pc)
  {
    hide DupFits, SentFits, MaxFits, NothingStranded, FramersFit, MasterFits, WorkingFits;
  }

  lemma DupClose(s: State, a: CloseStep)
    requires FdInv(s) && CloseEnabled(s, a)
    ensures var s' := DoClose(s, a); DupFits(s'.fds, s'.clients, s'.l.pc, s'.rpc) && SentFits(s'.clients, s'.sent)
  {
    hide MaxFits, NothingStranded, FramersFit, MasterFits, WorkingFits;
  }

  lemma FdResponse(s: State, a: ResponseStep)
    requires FdInv(s) && ResponseEnabled(s, a)
    ensures FdInv(DoResponse(s, a))
  {
    hide MaxFits, NothingStranded, FramersFit, MasterFits, WorkingFits, CountOrPause, AtLimit, IsDead, IsPaused;
  }

  /** Every step of either thread, of a handler or of another caller keeps the invariant. */
  lemma FdKept(s: State, a: Step)
    requires FdInv(s) && Enabled(s, a)
    ensures FdInv(Do(s, a))
  {
    hide RecordsFit, PrivateFits, DupFits, SentFits, FramersFit, MasterFits, PlaceFits, WorkingFits, MaxFits;
    hide NothingStranded;
    hide DoLoop, DoData, DoClose;
    match a
    case Loop(b) =>
      FramersLoop(s, b);
      MasterLoop(s, b);
      PlaceLoop(s, b);
      WorkingLoop(s, b);
      MaxLoop(s, b);
      StrandedLoop(s, b);
      RecordsLoop(s, b);
      DupLoop(s, b);
    case Data(b) =>
      FramersData(s, b);
      MasterData(s, b);
      PlaceData(s, b);
      WorkingData(s, b);
      MaxData(s, b);
      StrandedData(s, b);
      RecordsData(s, b);
      DupData(s, b);
    case Shut(b) =>
      FramersClose(s, b);
      MasterClose(s, b);
      PlaceClose(s, b);
      MaxClose(s, b);
      StrandedClose(s, b);
      RecordsClose(s, b);
      DupClose(s, b);
    case Respond(b) => FdResponse(s, b);
    case Schedule(_) =>
    case Unchecked(_) =>
  }
}
