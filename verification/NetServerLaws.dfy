/**
 What the flags of a connection mean for it: when a pause begins and ends, what a drop stops,
 and that a broken stream is closed.  The laws speak of requests and steps, not of how the
 pending table computes.
 */
module NetServerLaws {
  import opened PendingTable
  import opened NetServer
  import opened NetServerFd
  import opened NetServerFlow
  import opened NetServerTheorems

  // The pause flag

  // the response thread drops this connection, or is done with one of its requests
  predicate Drops(s: State, a: Step, q: Req) {
    a == Respond(Drop) && s.rpc.Dropping? && s.rpc.req.cltid == q.cltid
  }

  predicate Finishes(s: State, a: Step, q: Req) {
    a == Respond(Finish) && s.rpc == Done(q)
  }

  predicate Erases(s: State, a: Step, fd: int) {
    a == Shut(Erase) && s.l.pc == Close(fd)
  }

  // the listen thread has another message of this connection to count
  predicate WantsToCount(s: State, a: Step, fd: int) {
    a == Data(QueueCount) && s.l.pc.QueueLoop? && s.l.pc.fd == fd && Available(s.l, fd) > 0
  }

  /** The flag of a paused connection is cleared exactly when it is dropped or closed, or when
      an answer leaves at most half of the limit unfinished; and a flag is set exactly when one
      more message waits while as many requests as the limit allows are unfinished. */
  predicate PauseLaw(s: State, a: Step, s': State, fd: int)
    requires fd in s.clients.info
  {
    var c := s.clients.info[fd];
    var q := Req(fd, c);
    IsPaused(s'.pending, c) <==>
      if IsPaused(s.pending, c) then
        !Drops(s, a, q) && !Erases(s, a, fd) && !(Finishes(s, a, q) && Unfinished(s')[q] <= 128)
      else WantsToCount(s, a, fd) && Unfinished(s)[q] == 256
  }

  /** A connection counts as dropped from its drop until its entry is erased. */
  predicate DeadLaw(s: State, a: Step, s': State, fd: int)
    requires fd in s.clients.info
  {
    var c := s.clients.info[fd];
    IsDead(s'.pending, c) <==> if IsDead(s.pending, c) then !Erases(s, a, fd) else Drops(s, a, Req(fd, c))
  }

  predicate FlagLaws(s: State, a: Step, s': State, fd: int)
    requires fd in s.clients.info
  {
    PauseLaw(s, a, s', fd) && DeadLaw(s, a, s', fd)
  }

  lemma FlagsLoop(s: State, a: LoopStep, fd: int)
    requires LoopEnabled(s, a) && fd in s.clients.info
    ensures FlagLaws(s, Loop(a), DoLoop(s, a), fd)
  {
    hide Unfinished;
    assert DoLoop(s, a).pending == s.pending;
  }

  // the counts, as far as they matter here
  lemma CountOf(s: State, fd: int)
    requires Inv(s) && fd in s.clients.info && s.l.pc != CloseErased(fd)
    ensures var c := s.clients.info[fd];
      At(s.pending, c).count == Unfinished(s)[Req(fd, c)] && 0 <= At(s.pending, c).count <= 256
    ensures forall e :: e in s.clients.info && s.clients.info[e] == s.clients.info[fd] ==> e == fd
  {
    hide FdInv, SockInv, OrphanInv, Unfinished, WakeUpsFit, HandedOn;
    RecordsOwnIds(s);
  }

  lemma FlagsData(s: State, a: DataStep, fd: int)
    requires Inv(s) && DataEnabled(s, a) && fd in s.clients.info && s.l.pc != CloseErased(fd)
    ensures FlagLaws(s, Data(a), DoData(s, a), fd)
  {
    hide Inv, Unfinished;
    CountOf(s, fd);
    if !a.QueueCount? {
      assert DoData(s, a).pending == s.pending;
    }
  }

  lemma FlagsClose(s: State, a: CloseStep, fd: int)
    requires Inv(s) && CloseEnabled(s, a) && fd in s.clients.info && s.l.pc != CloseErased(fd)
    ensures FlagLaws(s, Shut(a), DoClose(s, a), fd)
  {
    hide Inv, Unfinished;
    CountOf(s, fd);
    if a.Erase? {
      PlaceOf(s);
    }
  }

  lemma PlaceOf(s: State)
    requires Inv(s) && AtConn(s.l.pc)
    ensures s.l.pc.fd in s.clients.info
  {
    hide FlowInv, SockInv, OrphanInv, RecordsFit, PrivateFits, DupFits;
    hide SentFits, FramersFit, MasterFits, NothingStranded;
  }

  lemma FlagsResponse(s: State, a: ResponseStep, fd: int)
    requires Inv(s) && ResponseEnabled(s, a) && fd in s.clients.info && s.l.pc != CloseErased(fd)
    ensures FlagLaws(s, Respond(a), DoResponse(s, a), fd)
  {
    hide Inv, Unfinished;
    CountOf(s, fd);
    var s' := DoResponse(s, a);
    if a.Finish? || a.Drop? {
      HomeOf(s, fd);
      if a.Finish? && s.rpc.req.cltid == s.clients.info[fd] {
        UnfinishedResponse(s, a);
      }
    } else {
      assert s'.pending == s.pending;
    }
  }

  // a request with the id of a connection carries its fd
  lemma HomeOf(s: State, fd: int)
    requires Inv(s) && fd in s.clients.info && !s.rpc.Idle? && !s.rpc.DoneWake?
    ensures s.clients.info[fd] >= 1 && (s.rpc.req.cltid == s.clients.info[fd] ==> s.rpc.req.fd == fd)
  {
    hide SockInv, OrphanInv, Bounded, CountsFit, WakeUpsFit, Unfinished;
    RecordsOwnIds(s);
    AnsweringIsUnfinished(s);
    hide FdInv;
  }

  lemma FlagsStep(s: State, a: Step, fd: int)
    requires Inv(s) && Enabled(s, a) && fd in s.clients.info && s.l.pc != CloseErased(fd)
    ensures FlagLaws(s, a, Do(s, a), fd)
  {
    hide Inv, Unfinished, FlagLaws, DoLoop, DoData, DoClose, DoResponse;
    match a
    case Loop(b) => FlagsLoop(s, b, fd);
    case Data(b) => FlagsData(s, b, fd);
    case Shut(b) => FlagsClose(s, b, fd);
    case Respond(b) => FlagsResponse(s, b, fd);
    case Schedule(_) => SameFlags(s, a, Do(s, a), fd);
    case Unchecked(_) => SameFlags(s, a, Do(s, a), fd);
  }

  lemma SameFlags(s: State, a: Step, s': State, fd: int)
    requires s'.pending == s.pending && fd in s.clients.info && (a.Schedule? || a.Unchecked?)
    ensures FlagLaws(s, a, s', fd)
  {
    hide Unfinished;
  }

  /** In every run, for every open connection: when its flags are set and when they are cleared. */
  lemma FlagsBeginAndEnd(r: seq<State>, i: nat, a: Step, fd: int)
    requires IsRun(r) && i + 1 < |r| && Enabled(r[i], a) && r[i + 1] == Do(r[i], a)
    requires fd in r[i].clients.info && r[i].l.pc != CloseErased(fd)
    ensures FlagLaws(r[i], a, r[i + 1], fd)
  {
    hide Inv, IsRun, FlagLaws, Do, Enabled;
    RunKeeps(r, i);
    FlagsStep(r[i], a, fd);
  }

  // What a drop stops

  /** The response that is looked up or sent at r[j] was checked at r[k]: its connection was not
      dropped then, and the thread has been busy with it since. */
  ghost predicate CheckedAt(r: seq<State>, k: nat, j: nat, q: Req)
    requires j < |r|
  {
    && k < j && r[k].rpc == Got(q) && !(q.cltid >= 0 && IsDead(r[k].pending, q.cltid))
    && forall m :: k < m <= j ==> r[m].rpc == Looking(q) || (r[m].rpc.Holding? && r[m].rpc.req == q)
  }

  predicate LeadsTo(s: State, rpc: ResponsePc) {
    rpc.Looking? || rpc.Holding? ==>
      || s.rpc == Looking(rpc.req) || (s.rpc.Holding? && s.rpc.req == rpc.req)
      || (s.rpc == Got(rpc.req) && !(rpc.req.cltid >= 0 && IsDead(s.pending, rpc.req.cltid)))
  }

  lemma RpcResponse(s: State, a: ResponseStep)
    requires ResponseEnabled(s, a)
    ensures LeadsTo(s, DoResponse(s, a).rpc)
  {
    hide IsPaused, MarkDead, Release;
  }

  // the listen thread leaves the response thread where it is
  lemma OwnThreads(s: State, a: Step)
    requires Enabled(s, a)
    ensures !a.Respond? ==> Do(s, a).rpc == s.rpc
    ensures a.Respond? || a.Schedule? || a.Unchecked? ==> Do(s, a).l == s.l
  {
    hide IsPaused, IsDead, MarkDead, Release, CountOrPause, AtLimit, Lower, Available;
  }

  lemma RpcStep(s: State, a: Step)
    requires Enabled(s, a)
    ensures LeadsTo(s, Do(s, a).rpc)
  {
    OwnThreads(s, a);
    hide DoLoop, DoData, DoClose, DoResponse, LoopEnabled, DataEnabled, CloseEnabled, IsDead;
    match a
    case Respond(b) => RpcResponse(s, b);
    case _ =>
  }

  /** Nothing is sent to a connection that was dropped before its response was looked at. */
  lemma {:induction false} SentOnlyIfNotDropped(r: seq<State>, j: nat) returns (k: nat)
    requires IsRun(r) && j < |r| && (r[j].rpc.Looking? || r[j].rpc.Holding?)
    ensures CheckedAt(r, k, j, r[j].rpc.req)
  {
    hide Do, Enabled, IsDead;
    assert j > 0;
    assert Next(r[j - 1], r[j - 1 + 1]);
    var a :| Enabled(r[j - 1], a) && r[j] == Do(r[j - 1], a);
    RpcStep(r[j - 1], a);
    if r[j - 1].rpc.Looking? || r[j - 1].rpc.Holding? {
      k := SentOnlyIfNotDropped(r, j - 1);
    } else {
      k := j - 1;
    }
  }

  /** Requests are queued for a connection only if it was known and not dropped when the listen
      thread began to queue them. */
  ghost predicate QueuesSince(r: seq<State>, k: nat, j: nat, fd: int, caller: Caller)
    requires j < |r|
  {
    && k < j && r[k].l.pc == Queue(fd, caller)
    && fd in r[k].clients.info && !IsDead(r[k].pending, r[k].clients.info[fd])
    && forall m :: k < m <= j ==> r[m].l.pc == QueueLoop(fd, caller) || r[m].l.pc == QueueTake(fd, caller)
  }

  predicate GoesOn(s: State, pc: ListenPc) {
    pc.QueueLoop? || pc.QueueTake? ==>
      || s.l.pc == QueueLoop(pc.fd, pc.caller) || s.l.pc == QueueTake(pc.fd, pc.caller)
      || (s.l.pc == Queue(pc.fd, pc.caller) && pc.fd in s.clients.info && !IsDead(s.pending, s.clients.info[pc.fd]))
  }

  lemma QueueLoopStep(s: State, a: LoopStep)
    requires LoopEnabled(s, a)
    ensures GoesOn(s, DoLoop(s, a).l.pc)
  {
    hide IsPaused, IsDead;
  }

  lemma QueueData(s: State, a: DataStep)
    requires DataEnabled(s, a)
    ensures GoesOn(s, DoData(s, a).l.pc)
  {
    hide CountOrPause, AtLimit, IsDead, Available;
  }

  lemma QueueStep(s: State, a: Step)
    requires Enabled(s, a)
    ensures GoesOn(s, Do(s, a).l.pc)
  {
    OwnThreads(s, a);
    hide DoLoop, DoData, DoResponse, ResponseEnabled, IsDead;
    match a
    case Loop(b) => QueueLoopStep(s, b);
    case Data(b) => QueueData(s, b);
    case _ =>
  }

  lemma {:induction false} QueuedOnlyIfNotDropped(r: seq<State>, j: nat) returns (k: nat)
    requires IsRun(r) && j < |r| && (r[j].l.pc.QueueLoop? || r[j].l.pc.QueueTake?)
    ensures QueuesSince(r, k, j, r[j].l.pc.fd, r[j].l.pc.caller)
  {
    hide Do, Enabled, IsDead;
    assert j > 0;
    assert Next(r[j - 1], r[j - 1 + 1]);
    var a :| Enabled(r[j - 1], a) && r[j] == Do(r[j - 1], a);
    QueueStep(r[j - 1], a);
    if r[j - 1].l.pc.QueueLoop? || r[j - 1].l.pc.QueueTake? {
      k := QueuedOnlyIfNotDropped(r, j - 1);
    } else {
      k := j - 1;
    }
  }

  /** A request joins the chain only from there, and carries the id of its connection. */
  lemma RequestsJoin(s: State, a: Step)
    requires Inv(s) && Enabled(s, a) && |Do(s, a).t.requests| > |s.t.requests|
    ensures s.l.pc.QueueTake? && s.l.pc.fd in s.clients.info
    ensures Do(s, a).t.requests == s.t.requests + [Req(s.l.pc.fd, s.clients.info[s.l.pc.fd])]
  {
    hide Inv, IsPaused, IsDead, MarkDead, Release, CountOrPause, AtLimit;
  }

  // A broken stream

  /** The listen thread is on its way to close this connection. */
  predicate Doomed(pc: ListenPc, fd: int) {
    || (HasCaller(pc) && pc.fd == fd && pc.caller == FromRecv(true))
    || pc == Close(fd) || pc == CloseErased(fd) || pc == CloseGone(fd)
  }

  predicate Gone(s: State, fd: int) {
    && s.l.pc == Scan && fd !in s.fds && fd !in s.clients.info && fd !in s.l.framers
    && fd !in s.l.master && fd !in s.l.paused
  }

  /** The end of the stream, an error on it, or bytes that cannot be framed doom it. */
  lemma BrokenStreamIsDoomed(s: State, a: DataStep)
    requires DataEnabled(s, a) && (a == RecvEnd || (a.RecvData? && a.broken))
    ensures Doomed(DoData(s, a).l.pc, s.l.pc.fd)
  {}

  lemma DoomedData(s: State, a: DataStep, fd: int)
    requires DataEnabled(s, a) && Doomed(s.l.pc, fd)
    ensures Doomed(DoData(s, a).l.pc, fd)
  {
    hide CountOrPause, AtLimit, IsDead, Available;
  }

  lemma DoomedClose(s: State, a: CloseStep, fd: int)
    requires Inv(s) && CloseEnabled(s, a) && Doomed(s.l.pc, fd)
    ensures Doomed(DoClose(s, a).l.pc, fd) || Gone(DoClose(s, a), fd)
  {
    hide FlowInv, SockInv, OrphanInv, RecordsFit, DupFits, SentFits, FramersFit, MasterFits, NothingStranded;
    hide MaxFits, WorkingFits, Lower;
  }

  lemma DoomedLeavesLoop(s: State, a: LoopStep, fd: int)
    requires Doomed(s.l.pc, fd)
    ensures !LoopEnabled(s, a)
  {}

  lemma DoomedStep(s: State, a: Step, fd: int)
    requires Inv(s) && Enabled(s, a) && Doomed(s.l.pc, fd)
    ensures Doomed(Do(s, a).l.pc, fd) || Gone(Do(s, a), fd)
  {
    hide Inv, Doomed, Gone, DoLoop, DoData, DoClose, DoResponse;
    hide LoopEnabled, DataEnabled, CloseEnabled, ResponseEnabled;
    OwnThreads(s, a);
    match a
    case Loop(b) => DoomedLeavesLoop(s, b, fd);
    case Data(b) => DoomedData(s, b, fd);
    case Shut(b) => DoomedClose(s, b, fd);
    case _ =>
  }

  /** From there it is closed: no record, framer or descriptor of it is left. */
  lemma {:induction false} DoomedIsClosed(r: seq<State>, i: nat, j: nat, fd: int) returns (k: nat)
    requires IsRun(r) && i <= j < |r| && Doomed(r[i].l.pc, fd) && !Doomed(r[j].l.pc, fd)
    ensures i < k <= j && Gone(r[k], fd) && forall m :: i <= m < k ==> Doomed(r[m].l.pc, fd)
    decreases j - i
  {
    hide Do, Enabled, Inv, Doomed, Gone;
    RunKeeps(r, i);
    assert Next(r[i], r[i + 1]);
    var a :| Enabled(r[i], a) && r[i + 1] == Do(r[i], a);
    DoomedStep(r[i], a, fd);
    if Doomed(r[i + 1].l.pc, fd) {
      k := DoomedIsClosed(r, i + 1, j, fd);
    } else {
      k := i + 1;
    }
  }

  // Back-pressure

  // where the listen thread may stand with a connection whose pause flag is set
  predicate PausingNow(pc: ListenPc, fd: int) {
    (((pc.Notify? || pc.Queued?) && pc.full) || pc.Close?) && pc.fd == fd
  }

  /** Who has the pause flag is not being read. */
  ghost predicate PausedOut(s: State) {
    forall fd :: fd in s.clients.info && IsPaused(s.pending, s.clients.info[fd])
      ==> fd in s.l.paused || PausingNow(s.l.pc, fd)
  }

  lemma PausedOutLoop(s: State, a: LoopStep)
    requires Inv(s) && PausedOut(s) && LoopEnabled(s, a)
    ensures PausedOut(DoLoop(s, a))
  {
    hide SockInv, OrphanInv, CountsFit, Bounded, Unfinished, WakeUpsFit, DupFits, SentFits, FramersFit, MasterFits;
    hide MaxFits, WorkingFits, NothingStranded;
    assert DoLoop(s, a).pending == s.pending;
    if a.Register? {
      assert s.clients.lastIdent + 1 !in s.pending;
    }
  }

  lemma PausedOutData(s: State, a: DataStep)
    requires Inv(s) && PausedOut(s) && DataEnabled(s, a)
    ensures PausedOut(DoData(s, a))
  {
    hide Unfinished;
    RecordsOwnIds(s);
    hide Inv;
    var s' := DoData(s, a);
    assert s'.clients == s.clients;
    if !a.QueueCount? {
      assert s'.pending == s.pending;
    }
  }

  lemma PausedOutClose(s: State, a: CloseStep)
    requires Inv(s) && PausedOut(s) && CloseEnabled(s, a)
    ensures PausedOut(DoClose(s, a))
  {
    RecordsOwnIds(s);
    hide FlowInv, SockInv, OrphanInv, RecordsFit, DupFits, SentFits, FramersFit, MasterFits, NothingStranded;
    hide MaxFits, WorkingFits, Lower;
  }

  lemma PausedOutResponse(s: State, a: ResponseStep)
    requires PausedOut(s) && ResponseEnabled(s, a)
    ensures PausedOut(DoResponse(s, a))
  {
    var s' := DoResponse(s, a);
    assert s'.l == s.l && s'.clients == s.clients;
    assert forall c :: IsPaused(s'.pending, c) ==> IsPaused(s.pending, c);
  }

  lemma PausedOutStep(s: State, a: Step)
    requires Inv(s) && PausedOut(s) && Enabled(s, a)
    ensures PausedOut(Do(s, a))
  {
    hide Inv, PausedOut, DoLoop, DoData, DoClose, DoResponse;
    match a
    case Loop(b) => PausedOutLoop(s, b);
    case Data(b) => PausedOutData(s, b);
    case Shut(b) => PausedOutClose(s, b);
    case Respond(b) => PausedOutResponse(s, b);
    case Schedule(_) => SamePausedOut(s, Do(s, a));
    case Unchecked(_) => SamePausedOut(s, Do(s, a));
  }

  lemma SamePausedOut(s: State, s': State)
    requires PausedOut(s) && s'.clients == s.clients && s'.pending == s.pending && s'.l == s.l
    ensures PausedOut(s')
  {}

  lemma {:induction false} PausedOutInRuns(r: seq<State>, i: nat)
    requires IsRun(r) && i < |r|
    ensures PausedOut(r[i])
  {
    hide Do, Enabled, Inv, PausedOut;
    if i == 0 {
      NobodyAtFirst(r[0]);
    } else {
      PausedOutInRuns(r, i - 1);
      RunKeeps(r, i - 1);
      assert Next(r[i - 1], r[i - 1 + 1]);
      var a :| Enabled(r[i - 1], a) && r[i] == Do(r[i - 1], a);
      PausedOutStep(r[i - 1], a);
    }
  }

  lemma NobodyAtFirst(s: State)
    requires Init(s)
    ensures PausedOut(s)
  {}

  /** Back-pressure: a connection whose pause flag is set is never being read, and select() does
      not watch it. */
  lemma PausedIsNotRead(r: seq<State>, i: nat, fd: int)
    requires IsRun(r) && i < |r| && fd in r[i].clients.info && IsPaused(r[i].pending, r[i].clients.info[fd])
    ensures r[i].l.pc != Recv(fd)
    ensures r[i].l.pc.Select? ==> fd in r[i].l.paused && fd !in r[i].l.master
  {
    hide IsRun;
    PausedOutInRuns(r, i);
    RunKeeps(r, i);
    hide FlowInv, SockInv, OrphanInv, PrivateFits, DupFits, SentFits, FramersFit, NothingStranded, MaxFits, WorkingFits;
  }
}
