/**
 Every message read from a connection is accounted for, a visit to the paused connections
 leaves out nobody, a connection is dropped exactly if a send fails, and no descriptor leaks.
 */
module NetServerAccounts {
  import opened PendingTable
  import opened NetServer
  import opened NetServerFd
  import opened NetServerFlow
  import opened NetServerTheorems

  /** A run together with the steps taken. */
  ghost predicate IsPath(r: seq<State>, steps: seq<Step>) {
    && IsRun(r) && |steps| == |r| - 1
    && forall j :: 0 <= j < |steps| ==> Enabled(r[j], steps[j]) && r[j + 1] == Do(r[j], steps[j])
  }

  // is the listen thread at the connection with this id?
  predicate AtId(s: State, c: int) {
    AtConn(s.l.pc) && s.l.pc.fd in s.clients.info && s.clients.info[s.l.pc.fd] == c
  }

  // messages that a step frames from what was received, moves to the request chain, or throws
  // away because the connection was dropped

  function Framed(s: State, a: Step, c: int): nat {
    if a.Data? && a.data.RecvData? && AtId(s, c) && s.l.pc.fd in s.l.framers then a.data.messages else 0
  }

  function Joined(s: State, s': State, c: int): nat {
    if |s'.t.requests| > |s.t.requests| && s'.t.requests[|s'.t.requests| - 1].cltid == c then 1 else 0
  }

  function Thrown(s: State, a: Step, c: int): nat {
    if a == Data(QueueBegin) && AtId(s, c) && IsDead(s.pending, c) then Available(s.l, s.l.pc.fd) else 0
  }

  // totals: framed, joined, thrown
  datatype Totals = Totals(framed: nat, joined: nat, thrown: nat)

  function Plus(t: Totals, s: State, a: Step, s': State, c: int): Totals {
    Totals(t.framed + Framed(s, a, c), t.joined + Joined(s, s', c), t.thrown + Thrown(s, a, c))
  }

  ghost function Account(r: seq<State>, steps: seq<Step>, i: nat, c: int): Totals
    requires |steps| == |r| - 1 && i < |r|
  {
    if i == 0 then Totals(0, 0, 0)
    else Plus(Account(r, steps, i - 1, c), r[i - 1], steps[i - 1], r[i], c)
  }

  /** What the totals of an id say about its connection. */
  ghost predicate Balanced(s: State, c: int, t: Totals) {
    && (c !in s.clients.home || (s.l.pc.Registered? && AtId(s, c)) ==> t == Totals(0, 0, 0))
    && (forall fd :: fd in s.clients.info && s.clients.info[fd] == c && fd in s.l.framers ==>
          t.framed == t.joined + t.thrown + s.l.framers[fd])
  }

  lemma BalancedLoop(s: State, a: LoopStep, c: int, t: Totals)
    requires Inv(s) && LoopEnabled(s, a) && Balanced(s, c, t) && c >= 0
    ensures Balanced(DoLoop(s, a), c, Plus(t, s, Loop(a), DoLoop(s, a), c))
  {
    hide FlowInv, SockInv, OrphanInv, DupFits, SentFits, MasterFits, WorkingFits, MaxFits, NothingStranded, IsPaused;
    assert DoLoop(s, a).t == s.t;
  }

  lemma BalancedData(s: State, a: DataStep, c: int, t: Totals)
    requires Inv(s) && DataEnabled(s, a) && Balanced(s, c, t) && c >= 0
    ensures Balanced(DoData(s, a), c, Plus(t, s, Data(a), DoData(s, a), c))
  {
    hide FlowInv, SockInv, OrphanInv, DupFits, SentFits, MasterFits, WorkingFits, MaxFits, NothingStranded;
    hide CountOrPause, AtLimit, IsDead;
  }

  lemma BalancedClose(s: State, a: CloseStep, c: int, t: Totals)
    requires Inv(s) && CloseEnabled(s, a) && Balanced(s, c, t) && c >= 0
    ensures Balanced(DoClose(s, a), c, Plus(t, s, Shut(a), DoClose(s, a), c))
  {
    hide FlowInv, SockInv, OrphanInv, DupFits, SentFits, MasterFits, WorkingFits, MaxFits, NothingStranded;
    assert DoClose(s, a).t == s.t;
  }

  lemma BalancedElsewhere(s: State, s': State, a: Step, c: int, t: Totals)
    requires Balanced(s, c, t) && s'.clients == s.clients && s'.l == s.l && s'.t.requests == s.t.requests && !a.Data?
    ensures Balanced(s', c, Plus(t, s, a, s', c))
  {}

  lemma OthersAct(s: State, a: Step)
    requires Enabled(s, a) && (a.Respond? || a.Schedule? || a.Unchecked?)
    ensures var s' := Do(s, a); s'.clients == s.clients && s'.l == s.l && s'.t.requests == s.t.requests
  {
    hide IsPaused, IsDead, MarkDead, Release;
  }

  lemma BalancedStep(s: State, a: Step, c: int, t: Totals)
    requires Inv(s) && Enabled(s, a) && Balanced(s, c, t) && c >= 0
    ensures Balanced(Do(s, a), c, Plus(t, s, a, Do(s, a), c))
  {
    hide Inv, Balanced, DoLoop, DoData, DoClose, DoResponse, Plus;
    match a
    case Loop(b) => BalancedLoop(s, b, c, t);
    case Data(b) => BalancedData(s, b, c, t);
    case Shut(b) => BalancedClose(s, b, c, t);
    case _ =>
      OthersAct(s, a);
      BalancedElsewhere(s, Do(s, a), a, c, t);
  }

  lemma {:induction false} AccountsBalance(r: seq<State>, steps: seq<Step>, i: nat, c: int)
    requires IsPath(r, steps) && i < |r| && c >= 0
    ensures Balanced(r[i], c, Account(r, steps, i, c))
  {
    hide Do, Enabled, Inv, Balanced, Plus;
    if i == 0 {
      NothingYet(r[0], c);
    } else {
      AccountsBalance(r, steps, i - 1, c);
      RunKeeps(r, i - 1);
      BalancedStep(r[i - 1], steps[i - 1], c, Account(r, steps, i - 1, c));
      assert r[i - 1 + 1] == Do(r[i - 1], steps[i - 1]);
    }
  }

  lemma NothingYet(s: State, c: int)
    requires Init(s)
    ensures Balanced(s, c, Totals(0, 0, 0))
  {}

  /** In every run: every message framed for an open connection has joined the request chain
      once, was thrown away because the connection was dropped, or is still in its framer. */
  lemma MessagesAreAccountedFor(r: seq<State>, steps: seq<Step>, i: nat, fd: int)
    requires IsPath(r, steps) && i < |r| && fd in r[i].clients.info && fd in r[i].l.framers
    ensures var t := Account(r, steps, i, r[i].clients.info[fd]);
      t.framed == t.joined + t.thrown + r[i].l.framers[fd]
  {
    hide IsPath, Account;
    RunIsPath(r, steps);
    RunKeeps(r, i);
    IdIsPositive(r[i], fd);
    AccountsBalance(r, steps, i, r[i].clients.info[fd]);
    hide Inv, IsRun;
  }

  lemma RunIsPath(r: seq<State>, steps: seq<Step>)
    requires IsPath(r, steps)
    ensures IsRun(r) && |steps| == |r| - 1
  {
    hide IsRun;
  }

  lemma IdIsPositive(s: State, fd: int)
    requires Inv(s) && fd in s.clients.info
    ensures s.clients.info[fd] >= 1
  {
    RecordsOwnIds(s);
    hide Inv;
  }

  // Visits to the paused connections

  // the loop over paused connections
  predicate Visiting(pc: ListenPc) {
    pc.Resume? || Resuming(pc)
  }

  predicate FullHere(pc: ListenPc, fd: int) {
    (pc.Notify? || pc.Queued?) && pc.full && pc.fd == fd
  }

  predicate VisitedOrComing(s: State, fd: int) {
    fd in Todo(s.l.pc) || (fd !in s.l.paused && !FullHere(s.l.pc, fd))
  }

  /** A wake-up starts a visit to everybody who is paused, and so does a timeout. */
  lemma VisitsStart(s: State, a: LoopStep)
    requires LoopEnabled(s, a)
    ensures a.WakeUp? || (a.Timeout? && s.l.paused != {}) ==> DoLoop(s, a).l.pc == Resume(s.l.paused)
    ensures a.WakeUp? || (a.Timeout? && s.l.paused != {}) ==> DoLoop(s, a).l.paused == s.l.paused
  {}

  lemma VisitLoop(s: State, a: LoopStep, fd: int)
    requires Inv(s) && LoopEnabled(s, a) && Visiting(s.l.pc) && VisitedOrComing(s, fd)
    requires Cleared(s.clients.info, s.pending, fd)
    ensures VisitedOrComing(DoLoop(s, a), fd)
  {
    hide FlowInv, SockInv, OrphanInv, DupFits, SentFits, FramersFit, MasterFits, WorkingFits, MaxFits, NothingStranded;
  }

  lemma VisitData(s: State, a: DataStep, fd: int)
    requires Inv(s) && DataEnabled(s, a) && Visiting(s.l.pc) && VisitedOrComing(s, fd)
    requires Cleared(DoData(s, a).clients.info, DoData(s, a).pending, fd)
    ensures VisitedOrComing(DoData(s, a), fd)
  {
    hide FlowInv, SockInv, OrphanInv, RecordsFit, DupFits, SentFits, FramersFit, MasterFits, WorkingFits, MaxFits;
    hide NothingStranded, IsDead;
  }

  lemma VisitStep(s: State, a: Step, fd: int)
    requires Inv(s) && Enabled(s, a) && Visiting(s.l.pc) && VisitedOrComing(s, fd)
    requires Cleared(s.clients.info, s.pending, fd) && Cleared(Do(s, a).clients.info, Do(s, a).pending, fd)
    ensures VisitedOrComing(Do(s, a), fd)
  {
    if a.Loop? {
      VisitLoop(s, a.loop, fd);
    } else if a.Data? {
      VisitData(s, a.data, fd);
    } else if !a.Shut? {
      OthersAct(s, a);
    }
    hide Inv, DoLoop, DoData, DoResponse, Cleared;
  }

  /** Whoever was paused when the visit began and keeps the flag cleared is back in select()
      when it ends. */
  lemma {:induction false} VisitReachesEveryone(r: seq<State>, i: nat, j: nat, fd: int)
    requires IsRun(r) && i < j < |r| && fd in r[i].clients.info && r[i].l.pc == Resume(r[i].l.paused)
    requires forall m :: i <= m < j ==> Visiting(r[m].l.pc)
    requires forall m :: i <= m <= j ==> Cleared(r[m].clients.info, r[m].pending, fd)
    requires r[j].l.pc.Select?
    ensures fd !in r[j].l.paused && fd in r[j].l.master
  {
    hide IsRun, Cleared;
    VisitGoesOn(r, i, j, fd);
    SelectWatchesEveryone(r, j);
    assert fd in r[j].clients.info by {
      IsCleared(r[j], fd);
    }
  }

  lemma IsCleared(s: State, fd: int)
    requires Cleared(s.clients.info, s.pending, fd)
    ensures fd in s.clients.info
  {}

  lemma {:induction false} VisitGoesOn(r: seq<State>, i: nat, j: nat, fd: int)
    requires IsRun(r) && i <= j < |r| && r[i].l.pc == Resume(r[i].l.paused)
    requires forall m :: i <= m < j ==> Visiting(r[m].l.pc)
    requires forall m :: i <= m <= j ==> Cleared(r[m].clients.info, r[m].pending, fd)
    ensures VisitedOrComing(r[j], fd)
    decreases j
  {
    hide Do, Enabled, Inv, Cleared, Visiting;
    if i < j {
      VisitGoesOn(r, i, j - 1, fd);
      RunKeeps(r, j - 1);
      assert Next(r[j - 1], r[j - 1 + 1]);
      var a :| Enabled(r[j - 1], a) && r[j] == Do(r[j - 1], a);
      VisitStep(r[j - 1], a, fd);
    }
  }

  // Failed sends

  /** The response thread has sent, or tried to send, what it held at r[i], and is not done. */
  ghost predicate AfterSend(r: seq<State>, steps: seq<Step>, i: nat, j: nat, ok: bool)
    requires |steps| == |r| - 1 && i < j < |r|
  {
    var p, q := r[j].rpc, r[i].rpc;
    && q.Holding?
    && if ok then
         (p == ClosingDup(q.req, q.dup) || p == Done(q.req)) && !DropIn(steps, i + 1, j)
       else if DropIn(steps, i + 1, j) then
         p == ClosingDup(q.req, q.dup) || p == Done(q.req) || (p.DropWake? && p.req == q.req && p.dup == q.dup)
       else p == Dropping(q.req, q.dup)
  }

  predicate DropIn(steps: seq<Step>, a: nat, b: nat)
    requires b <= |steps|
  {
    exists k :: a <= k < b && steps[k] == Respond(Drop)
  }

  lemma DropInNext(steps: seq<Step>, a: nat, b: nat)
    requires a <= b < |steps|
    ensures DropIn(steps, a, b + 1) <==> DropIn(steps, a, b) || steps[b] == Respond(Drop)
  {}

  lemma SendStep(s: State, a: ResponseStep)
    requires ResponseEnabled(s, a)
    ensures a == Send(true) ==> DoResponse(s, a).rpc == ClosingDup(s.rpc.req, s.rpc.dup)
    ensures a == Send(false) ==> DoResponse(s, a).rpc == Dropping(s.rpc.req, s.rpc.dup)
    ensures s.rpc.Dropping? ==>
      && a.Drop? && DoResponse(s, a).rpc.DropWake?
      && DoResponse(s, a).rpc.req == s.rpc.req && DoResponse(s, a).rpc.dup == s.rpc.dup
    ensures s.rpc.DropWake? ==> !a.Drop? && DoResponse(s, a).rpc == ClosingDup(s.rpc.req, s.rpc.dup)
    ensures s.rpc.ClosingDup? ==> !a.Drop? && DoResponse(s, a).rpc == Done(s.rpc.req)
  {
    hide IsPaused, IsDead, MarkDead, Release;
  }

  lemma OtherStep(s: State, a: Step)
    requires Enabled(s, a) && !a.Respond?
    ensures Do(s, a).rpc == s.rpc
  {
    hide IsPaused, IsDead, MarkDead, Release, CountOrPause, AtLimit, Lower, Available;
  }

  lemma {:induction false} SendGoesOn(r: seq<State>, steps: seq<Step>, i: nat, j: nat, ok: bool)
    requires IsPath(r, steps) && i < j < |r| && steps[i] == Respond(Send(ok))
    requires forall m :: i < m < j ==> !r[m].rpc.Done?
    ensures AfterSend(r, steps, i, j, ok)
    decreases j
  {
    hide IsRun, Do, Enabled, DropIn;
    assert Enabled(r[j - 1], steps[j - 1]) && r[j - 1 + 1] == Do(r[j - 1], steps[j - 1]);
    if i == j - 1 {
      FirstStep(r[i], ok);
      NoneYet(steps, j);
    } else {
      SendGoesOn(r, steps, i, j - 1, ok);
      DropInNext(steps, i + 1, j - 1);
      NextStep(r[j - 1], steps[j - 1]);
    }
  }

  lemma NoneYet(steps: seq<Step>, j: nat)
    requires j <= |steps|
    ensures !DropIn(steps, j, j)
  {}

  lemma FirstStep(s: State, ok: bool)
    requires Enabled(s, Respond(Send(ok)))
    ensures s.rpc.Holding?
    ensures Do(s, Respond(Send(ok))).rpc ==
      if ok then ClosingDup(s.rpc.req, s.rpc.dup) else Dropping(s.rpc.req, s.rpc.dup)
  {
    SendStep(s, Send(ok));
  }

  lemma NextStep(s: State, a: Step)
    requires Enabled(s, a) && (s.rpc.Dropping? || s.rpc.DropWake? || s.rpc.ClosingDup?)
    ensures var p, p' := s.rpc, Do(s, a).rpc;
      if !a.Respond? then p' == p
      else if p.Dropping? then a == Respond(Drop) && p'.DropWake? && p'.req == p.req && p'.dup == p.dup
      else a != Respond(Drop) && p' == if p.DropWake? then ClosingDup(p.req, p.dup) else Done(p.req)
  {
    if a.Respond? {
      SendStep(s, a.resp);
    } else {
      OtherStep(s, a);
    }
    hide DoResponse, DoLoop, DoData, DoClose, LoopEnabled, DataEnabled, CloseEnabled;
  }

  /** When the response thread is done with a response that it tried to send, it has dropped the
      connection if and only if the send failed. */
  lemma DroppedIffSendFails(r: seq<State>, steps: seq<Step>, i: nat, j: nat, ok: bool)
    requires IsPath(r, steps) && i < j < |r| && steps[i] == Respond(Send(ok))
    requires r[j].rpc.Done? && forall m :: i < m < j ==> !r[m].rpc.Done?
    ensures (exists k :: i < k < j && steps[k] == Respond(Drop)) <==> !ok
  {
    hide IsPath;
    RunIsPath(r, steps);
    SendGoesOn(r, steps, i, j, ok);
    assert DropIn(steps, i + 1, j) <==> exists k :: i < k < j && steps[k] == Respond(Drop);
  }

  // Descriptors

  function Fixed(ids: Ids): set<int> {
    {ids.listen, ids.wakeRead, ids.wakeWrite}
  }

  // a descriptor of one thread only
  function OwnFd(pc: ListenPc): set<int> {
    if Private(pc) then {pc.fd} else {}
  }

  function DupFd(pc: ResponsePc): set<int> {
    if Holds(pc) then {pc.dup} else {}
  }

  /** Every open descriptor is known to somebody. */
  ghost predicate FdsKnown(s: State) {
    && s.fds.Keys == Fixed(s.ids) + s.clients.info.Keys + OwnFd(s.l.pc) + DupFd(s.rpc)
    && s.ids.wakeWrite in s.fds && s.fds[s.ids.wakeWrite] == WakeWrite
  }

  lemma KnownLoop(s: State, a: LoopStep)
    requires Inv(s) && FdsKnown(s) && LoopEnabled(s, a)
    ensures FdsKnown(DoLoop(s, a))
  {
    hide FlowInv, SockInv, OrphanInv, SentFits, FramersFit;
    hide MasterFits, PlaceFits, WorkingFits, MaxFits, NothingStranded;
    hide IsPaused;
  }

  lemma KnownData(s: State, a: DataStep)
    requires FdsKnown(s) && DataEnabled(s, a)
    ensures FdsKnown(DoData(s, a))
  {
    hide CountOrPause, AtLimit, IsDead, Available;
    var s' := DoData(s, a);
    assert s'.fds == s.fds && s'.clients == s.clients && s'.rpc == s.rpc && s'.ids == s.ids;
    assert OwnFd(s'.l.pc) == OwnFd(s.l.pc) == {};
  }

  lemma KnownClose(s: State, a: CloseStep)
    requires Inv(s) && FdsKnown(s) && CloseEnabled(s, a)
    ensures FdsKnown(DoClose(s, a))
  {
    hide FlowInv, SockInv, OrphanInv, SentFits, FramersFit, MasterFits, WorkingFits, MaxFits, NothingStranded, Lower;
  }

  lemma KnownResponse(s: State, a: ResponseStep)
    requires Inv(s) && FdsKnown(s) && ResponseEnabled(s, a)
    ensures FdsKnown(DoResponse(s, a))
  {
    hide FlowInv, SockInv, OrphanInv, SentFits, FramersFit;
    hide MasterFits, PlaceFits, WorkingFits, MaxFits, NothingStranded;
    hide IsPaused, IsDead, MarkDead, Release;
  }

  lemma KnownStep(s: State, a: Step)
    requires Inv(s) && FdsKnown(s) && Enabled(s, a)
    ensures FdsKnown(Do(s, a))
  {
    hide Inv, FdsKnown, DoLoop, DoData, DoClose, DoResponse;
    match a
    case Loop(b) => KnownLoop(s, b);
    case Data(b) => KnownData(s, b);
    case Shut(b) => KnownClose(s, b);
    case Respond(b) => KnownResponse(s, b);
    case Schedule(_) => SameFds(s, Do(s, a));
    case Unchecked(_) => SameFds(s, Do(s, a));
  }

  lemma SameFds(s: State, s': State)
    requires FdsKnown(s) && s'.fds == s.fds && s'.clients == s.clients
    requires s'.l == s.l && s'.rpc == s.rpc && s'.ids == s.ids
    ensures FdsKnown(s')
  {}

  lemma {:induction false} KnownInRuns(r: seq<State>, i: nat)
    requires IsRun(r) && i < |r|
    ensures FdsKnown(r[i])
  {
    hide Do, Enabled, Inv, FdsKnown;
    if i == 0 {
      KnownAtFirst(r[0]);
    } else {
      KnownInRuns(r, i - 1);
      RunKeeps(r, i - 1);
      assert Next(r[i - 1], r[i - 1 + 1]);
      var a :| Enabled(r[i - 1], a) && r[i] == Do(r[i - 1], a);
      KnownStep(r[i - 1], a);
    }
  }

  lemma KnownAtFirst(s: State)
    requires Init(s)
    ensures FdsKnown(s)
  {}

  /** No descriptor leaks: whenever the listen thread waits and the response thread has nothing in
      hand, the open ones are the server's own three and those of the registered connections. */
  lemma NoDescriptorLeaks(r: seq<State>, i: nat)
    requires IsRun(r) && i < |r| && r[i].l.pc.Select? && r[i].rpc.Idle?
    ensures r[i].fds.Keys == {r[i].ids.listen, r[i].ids.wakeRead, r[i].ids.wakeWrite} + r[i].clients.info.Keys
  {
    hide IsRun;
    KnownInRuns(r, i);
  }
}
