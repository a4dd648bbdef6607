/**
 The connection protocol and the request pipeline running together: the listen thread hands
 a request from one to the other, and every reply that the pipeline schedules goes into the
 server's response chain.  The server machine on its own takes for granted that a handler
 answers each request once; here that is a result.
 */
module ServerAndPipeline {
  import N = NetServer
  import T = NetServerTheorems
  import F = NetServerFlow
  import P = RpcPipeline
  import R = RpcTheorems

  datatype Both = Both(net: N.State, rpc: P.State)

  // a step of one machine alone, a request handed over, or a reply scheduled
  datatype Step = Net(a: N.Step) | Pipe(b: P.Step) | HandOver(q: P.Request) | Reply(b: P.Step)

  predicate Schedules(b: P.Step) {
    b.RefuseIt? || b.NoMemory? || b.PutFails? || b.ResponderSends?
  }

  function Key(fd: int, cltid: int): N.Req {
    N.Req(fd, cltid)
  }

  predicate Init(s: Both) {
    N.Init(s.net) && P.Init(s.rpc)
  }

  predicate Enabled(s: Both, a: Step) {
    match a
    // requests are judged on the listen thread, which does nothing else meanwhile
    case Net(b) =>
      && N.Enabled(s.net, b) && b != N.Data(N.NotifyOne) && !b.Schedule?
      && (b.Loop? || b.Data? || b.Shut? ==> s.rpc.l.Free?)
    case Pipe(b) => P.Enabled(s.rpc, b) && !b.Arrive? && !Schedules(b)
    case HandOver(q) =>
      && N.Enabled(s.net, N.Data(N.NotifyOne)) && P.Enabled(s.rpc, P.Arrive(q))
      && s.net.t.requests[0] == Key(q.fd, q.cltid)
    case Reply(b) => P.Enabled(s.rpc, b) && Schedules(b)
  }

  // the reply that a scheduling step appends
  function Last(s: P.State, b: P.Step): P.Reply
    requires P.Enabled(s, b) && Schedules(b)
  {
    var q := P.Do(s, b).scheduled;
    q[|q| - 1]
  }

  // schedule_response, whoever calls it
  function Scheduled(s: N.State, r: N.Req): N.State {
    s.(t := s.t.(handlers := s.t.handlers - multiset{r}, responses := s.t.responses + [r]))
  }

  function Do(s: Both, a: Step): Both
    requires Enabled(s, a)
  {
    match a
    case Net(b) => s.(net := N.Do(s.net, b))
    case Pipe(b) => s.(rpc := P.Do(s.rpc, b))
    case HandOver(q) => Both(N.Do(s.net, N.Data(N.NotifyOne)), P.Do(s.rpc, P.Arrive(q)))
    case Reply(b) => Both(Scheduled(s.net, Key(Last(s.rpc, b).fd, Last(s.rpc, b).cltid)), P.Do(s.rpc, b))
  }

  ghost predicate Next(s: Both, s': Both) {
    exists a :: Enabled(s, a) && s' == Do(s, a)
  }

  ghost predicate IsRun(r: seq<Both>) {
    |r| > 0 && Init(r[0]) && forall i :: 0 <= i < |r| - 1 ==> Next(r[i], r[i + 1])
  }

  // What both machines say about a request

  function Keys(ts: seq<P.Task>): seq<N.Req> {
    seq(|ts|, i requires 0 <= i < |ts| => Key(ts[i].fd, ts[i].cltid))
  }

  // the requests in the pipeline that wait for their answer
  function InPipeline(s: P.State): multiset<N.Req> {
    multiset(Keys(s.tasks)) + (if s.r.Sending? then multiset{Key(s.r.task.fd, s.r.task.cltid)} else multiset{})
    + (if s.l.Judging? && s.l.uid < |s.arrived| then multiset{Key(s.arrived[s.l.uid].fd, s.arrived[s.l.uid].cltid)}
       else multiset{})
  }

  /** The server's handlers hold exactly what is in the pipeline. */
  ghost predicate Inv(s: Both) {
    T.Inv(s.net) && R.Inv(s.rpc) && s.net.t.handlers == InPipeline(s.rpc)
  }

  lemma KeysSnoc(ts: seq<P.Task>, t: P.Task)
    ensures multiset(Keys(ts + [t])) == multiset(Keys(ts)) + multiset{Key(t.fd, t.cltid)}
  {
    assert Keys(ts + [t]) == Keys(ts) + [Key(t.fd, t.cltid)];
  }

  lemma KeysHead(ts: seq<P.Task>)
    requires ts != []
    ensures multiset(Keys(ts)) == multiset{Key(ts[0].fd, ts[0].cltid)} + multiset(Keys(ts[1..]))
  {
    assert Keys(ts) == [Key(ts[0].fd, ts[0].cltid)] + Keys(ts[1..]);
  }

  lemma AdmitKeeps(s: P.State)
    requires R.Inv(s) && P.Enabled(s, P.Admit)
    ensures InPipeline(P.Do(s, P.Admit)) == InPipeline(s)
  {
    hide P.Judge, Keys, R.LineInv, R.SemInv, R.OrderInv, R.OnceInv, R.ContentInv;
    KeysSnoc(s.tasks, P.Do(s, P.Admit).l.task);
  }

  lemma FindKeeps(s: P.State)
    requires R.Inv(s) && P.Enabled(s, P.ResponderFinds)
    ensures InPipeline(P.Do(s, P.ResponderFinds)) == InPipeline(s)
  {
    hide P.IndexOf, P.Without, Keys, R.LineInv, R.SemInv, R.OrderInv, R.OnceInv, R.ContentInv;
    R.LineFinds(s);
    KeysHead(s.tasks);
  }

  lemma SamePipeline(s: P.State, s': P.State)
    requires s'.tasks == s.tasks && s'.arrived == s.arrived
    requires (!s.r.Sending? && !s'.r.Sending?) || s'.r == s.r
    requires (!s.l.Judging? && !s'.l.Judging?) || s'.l == s.l
    ensures InPipeline(s') == InPipeline(s)
  {}

  lemma PipeKeeps(s: P.State, b: P.Step)
    requires R.Inv(s) && P.Enabled(s, b) && !b.Arrive? && !Schedules(b)
    ensures InPipeline(P.Do(s, b)) == InPipeline(s)
  {
    hide P.Judge, P.IndexOf, P.Without, InPipeline, R.Inv;
    if b.Admit? {
      AdmitKeeps(s);
    } else if b.ResponderFinds? {
      FindKeeps(s);
    } else {
      SamePipeline(s, P.Do(s, b));
    }
  }

  lemma ArriveAdds(s: P.State, q: P.Request)
    requires P.Enabled(s, P.Arrive(q))
    ensures InPipeline(P.Do(s, P.Arrive(q))) == InPipeline(s) + multiset{Key(q.fd, q.cltid)}
  {
    hide Keys;
  }

  lemma ReplyTakes(s: P.State, b: P.Step)
    requires R.Inv(s) && P.Enabled(s, b) && Schedules(b)
    ensures InPipeline(s) == InPipeline(P.Do(s, b)) + multiset{Key(Last(s, b).fd, Last(s, b).cltid)}
  {
    hide P.Judge, P.IndexOf, P.Without, Keys, R.Line, R.SemInv, R.OrderInv, R.OnceInv, R.ContentInv, R.Increasing;
    if b.PutFails? {
      R.LinePutFails(s);
      var rest := P.Do(s, b).tasks;
      assert s.tasks == rest + [s.l.task];
      KeysSnoc(rest, s.l.task);
    }
  }

  /** Every reply of the pipeline is an answer that the server waits for. */
  lemma ReplyIsSchedule(s: Both, b: P.Step)
    requires Inv(s) && Enabled(s, Reply(b))
    ensures var r := Key(Last(s.rpc, b).fd, Last(s.rpc, b).cltid);
      N.Enabled(s.net, N.Schedule(r)) && Do(s, Reply(b)).net == N.Do(s.net, N.Schedule(r))
  {
    hide T.Inv, R.Inv, InPipeline;
    ReplyTakes(s.rpc, b);
  }

  lemma StepKeeps(s: Both, a: Step)
    requires Inv(s) && Enabled(s, a)
    ensures Inv(Do(s, a))
  {
    hide T.Inv, R.Inv, InPipeline, N.Init, P.Init;
    match a
    case Net(b) =>
      T.StepKeeps(s.net, b);
      HandlersStay(s.net, b);
    case Pipe(b) =>
      R.StepKeeps(s.rpc, b);
      PipeKeeps(s.rpc, b);
    case HandOver(q) =>
      T.StepKeeps(s.net, N.Data(N.NotifyOne));
      R.StepKeeps(s.rpc, P.Arrive(q));
      ArriveAdds(s.rpc, q);
    case Reply(b) =>
      ReplyIsSchedule(s, b);
      T.StepKeeps(s.net, N.Schedule(Key(Last(s.rpc, b).fd, Last(s.rpc, b).cltid)));
      R.StepKeeps(s.rpc, b);
      ReplyTakes(s.rpc, b);
  }

  lemma HandlersStay(s: N.State, a: N.Step)
    requires N.Enabled(s, a) && a != N.Data(N.NotifyOne) && !a.Schedule?
    ensures N.Do(s, a).t.handlers == s.t.handlers
  {}

  lemma {:induction false} RunKeeps(r: seq<Both>, i: nat)
    requires IsRun(r) && i < |r|
    ensures Inv(r[i])
  {
    hide Do, Enabled, T.Inv, R.Inv;
    if i == 0 {
      T.InitKeeps(r[0].net);
      R.InitInv(r[0].rpc);
      assert Keys([]) == [];
    } else {
      RunKeeps(r, i - 1);
      assert Next(r[i - 1], r[i - 1 + 1]);
      var a :| Enabled(r[i - 1], a) && r[i] == Do(r[i - 1], a);
      StepKeeps(r[i - 1], a);
    }
  }

  // Counting and releasing over a run

  // the step from s to s' counts this request, or releases it
  predicate Counts(s: N.State, s': N.State, q: N.Req) {
    && s.l.pc.QueueLoop? && s'.l.pc.QueueTake? && s.l.pc.fd in s.clients.info
    && q == Key(s.l.pc.fd, s.clients.info[s.l.pc.fd])
  }

  predicate Releases(s: N.State, s': N.State, q: N.Req) {
    s.rpc == N.Done(q) && s'.rpc != s.rpc
  }

  function Counted(r: seq<Both>, i: nat, q: N.Req): nat
    requires i < |r|
  {
    if i == 0 then 0 else Counted(r, i - 1, q) + if Counts(r[i - 1].net, r[i].net, q) then 1 else 0
  }

  function Released(r: seq<Both>, i: nat, q: N.Req): nat
    requires i < |r|
  {
    if i == 0 then 0 else Released(r, i - 1, q) + if Releases(r[i - 1].net, r[i].net, q) then 1 else 0
  }

  lemma NetBalance(s: N.State, a: N.Step, q: N.Req)
    requires N.Enabled(s, a) && q.cltid >= 0
    ensures var s' := N.Do(s, a);
      F.Unfinished(s')[q] + (if Releases(s, s', q) then 1 else 0)
          == F.Unfinished(s)[q] + (if Counts(s, s', q) then 1 else 0)
  {
    hide F.Unfinished;
    match a
    case Loop(b) => F.UnfinishedLoop(s, b);
    case Data(b) => F.UnfinishedData(s, b);
    case Shut(b) => F.UnfinishedClose(s, b);
    case Respond(b) => F.UnfinishedResponse(s, b);
    case Schedule(r) => F.UnfinishedSchedule(s, r);
    case Unchecked(fd) => F.UnfinishedUnchecked(s, fd);
  }

  /** In every run, what was counted for a connection and not released is what is unfinished. */
  lemma {:induction false} CountedMinusReleased(r: seq<Both>, i: nat, q: N.Req)
    requires IsRun(r) && i < |r| && q.cltid >= 0
    ensures Counted(r, i, q) == Released(r, i, q) + F.Unfinished(r[i].net)[q]
  {
    hide Init, Enabled, Do, F.Unfinished, Inv, Counts, Releases;
    if i == 0 {
      NothingAtFirst(r[0]);
    } else {
      CountedMinusReleased(r, i - 1, q);
      RunKeeps(r, i - 1);
      assert Next(r[i - 1], r[i - 1 + 1]);
      var a :| Enabled(r[i - 1], a) && r[i] == Do(r[i - 1], a);
      StepBalance(r[i - 1], a, q);
    }
  }

  lemma NothingAtFirst(s: Both)
    requires Init(s)
    ensures F.Unfinished(s.net) == multiset{}
  {}

  lemma StepBalance(s: Both, a: Step, q: N.Req)
    requires Inv(s) && Enabled(s, a) && q.cltid >= 0
    ensures var n, n' := s.net, Do(s, a).net;
      F.Unfinished(n')[q] + (if Releases(n, n', q) then 1 else 0)
          == F.Unfinished(n)[q] + (if Counts(n, n', q) then 1 else 0)
  {
    hide F.Unfinished, N.Do, P.Do, Inv;
    match a
    case Net(b) => NetBalance(s.net, b, q);
    case Pipe(_) =>
    case HandOver(_) => NetBalance(s.net, N.Data(N.NotifyOne), q);
    case Reply(b) =>
      ReplyIsSchedule(s, b);
      NetBalance(s.net, N.Schedule(Key(Last(s.rpc, b).fd, Last(s.rpc, b).cltid)), q);
  }

  /** No thread of either machine has anything to do but wait in select(). */
  ghost predicate AtRest(s: Both) {
    && R.Drained(s.rpc) && s.net.l.pc.Select? && s.net.rpc.Idle? && s.net.t.responses == []
  }

  lemma NothingUnfinished(r: seq<Both>, i: nat)
    requires IsRun(r) && i < |r| && AtRest(r[i])
    ensures F.Unfinished(r[i].net) == multiset{}
  {
    hide IsRun, R.Drained;
    RunKeeps(r, i);
    R.DrainedIsEmpty(r[i].rpc);
    hide R.Inv;
    assert Keys([]) == [];
    assert InPipeline(r[i].rpc) == multiset{};
    T.NothingLeftInChain(r[i].net);
  }

  /** At rest, every request counted for a connection has been released exactly once. */
  lemma EveryRequestReleasedOnce(r: seq<Both>, i: nat, q: N.Req)
    requires IsRun(r) && i < |r| && AtRest(r[i]) && q.cltid >= 0
    ensures Counted(r, i, q) == Released(r, i, q)
  {
    hide IsRun, AtRest;
    CountedMinusReleased(r, i, q);
    NothingUnfinished(r, i);
  }

  /** And whatever was sent for it went to its own socket. */
  lemma AnswersWentHome(r: seq<Both>, i: nat, k: nat)
    requires IsRun(r) && i < |r| && k < |r[i].net.sent| && r[i].net.sent[k].cltid >= 0
    ensures var d, home := r[i].net.sent[k], r[i].net.clients.home;
      d.cltid in home && home[d.cltid].sock == d.sock
          && forall c :: c in home && home[c].sock == d.sock ==> c == d.cltid
  {
    hide IsRun, R.Inv;
    RunKeeps(r, i);
    T.SentHome(r[i].net, k);
  }
}
