/**
 The request/response pipeline: the listen thread judges a request and hands it to the
 handler thread, the handler thread passes its ident on to the response thread, and
 that thread schedules the answer.  Chains are sequences, semaphores are counters, and
 every access that another thread can see is one step.
 */
module RpcPipeline {
  import opened Ascii
  import opened JsonGrammar
  import opened Options
  import opened FirstMatch
  import opened JsonChecker
  import opened FramerMeetsChecker
  import opened CheckerTheorems

  const PARSE_ERROR := -32700
  const INVALID_REQUEST := -32600
  const METHOD_NOT_FOUND := -32601
  const INVALID_PARAMS := -32602
  const INTERNAL_ERROR := -32603

  // what the JSON library finds in a text: its "id" as a number, and the registered command
  // that its "method" names
  datatype Parsed = Unparsed | Parsed(id: Option<int>, command: Option<int>)

  datatype Request = Request(fd: int, cltid: int, text: Text, parsed: Parsed)

  datatype Verdict = Refuse(code: int, id: int) | Dispatch(id: int, command: int)

  /** json_process_request up to the point where a task is made. */
  function Judge(r: Request): Verdict {
    if r.text != [] && r.text[0] == LSQRB then Refuse(INVALID_REQUEST, 0)
    else if !Accepts(20, CString(r.text)) then Refuse(PARSE_ERROR, 0)
    else if r.parsed.Unparsed? then Refuse(PARSE_ERROR, 0)
    else if r.parsed.id.None? then Refuse(INVALID_REQUEST, 0)
    else if r.parsed.command.None? then Refuse(METHOD_NOT_FOUND, r.parsed.id.value)
    else Dispatch(r.parsed.id.value, r.parsed.command.value)
  }

  // a JSON-RPC response has either an error or a result; a null id is None
  datatype Body = Error(code: int, id: Option<int>) | Result(id: Option<int>)

  function ErrorBody(code: int, id: int): Body {
    Error(code, if code == METHOD_NOT_FOUND || code == INVALID_PARAMS then Some(id) else None)
  }

  // an answer in the server's response chain; uid is the number of the request it answers
  datatype Reply = Reply(uid: nat, fd: int, cltid: int, body: Body)

  datatype Task = Task(ident: int, uid: nat, id: int, command: int, fd: int, cltid: int)

  datatype ListenPc = Free | Judging(uid: nat) | Admitted(task: Task) | Posting
  datatype HandlerPc = Waiting | Woken | Handling(task: Task) | Answered
  datatype ResponsePc = Resting | Alerted | Got(ident: int) | Sending(task: Task)

  datatype State = State(
    arrived: seq<Request>, l: ListenPc, lastIdent: int,
    tasks: seq<Task>,                     // ReqRespChain
    reqChain: seq<Task>, reqSem: nat, h: HandlerPc,
    respChain: seq<int>, respSem: nat, r: ResponsePc,
    scheduled: seq<Reply>)

  predicate Init(s: State) {
    s == State([], Free, 0, [], [], 0, Waiting, [], 0, Resting, [])
  }

  function Idents(ts: seq<Task>): seq<int> {
    seq(|ts|, i requires 0 <= i < |ts| => ts[i].ident)
  }

  function IndexOf(ts: seq<Task>, ident: int): (k: nat)
    ensures k <= |ts|
  {
    Find(Idents(ts), ident)
  }

  /** chain_remove_by_ident. */
  function Without(ts: seq<Task>, ident: int): seq<Task> {
    var k := IndexOf(ts, ident);
    if k == |ts| then ts else Drop(ts, k)
  }

  datatype Step =
    | Arrive(req: Request)
    | RefuseIt
    | NoMemory
    | Admit
    | Put
    | PutFails
    | Post
    | HandlerWakes
    | HandlerGets
    | HandlerAnswers
    | HandlerPosts
    | ResponderWakes
    | ResponderGets
    | ResponderFinds
    | ResponderSends

  predicate Enabled(s: State, a: Step) {
    match a
    case Arrive(_) => s.l.Free?
    case RefuseIt => s.l.Judging? && s.l.uid < |s.arrived| && Judge(s.arrived[s.l.uid]).Refuse?
    case NoMemory => s.l.Judging? && s.l.uid < |s.arrived| && Judge(s.arrived[s.l.uid]).Dispatch?
    case Admit => s.l.Judging? && s.l.uid < |s.arrived| && Judge(s.arrived[s.l.uid]).Dispatch?
    case Put => s.l.Admitted?
    case PutFails => s.l.Admitted?
    case Post => s.l.Posting?
    case HandlerWakes => s.h.Waiting? && s.reqSem > 0
    case HandlerGets => s.h.Woken?
    case HandlerAnswers => s.h.Handling?
    case HandlerPosts => s.h.Answered?
    case ResponderWakes => s.r.Resting? && s.respSem > 0
    case ResponderGets => s.r.Alerted?
    case ResponderFinds => s.r.Got?
    case ResponderSends => s.r.Sending?
  }

  function Answer(s: State, uid: nat, fd: int, cltid: int, b: Body): State {
    s.(scheduled := s.scheduled + [Reply(uid, fd, cltid, b)])
  }

  function Do(s: State, a: Step): State
    requires Enabled(s, a)
  {
    match a
    case Arrive(req) => s.(arrived := s.arrived + [req], l := Judging(|s.arrived|))
    case RefuseIt =>
      var q := s.arrived[s.l.uid];
      Answer(s, s.l.uid, q.fd, q.cltid, ErrorBody(Judge(q).code, Judge(q).id)).(l := Free)
    case NoMemory =>
      var q := s.arrived[s.l.uid];
      Answer(s, s.l.uid, q.fd, q.cltid, ErrorBody(INTERNAL_ERROR, Judge(q).id)).(l := Free)
    case Admit =>
      var q := s.arrived[s.l.uid];
      var t := Task(s.lastIdent + 1, s.l.uid, Judge(q).id, Judge(q).command, q.fd, q.cltid);
      s.(lastIdent := t.ident, tasks := s.tasks + [t], l := Admitted(t))
    case Put => s.(reqChain := s.reqChain + [s.l.task], l := Posting)
    // the handler chain refuses: the entry is taken back and the request answered here
    case PutFails =>
      var t := s.l.task;
      Answer(s, t.uid, t.fd, t.cltid, ErrorBody(INTERNAL_ERROR, t.id)).(tasks := Without(s.tasks, t.ident), l := Free)
    case Post => s.(reqSem := s.reqSem + 1, l := Free)
    case HandlerWakes => s.(reqSem := s.reqSem - 1, h := Woken)
    case HandlerGets =>
      if s.reqChain == [] then s.(h := Waiting) else s.(reqChain := s.reqChain[1..], h := Handling(s.reqChain[0]))
    case HandlerAnswers => s.(respChain := s.respChain + [s.h.task.ident], h := Answered)
    case HandlerPosts => s.(respSem := s.respSem + 1, h := Waiting)
    case ResponderWakes => s.(respSem := s.respSem - 1, r := Alerted)
    case ResponderGets =>
      if s.respChain == [] then s.(r := Resting) else s.(respChain := s.respChain[1..], r := Got(s.respChain[0]))
    case ResponderFinds =>
      var k := IndexOf(s.tasks, s.r.ident);
      if k == |s.tasks| then s.(r := Resting) else s.(tasks := Without(s.tasks, s.r.ident), r := Sending(s.tasks[k]))
    case ResponderSends =>
      var t := s.r.task;
      Answer(s, t.uid, t.fd, t.cltid, Result(Some(t.id))).(r := Resting)
  }

  ghost predicate Next(s: State, s': State) {
    exists a :: Enabled(s, a) && s' == Do(s, a)
  }

  ghost predicate IsRun(r: seq<State>) {
    |r| > 0 && Init(r[0]) && forall i :: 0 <= i < |r| - 1 ==> Next(r[i], r[i + 1])
  }
}

/** Exactly one answer per request, and handler answers in arrival order. */
module RpcTheorems {
  import opened Ascii
  import opened JsonGrammar
  import opened Options
  import opened FirstMatch
  import opened FramerMeetsChecker
  import opened CheckerTheorems
  import JsonChecker
  import opened RpcPipeline

  function Uids(ts: seq<Task>): seq<nat> {
    seq(|ts|, i requires 0 <= i < |ts| => ts[i].uid)
  }

  // Where a task is: in the chain of all tasks it stands in the order of the pipeline

  /** The idents on their way, the oldest first. */
  function Line(s: State): seq<int> {
    (if s.r.Got? then [s.r.ident] else [])
    + (s.respChain + ((if s.h.Handling? then [s.h.task.ident] else [])
    + (Idents(s.reqChain) + (if s.l.Admitted? then [s.l.task.ident] else []))))
  }

  ghost predicate Increasing(q: seq<int>, bound: int) {
    && (forall i, j :: 0 <= i < j < |q| ==> q[i] < q[j])
    && (forall i :: 0 <= i < |q| ==> q[i] < bound)
  }

  ghost predicate LineInv(s: State) {
    && Idents(s.tasks) == Line(s)
    && Increasing(Idents(s.tasks), s.lastIdent + 1)
    && (s.l.Admitted? ==> s.tasks != [] && s.tasks[|s.tasks| - 1] == s.l.task)
  }

  /** Each semaphore counts the elements of its chain that nobody has come for yet. */
  ghost predicate SemInv(s: State) {
    && s.reqSem + (if s.l.Posting? then 1 else 0) + (if s.h.Woken? then 1 else 0) == |s.reqChain|
    && s.respSem + (if s.h.Answered? then 1 else 0) + (if s.r.Alerted? then 1 else 0) == |s.respChain|
  }

  lemma HeadGoesFirst(ts: seq<Task>, bound: int)
    requires ts != [] && Increasing(Idents(ts), bound)
    ensures IndexOf(ts, ts[0].ident) == 0 && Without(ts, ts[0].ident) == ts[1..]
    ensures IndexOf(ts, ts[|ts| - 1].ident) == |ts| - 1 && Without(ts, ts[|ts| - 1].ident) == ts[..|ts| - 1]
  {
    FindIs(Idents(ts), ts[0].ident, 0);
    FindIs(Idents(ts), ts[|ts| - 1].ident, |ts| - 1);
  }

  lemma SemsKept(s: State, a: Step)
    requires SemInv(s) && Enabled(s, a)
    ensures SemInv(Do(s, a))
  {
    hide Judge, IndexOf, Without;
  }

  lemma Appended(ts: seq<Task>, t: Task)
    ensures Idents(ts + [t]) == Idents(ts) + [t.ident]
    ensures Uids(ts + [t]) == Uids(ts) + [t.uid]
  {}

  lemma Popped(ts: seq<Task>)
    requires ts != []
    ensures Idents(ts) == [ts[0].ident] + Idents(ts[1..])
    ensures Uids(ts) == [ts[0].uid] + Uids(ts[1..])
  {}

  lemma Chopped(ts: seq<Task>)
    requires ts != []
    ensures Idents(ts) == Idents(ts[..|ts| - 1]) + [ts[|ts| - 1].ident]
    ensures Uids(ts) == Uids(ts[..|ts| - 1]) + [ts[|ts| - 1].uid]
  {}

  lemma Parts(q: seq<int>, u: seq<int>, bound: int)
    requires Increasing(q + u, bound)
    ensures Increasing(q, bound) && Increasing(u, bound)
  {
    assert forall i :: 0 <= i < |q| ==> (q + u)[i] == q[i];
    assert forall i :: 0 <= i < |u| ==> (q + u)[|q| + i] == u[i];
  }

  // the end of the line: what the listen thread does

  lemma LineAdmit(s: State, a: Step)
    requires LineInv(s) && Enabled(s, a) && (a.Admit? || a.Put?)
    ensures LineInv(Do(s, a))
  {
    hide Judge, Idents;
    var s' := Do(s, a);
    if a.Admit? {
      Appended(s.tasks, s'.l.task);
      assert Line(s') == Line(s) + [s'.l.task.ident];
    } else {
      Appended(s.reqChain, s.l.task);
      assert Line(s') == Line(s);
    }
  }

  lemma LinePutFails(s: State)
    requires LineInv(s) && Enabled(s, PutFails)
    ensures LineInv(Do(s, PutFails)) && Do(s, PutFails).tasks == s.tasks[..|s.tasks| - 1]
  {
    hide IndexOf, Without, Idents;
    var s' := Do(s, PutFails);
    HeadGoesFirst(s.tasks, s.lastIdent + 1);
    Chopped(s.tasks);
    assert Line(s) == Line(s') + [s.l.task.ident];
    hide Increasing;
    Parts(Line(s'), [s.l.task.ident], s.lastIdent + 1);
    assert Idents(s'.tasks) == Line(s)[..|Line(s)| - 1] == Line(s');
  }

  lemma LineHandler(s: State, a: Step)
    requires LineInv(s) && SemInv(s) && Enabled(s, a) && (a.HandlerGets? || a.HandlerAnswers?)
    ensures Line(Do(s, a)) == Line(s)
  {
    hide Idents;
    if a.HandlerGets? {
      Popped(s.reqChain);
    }
  }

  lemma LineFinds(s: State)
    requires LineInv(s) && Enabled(s, ResponderFinds)
    ensures LineInv(Do(s, ResponderFinds))
    ensures s.tasks != [] && Do(s, ResponderFinds).r == Sending(s.tasks[0])
        && Do(s, ResponderFinds).tasks == s.tasks[1..]
  {
    hide IndexOf, Without, Idents, Increasing;
    Length(s.tasks);
    HeadGoesFirst(s.tasks, s.lastIdent + 1);
    Popped(s.tasks);
    var s' := Do(s, ResponderFinds);
    assert Line(s) == [s.r.ident] + Line(s');
    Parts([s.r.ident], Line(s'), s.lastIdent + 1);
    assert s.l.Admitted? ==> |Line(s)| >= 2;
    assert Idents(s'.tasks) == Line(s)[1..] == Line(s');
  }

  lemma Length(ts: seq<Task>)
    ensures |Idents(ts)| == |ts| == |Uids(ts)|
  {}

  lemma LineKept(s: State, a: Step)
    requires LineInv(s) && SemInv(s) && Enabled(s, a)
    ensures LineInv(Do(s, a))
  {
    hide Judge, IndexOf, Without, Idents, Increasing;
    match a
    case Admit => LineAdmit(s, a);
    case Put => LineAdmit(s, a);
    case PutFails => LinePutFails(s);
    case HandlerGets => LineHandler(s, a);
    case HandlerAnswers => LineHandler(s, a);
    case ResponderGets => assert Line(Do(s, a)) == Line(s);
    case ResponderFinds => LineFinds(s);
    case _ =>
  }

  // Arrival order

  /** The requests that a handler has answered, in the order in which the answers were
      scheduled. */
  function ResultUids(q: seq<Reply>): seq<int> {
    if q == [] then [] else
    var last := q[|q| - 1];
    ResultUids(q[..|q| - 1]) + if last.body.Result? then [last.uid] else []
  }

  lemma ResultSnoc(q: seq<Reply>, x: Reply)
    ensures ResultUids(q + [x]) == ResultUids(q) + if x.body.Result? then [x.uid] else []
  {
    assert (q + [x])[..|q|] == q;
  }

  function Order(s: State): seq<int> {
    ResultUids(s.scheduled) + ((if s.r.Sending? then [s.r.task.uid] else []) + Uids(s.tasks))
  }

  // no task carries the number of the request that is being judged
  function Bound(s: State): int {
    if s.l.Judging? then s.l.uid else |s.arrived|
  }

  ghost predicate OrderInv(s: State) {
    Increasing(Order(s), Bound(s)) && (s.l.Judging? ==> s.l.uid == |s.arrived| - 1)
  }

  lemma Longer(q: seq<int>, x: int, bound: int)
    requires Increasing(q, x) && x < bound
    ensures Increasing(q + [x], bound) && Increasing(q, bound)
  {}

  lemma OrderAdmit(s: State)
    requires OrderInv(s) && Enabled(s, Admit)
    ensures OrderInv(Do(s, Admit))
  {
    hide Judge, Uids, ResultUids, Increasing;
    var s' := Do(s, Admit);
    Appended(s.tasks, s'.l.task);
    assert Order(s') == Order(s) + [s.l.uid];
    Longer(Order(s), s.l.uid, |s.arrived|);
  }

  lemma OrderAnswers(s: State, a: Step)
    requires OrderInv(s) && Enabled(s, a) && (a.RefuseIt? || a.NoMemory? || a.Arrive?)
    ensures OrderInv(Do(s, a))
  {
    hide Judge, Uids, ResultUids;
    var s' := Do(s, a);
    if !a.Arrive? {
      ResultSnoc(s.scheduled, s'.scheduled[|s.scheduled|]);
    }
    assert Order(s') == Order(s);
  }

  lemma OrderPutFails(s: State)
    requires OrderInv(s) && LineInv(s) && Enabled(s, PutFails)
    ensures OrderInv(Do(s, PutFails))
  {
    hide Judge, Uids, ResultUids, IndexOf, Without, Line, Increasing;
    LinePutFails(s);
    var s' := Do(s, PutFails);
    ResultSnoc(s.scheduled, s'.scheduled[|s.scheduled|]);
    Chopped(s.tasks);
    assert Order(s) == Order(s') + [s.tasks[|s.tasks| - 1].uid];
    Parts(Order(s'), [s.tasks[|s.tasks| - 1].uid], |s.arrived|);
  }

  lemma OrderResponder(s: State, a: Step)
    requires OrderInv(s) && LineInv(s) && Enabled(s, a) && (a.ResponderFinds? || a.ResponderSends?)
    ensures Order(Do(s, a)) == Order(s)
  {
    hide Judge, Uids, ResultUids, IndexOf, Without, Line, Increasing;
    var s' := Do(s, a);
    if a.ResponderFinds? {
      LineFinds(s);
      Popped(s.tasks);
    } else {
      ResultSnoc(s.scheduled, s'.scheduled[|s.scheduled|]);
    }
  }

  lemma OrderKept(s: State, a: Step)
    requires OrderInv(s) && LineInv(s) && Enabled(s, a)
    ensures OrderInv(Do(s, a))
  {
    hide Judge, Uids, ResultUids, IndexOf, Without, LineInv, Increasing;
    match a
    case Arrive(_) => OrderAnswers(s, a);
    case RefuseIt => OrderAnswers(s, a);
    case NoMemory => OrderAnswers(s, a);
    case Admit => OrderAdmit(s);
    case PutFails => OrderPutFails(s);
    case ResponderFinds => OrderResponder(s, a);
    case ResponderSends => OrderResponder(s, a);
    case _ =>
  }

  // One answer each

  function ReplyUids(q: seq<Reply>): seq<int> {
    seq(|q|, i requires 0 <= i < |q| => q[i].uid)
  }

  /** Requests that still wait for their answer. */
  function Open(s: State): multiset<int> {
    multiset(Uids(s.tasks)) + (if s.r.Sending? then multiset{s.r.task.uid} else multiset{})
    + (if s.l.Judging? then multiset{s.l.uid} else multiset{})
  }

  /** The numbers below n, once each. */
  function Upto(n: nat): (m: multiset<int>)
    ensures forall u :: m[u] == if 0 <= u < n then 1 else 0
  {
    if n == 0 then multiset{} else Upto(n - 1) + multiset{n - 1}
  }

  ghost predicate OnceInv(s: State) {
    multiset(ReplyUids(s.scheduled)) + Open(s) == Upto(|s.arrived|)
  }

  lemma Replied(q: seq<Reply>, x: Reply)
    ensures multiset(ReplyUids(q + [x])) == multiset(ReplyUids(q)) + multiset{x.uid}
  {
    assert ReplyUids(q + [x]) == ReplyUids(q) + [x.uid];
  }

  lemma Counted(ts: seq<Task>, t: Task)
    ensures multiset(Uids(ts + [t])) == multiset(Uids(ts)) + multiset{t.uid}
  {
    Appended(ts, t);
  }

  lemma CountedHead(ts: seq<Task>)
    requires ts != []
    ensures multiset(Uids(ts)) == multiset{ts[0].uid} + multiset(Uids(ts[1..]))
  {
    Popped(ts);
  }

  lemma OnceListener(s: State, a: Step)
    requires OnceInv(s) && Enabled(s, a) && (a.Arrive? || a.RefuseIt? || a.NoMemory? || a.Admit?)
    ensures OnceInv(Do(s, a))
  {
    hide Judge, Uids, ReplyUids;
    var s' := Do(s, a);
    if a.RefuseIt? || a.NoMemory? {
      Replied(s.scheduled, s'.scheduled[|s.scheduled|]);
    } else if a.Admit? {
      Counted(s.tasks, s'.l.task);
    }
  }

  lemma OncePutFails(s: State)
    requires OnceInv(s) && LineInv(s) && Enabled(s, PutFails)
    ensures OnceInv(Do(s, PutFails))
  {
    hide Judge, Uids, ReplyUids, IndexOf, Without, Line, Increasing;
    LinePutFails(s);
    var s' := Do(s, PutFails);
    Replied(s.scheduled, s'.scheduled[|s.scheduled|]);
    assert s.tasks == s'.tasks + [s.l.task];
    Counted(s'.tasks, s.l.task);
  }

  lemma OnceResponder(s: State, a: Step)
    requires OnceInv(s) && LineInv(s) && Enabled(s, a) && (a.ResponderFinds? || a.ResponderSends?)
    ensures OnceInv(Do(s, a))
  {
    hide Judge, Uids, ReplyUids, IndexOf, Without, Line, Increasing;
    var s' := Do(s, a);
    if a.ResponderFinds? {
      LineFinds(s);
      CountedHead(s.tasks);
    } else {
      Replied(s.scheduled, s'.scheduled[|s.scheduled|]);
    }
  }

  lemma OnceElsewhere(s: State, s': State)
    requires OnceInv(s) && s'.arrived == s.arrived && s'.scheduled == s.scheduled && s'.tasks == s.tasks
    requires (!s.r.Sending? && !s'.r.Sending?) || s'.r == s.r
    requires (!s.l.Judging? && !s'.l.Judging?) || s'.l == s.l
    ensures OnceInv(s')
  {}

  lemma OnceKept(s: State, a: Step)
    requires OnceInv(s) && LineInv(s) && Enabled(s, a)
    ensures OnceInv(Do(s, a))
  {
    hide Judge, IndexOf, Without, LineInv, OnceInv;
    match a
    case Arrive(_) => OnceListener(s, a);
    case RefuseIt => OnceListener(s, a);
    case NoMemory => OnceListener(s, a);
    case Admit => OnceListener(s, a);
    case PutFails => OncePutFails(s);
    case ResponderFinds => OnceResponder(s, a);
    case ResponderSends => OnceResponder(s, a);
    case _ => OnceElsewhere(s, Do(s, a));
  }

  // What the answers say

  /** The answer goes where its request came from and says what the request deserves. */
  predicate ReplyFits(arrived: seq<Request>, p: Reply) {
    && p.uid < |arrived|
    && var q := arrived[p.uid];
       && p.fd == q.fd && p.cltid == q.cltid
       && match Judge(q)
          case Refuse(code, id) =>
            p.body.Error? && p.body.code == code && p.body.id == if code == -32601 then Some(id) else None
          case Dispatch(id, _) => p.body == Result(Some(id)) || p.body == Error(-32603, None)
  }

  predicate TaskFits(arrived: seq<Request>, t: Task) {
    && t.uid < |arrived|
    && var q := arrived[t.uid];
       t.fd == q.fd && t.cltid == q.cltid && Judge(q) == Dispatch(t.id, t.command)
  }

  ghost predicate ContentInv(s: State) {
    && (forall i :: 0 <= i < |s.scheduled| ==> ReplyFits(s.arrived, s.scheduled[i]))
    && (forall i :: 0 <= i < |s.tasks| ==> TaskFits(s.arrived, s.tasks[i]))
    && (forall i :: 0 <= i < |s.reqChain| ==> TaskFits(s.arrived, s.reqChain[i]))
    && (s.r.Sending? ==> TaskFits(s.arrived, s.r.task))
    && (s.h.Handling? ==> TaskFits(s.arrived, s.h.task))
    && (s.l.Admitted? ==> TaskFits(s.arrived, s.l.task))
    && (s.l.Judging? ==> s.l.uid < |s.arrived|)
  }

  lemma RefusalCodes(q: Request)
    requires Judge(q).Refuse?
    ensures Judge(q).code == -32600 || Judge(q).code == -32700 || Judge(q).code == -32601
  {
    hide JsonChecker.Accepts;
  }

  lemma ContentKept(s: State, a: Step)
    requires ContentInv(s) && LineInv(s) && Enabled(s, a)
    ensures ContentInv(Do(s, a))
  {
    hide Judge, IndexOf, Without, Line, Idents, Increasing;
    if a.ResponderFinds? {
      LineFinds(s);
    } else if a.PutFails? {
      LinePutFails(s);
    } else if a.RefuseIt? {
      RefusalCodes(s.arrived[s.l.uid]);
    }
  }

  // Runs

  ghost predicate Inv(s: State) {
    LineInv(s) && SemInv(s) && OrderInv(s) && OnceInv(s) && ContentInv(s)
  }

  lemma InitInv(s: State)
    requires Init(s)
    ensures Inv(s)
  {
    assert multiset(ReplyUids(s.scheduled)) + Open(s) == multiset{};
  }

  lemma StepKeeps(s: State, a: Step)
    requires Inv(s) && Enabled(s, a)
    ensures Inv(Do(s, a))
  {
    hide Do, Enabled, LineInv, SemInv, OrderInv, OnceInv, ContentInv;
    LineKept(s, a);
    SemsKept(s, a);
    OrderKept(s, a);
    OnceKept(s, a);
    ContentKept(s, a);
  }

  lemma {:induction false} RunKeeps(r: seq<State>, i: nat)
    requires IsRun(r) && i < |r|
    ensures Inv(r[i])
  {
    hide Do, Enabled, LineInv, SemInv, OrderInv, OnceInv, ContentInv;
    if i == 0 {
      InitInv(r[0]);
    } else {
      RunKeeps(r, i - 1);
      assert Next(r[i - 1], r[i - 1 + 1]);
      var a :| Enabled(r[i - 1], a) && r[i] == Do(r[i - 1], a);
      StepKeeps(r[i - 1], a);
    }
  }

  lemma {:induction false} Repeats(q: seq<int>, i: nat, j: nat)
    requires i < j < |q| && q[i] == q[j]
    ensures multiset(q)[q[i]] >= 2
  {
    assert q == q[..j] + q[j..];
    assert q[i] in q[..j] && q[j] in q[j..] by {
      assert q[..j][i] == q[i] && q[j..][0] == q[j];
    }
    assert multiset(q) == multiset(q[..j]) + multiset(q[j..]);
  }

  /** No request is answered twice. */
  lemma AtMostOneAnswer(r: seq<State>, i: nat, j: nat, k: nat)
    requires IsRun(r) && i < |r| && j < k < |r[i].scheduled|
    ensures r[i].scheduled[j].uid != r[i].scheduled[k].uid
  {
    hide IsRun, LineInv, SemInv, OrderInv, ContentInv;
    RunKeeps(r, i);
    var q := ReplyUids(r[i].scheduled);
    assert multiset(q)[q[j]] <= (multiset(q) + Open(r[i]))[q[j]] <= 1;
    if q[j] == q[k] {
      Repeats(q, j, k);
    }
  }

  /** No thread can go on by itself. */
  ghost predicate Drained(s: State) {
    forall a :: Enabled(s, a) ==> a.Arrive?
  }

  lemma DrainedIsEmpty(s: State)
    requires Inv(s) && Drained(s)
    ensures s.l.Free? && s.r.Resting? && s.tasks == [] && s.reqSem == 0 && s.respSem == 0
  {
    hide OrderInv, OnceInv, IndexOf, Without, Judge;
    assert !Enabled(s, RefuseIt) && !Enabled(s, Admit) && !Enabled(s, Put) && !Enabled(s, Post);
    assert !Enabled(s, HandlerWakes) && !Enabled(s, HandlerGets) && !Enabled(s, HandlerAnswers)
        && !Enabled(s, HandlerPosts);
    assert !Enabled(s, ResponderWakes) && !Enabled(s, ResponderGets);
    assert !Enabled(s, ResponderFinds) && !Enabled(s, ResponderSends);
    assert s.reqChain == [] && s.respChain == [];
    assert Line(s) == [];
    Length(s.tasks);
  }

  /** Once the pipeline has come to rest, every request has exactly one answer. */
  lemma DrainedAnswersEveryone(r: seq<State>, i: nat, uid: nat)
    requires IsRun(r) && i < |r| && Drained(r[i]) && uid < |r[i].arrived|
    ensures multiset(ReplyUids(r[i].scheduled))[uid] == 1
  {
    hide IsRun, Drained, LineInv, SemInv, OrderInv, ContentInv;
    RunKeeps(r, i);
    DrainedIsEmpty(r[i]);
    assert Uids(r[i].tasks) == [];
    assert Open(r[i]) == multiset{};
    assert multiset(ReplyUids(r[i].scheduled)) == Upto(|r[i].arrived|);
  }

  lemma {:induction false} ResultsStand(q: seq<Reply>, j: nat)
    requires j < |q| && q[j].body.Result?
    ensures exists x :: 0 <= x < |ResultUids(q)| && ResultUids(q)[x] == q[j].uid
  {
    var p, n := q[..|q| - 1], |ResultUids(q[..|q| - 1])|;
    if j == |q| - 1 {
      assert ResultUids(q)[n] == q[j].uid;
    } else {
      ResultsStand(p, j);
      var x :| 0 <= x < |ResultUids(p)| && ResultUids(p)[x] == p[j].uid;
      assert ResultUids(q)[x] == q[j].uid;
    }
  }

  lemma {:induction false} ResultsAscend(q: seq<Reply>, j: nat, k: nat, bound: int)
    requires j < k < |q| && q[j].body.Result? && q[k].body.Result? && Increasing(ResultUids(q), bound)
    ensures q[j].uid < q[k].uid
  {
    var p := q[..|q| - 1];
    var tail := if q[|q| - 1].body.Result? then [q[|q| - 1].uid] else [];
    assert ResultUids(q) == ResultUids(p) + tail;
    if k < |q| - 1 {
      Parts(ResultUids(p), tail, bound);
      ResultsAscend(p, j, k, bound);
    } else {
      ResultsStand(p, j);
      var x :| 0 <= x < |ResultUids(p)| && ResultUids(p)[x] == p[j].uid;
      assert ResultUids(q)[x] == q[j].uid;
      assert ResultUids(q)[|ResultUids(p)|] == q[k].uid;
    }
  }

  /** Answers from the handler are scheduled in the order in which their requests arrived. */
  lemma HandlersAnswerInOrder(r: seq<State>, i: nat, j: nat, k: nat)
    requires IsRun(r) && i < |r| && j < k < |r[i].scheduled|
    requires r[i].scheduled[j].body.Result? && r[i].scheduled[k].body.Result?
    ensures r[i].scheduled[j].uid < r[i].scheduled[k].uid
  {
    hide IsRun, LineInv, SemInv, OnceInv, ContentInv, Increasing, ResultUids;
    RunKeeps(r, i);
    var s := r[i];
    Parts(ResultUids(s.scheduled), (if s.r.Sending? then [s.r.task.uid] else []) + Uids(s.tasks), Bound(s));
    ResultsAscend(s.scheduled, j, k, Bound(s));
  }

  /** What a request deserves: section 5.1 of the JSON-RPC 2.0 specification for those that do
      not reach a handler, and the result or an internal error for those that do. */
  ghost predicate Deserves(q: Request, b: Body) {
    if q.text != [] && q.text[0] == LSQRB then b == Error(-32600, None)
    else if !InGrammar(CString(q.text), 19) || q.parsed.Unparsed? then b == Error(-32700, None)
    else if q.parsed.id.None? then b == Error(-32600, None)
    else if q.parsed.command.None? then b == Error(-32601, q.parsed.id)
    else b == Result(q.parsed.id) || b == Error(-32603, None)
  }

  /** In every run, every answer carries the fd and connection id of its own request, and says
      what that request deserves. */
  lemma AnswersFitTheirRequests(r: seq<State>, i: nat, j: nat)
    requires IsRun(r) && i < |r| && j < |r[i].scheduled|
    ensures ReplyFits(r[i].arrived, r[i].scheduled[j])
    ensures var p := r[i].scheduled[j]; var q := r[i].arrived[p.uid];
      p.fd == q.fd && p.cltid == q.cltid && Deserves(q, p.body)
  {
    hide IsRun, LineInv, SemInv, OrderInv, OnceInv, InGrammar, JsonChecker.Accepts;
    RunKeeps(r, i);
    AcceptsIffInGrammar(20, CString(r[i].arrived[r[i].scheduled[j].uid].text));
  }

  /** In every run, the handler is given the command that the method of its request names, and
      the id of that request; and only requests that are well formed get there. */
  lemma HandlerGetsCommand(r: seq<State>, i: nat)
    requires IsRun(r) && i < |r| && r[i].h.Handling?
    ensures var t := r[i].h.task;
      && t.uid < |r[i].arrived|
      && var q := r[i].arrived[t.uid];
         && t.fd == q.fd && t.cltid == q.cltid
         && q.parsed.Parsed? && q.parsed.command == Some(t.command) && q.parsed.id == Some(t.id)
         && (q.text == [] || q.text[0] != LSQRB) && InGrammar(CString(q.text), 19)
  {
    hide IsRun, LineInv, SemInv, OrderInv, OnceInv, InGrammar, JsonChecker.Accepts;
    RunKeeps(r, i);
    AcceptsIffInGrammar(20, CString(r[i].arrived[r[i].h.task.uid].text));
  }

  /** A request reaches a handler exactly when it is an object of the grammar, nested at most
      19 deep, in which the library finds an id and a registered method. */
  lemma ReachesHandlerIff(q: Request)
    ensures Judge(q).Dispatch? <==>
      && (q.text == [] || q.text[0] != LSQRB) && InGrammar(CString(q.text), 19)
      && q.parsed.Parsed? && q.parsed.id.Some? && q.parsed.command.Some?
  {
    AcceptsIffInGrammar(20, CString(q.text));
    hide InGrammar, JsonChecker.Accepts;
  }

  /** Which error a refused request gets: section 5.1 of the JSON-RPC 2.0 specification, except
      that a request without an id, a notification there, counts as invalid here. */
  lemma RefusedWith(q: Request)
    ensures var isArray, wellFormed := q.text != [] && q.text[0] == LSQRB, InGrammar(CString(q.text), 19);
      && (Judge(q).Refuse? && Judge(q).code == PARSE_ERROR <==> !isArray && (!wellFormed || q.parsed.Unparsed?))
      && (Judge(q).Refuse? && Judge(q).code == INVALID_REQUEST <==>
            isArray || (wellFormed && q.parsed.Parsed? && q.parsed.id.None?))
      && (Judge(q).Refuse? && Judge(q).code == METHOD_NOT_FOUND <==>
            !isArray && wellFormed && q.parsed.Parsed? && q.parsed.id.Some? && q.parsed.command.None?)
      && (!isArray && wellFormed && q.parsed.Parsed? && q.parsed.id.Some? ==> Judge(q).id == q.parsed.id.value)
  {
    AcceptsIffInGrammar(20, CString(q.text));
    hide InGrammar, JsonChecker.Accepts;
  }

  // Whether the id of a request comes back

  /** The step from r[k] on could not give this request to the handler: no memory for its
      task, or the handler's chain refused it. */
  predicate HandOverFails(r: seq<State>, k: nat, uid: nat)
    requires k + 1 < |r|
  {
    || (Enabled(r[k], NoMemory) && r[k + 1] == Do(r[k], NoMemory) && r[k].l.uid == uid)
    || (Enabled(r[k], PutFails) && r[k + 1] == Do(r[k], PutFails) && r[k].l.task.uid == uid)
  }

  lemma StepOf(r: seq<State>, k: nat) returns (a: Step)
    requires IsRun(r) && k + 1 < |r|
    ensures Enabled(r[k], a) && r[k + 1] == Do(r[k], a)
  {
    hide Do, Enabled;
    assert Next(r[k], r[k + 1]);
    a :| Enabled(r[k], a) && r[k + 1] == Do(r[k], a);
  }

  lemma OneMoreReply(s: State, a: Step)
    requires Enabled(s, a)
    ensures s.arrived <= Do(s, a).arrived && s.scheduled <= Do(s, a).scheduled
    ensures |Do(s, a).scheduled| <= |s.scheduled| + 1
  {
    hide Judge, IndexOf, Without;
  }

  lemma {:induction false} HistoryGrows(r: seq<State>, k: nat, i: nat)
    requires IsRun(r) && k <= i < |r|
    ensures r[k].arrived <= r[i].arrived && r[k].scheduled <= r[i].scheduled
  {
    hide Do, Enabled, IsRun;
    if k < i {
      HistoryGrows(r, k, i - 1);
      var a := StepOf(r, i - 1);
      OneMoreReply(r[i - 1], a);
    }
  }

  /** The step that scheduled a reply. */
  lemma {:induction false} ScheduledAt(r: seq<State>, i: nat, j: nat) returns (k: nat, a: Step)
    requires IsRun(r) && i < |r| && j < |r[i].scheduled|
    ensures k < i && |r[k].scheduled| == j && |r[k + 1].scheduled| == j + 1
    ensures Enabled(r[k], a) && r[k + 1] == Do(r[k], a)
  {
    hide Do, Enabled;
    assert i > 0;
    var b := StepOf(r, i - 1);
    OneMoreReply(r[i - 1], b);
    if j < |r[i - 1].scheduled| {
      k, a := ScheduledAt(r, i - 1, j);
    } else {
      k, a := i - 1, b;
    }
  }

  // what a scheduling step puts into the chain
  lemma ReplyOf(s: State, a: Step)
    requires Enabled(s, a) && Inv(s) && |Do(s, a).scheduled| == |s.scheduled| + 1
    ensures var p := Do(s, a).scheduled[|s.scheduled|];
      && (a.RefuseIt? ==> p.uid < |s.arrived| && Judge(s.arrived[p.uid]).Refuse?)
      && (a.NoMemory? ==> p.uid == s.l.uid && p.body.id.None?)
      && (a.PutFails? ==> p.uid == s.l.task.uid && p.body.id.None?)
      && (!a.RefuseIt? && !a.NoMemory? && !a.PutFails? ==> p.body.id.Some?)
  {
    hide Judge, IndexOf, Without, LineInv, SemInv, OrderInv, OnceInv, ContentInv;
  }

  /** A dispatched request is answered without its id if and only if the hand-over to the
      handler failed. */
  lemma IdLostIffHandOverFails(r: seq<State>, i: nat, j: nat)
    requires IsRun(r) && i < |r| && j < |r[i].scheduled|
    requires r[i].scheduled[j].uid < |r[i].arrived| && Judge(r[i].arrived[r[i].scheduled[j].uid]).Dispatch?
    ensures r[i].scheduled[j].body.id.None? <==> exists k :: 0 <= k < i && HandOverFails(r, k, r[i].scheduled[j].uid)
  {
    hide Judge, Do, Enabled, Inv, IsRun;
    var uid := r[i].scheduled[j].uid;
    var k, a := ScheduledAt(r, i, j);
    RunKeeps(r, k);
    ReplyOf(r[k], a);
    HistoryGrows(r, k, i);
    HistoryGrows(r, k + 1, i);
    assert r[i].scheduled[j] == r[k + 1].scheduled[j];
    if r[i].scheduled[j].body.id.None? {
      assert HandOverFails(r, k, uid);
    }
    if exists n :: 0 <= n < i && HandOverFails(r, n, uid) {
      var n: nat :| n < i && HandOverFails(r, n, uid);
      FailureReplies(r, i, n, uid, j);
    }
  }

  lemma FailureReplies(r: seq<State>, i: nat, n: nat, uid: nat, j: nat)
    requires IsRun(r) && n < i < |r| && HandOverFails(r, n, uid) && j < |r[i].scheduled| && r[i].scheduled[j].uid == uid
    ensures r[i].scheduled[j].body.id.None?
  {
    var x := |r[n].scheduled|;
    assert r[n + 1].scheduled[x].uid == uid && r[n + 1].scheduled[x].body.id.None? by {
      hide IsRun, Judge, IndexOf, Without;
    }
    hide IsRun, HandOverFails;
    HistoryGrows(r, n + 1, i);
    assert r[i].scheduled[x] == r[n + 1].scheduled[x];
    if j < x {
      AtMostOneAnswer(r, i, j, x);
    } else if x < j {
      AtMostOneAnswer(r, i, x, j);
    }
  }

  /** Without such a failure every answer carries the id that its request was read to have. */
  lemma IdsComeBack(r: seq<State>, i: nat, j: nat)
    requires IsRun(r) && i < |r| && j < |r[i].scheduled|
    requires forall k, u :: 0 <= k < i ==> !HandOverFails(r, k, u)
    ensures var p := r[i].scheduled[j];
      && p.uid < |r[i].arrived|
      && var v := Judge(r[i].arrived[p.uid]);
         v.Dispatch? || v.code == METHOD_NOT_FOUND ==> p.body.id == Some(v.id)
  {
    hide Judge, IsRun, HandOverFails;
    AnswersFitTheirRequests(r, i, j);
    if Judge(r[i].arrived[r[i].scheduled[j].uid]).Dispatch? {
      IdLostIffHandOverFails(r, i, j);
    }
  }

  /** Section 5 of the JSON-RPC 2.0 specification asks for the request's id where it could be
      read; an internal error loses it. */
  lemma InternalErrorLosesId(q: Request) returns (r: seq<State>)
    requires Judge(q).Dispatch?
    ensures IsRun(r) && r[|r| - 1].arrived == [q]
    ensures r[|r| - 1].scheduled == [Reply(0, q.fd, q.cltid, Error(INTERNAL_ERROR, None))]
  {
    hide Judge;
    var s0 := State([], Free, 0, [], [], 0, Waiting, [], 0, Resting, []);
    var s1 := Do(s0, Arrive(q));
    var s2 := Do(s1, NoMemory);
    assert Next(s0, s1) && Next(s1, s2);
    r := [s0, s1, s2];
  }
}
