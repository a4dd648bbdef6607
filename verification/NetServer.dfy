/**
 The connection and flow-control protocol of the TCP server as a step machine.
 The listen thread and the response thread interleave freely; every region that
 holds a lock, and every system call that the other thread can observe, is one
 step, and the states in between are states of the machine.

 The listen thread is the only writer of client records, framers, paused_fds and
 master_set, so its own reads of those belong to the step that follows them.
 Requests and responses carry the pair (fd, cltid) as in the source.  Sockets are
 numbered as they are accepted; the number is what an fd refers to and what must
 not be confused when the kernel hands out the same fd again.
 */
module NetServer {
  import opened PendingTable

  const PIPE_CAPACITY := 65536
  const PIPE_READ := 64

  datatype Target = Listening | WakeRead | WakeWrite | Conn(sock: nat)

  datatype Req = Req(fd: int, cltid: int)

  // where a registration took place: what the client record stood for
  datatype Home = Home(fd: int, sock: nat)

  // bytes of a response that were sent, and on which socket
  datatype Delivery = Delivery(cltid: int, sock: nat)

  // who called queue_framed_requests: the receive path (with the framer's verdict on the
  // chunk) or the loop over paused connections (with those still to visit)
  datatype Caller = FromRecv(broken: bool) | FromResume(todo: set<int>)

  datatype ListenPc =
    | Select
    | Scan
    | Accept
    | Accepted(fd: int)
    | Registered(fd: int)
    | Recv(fd: int)
    | Queue(fd: int, caller: Caller)
    | QueueLoop(fd: int, caller: Caller)
    | QueueTake(fd: int, caller: Caller)
    | Notify(fd: int, full: bool, caller: Caller)
    | Queued(fd: int, full: bool, caller: Caller)
    | Resume(todo: set<int>)
    | Close(fd: int)
    | CloseErased(fd: int)
    | CloseGone(fd: int)

  datatype ResponsePc =
    | Idle
    | Got(req: Req)
    | Looking(req: Req)
    | Holding(req: Req, dup: int)
    | Dropping(req: Req, dup: int)
    | DropWake(req: Req, dup: int, wake: bool)
    | ClosingDup(req: Req, dup: int)
    | Done(req: Req)
    | DoneWake

  // descriptors that stay open for good
  datatype Ids = Ids(listen: int, wakeRead: int, wakeWrite: int)

  // client records, under their own lock, and the history of registrations
  datatype Clients = Clients(info: map<int, int>, lastIdent: nat, home: map<int, Home>)

  // what only the listen thread uses; a framer is its number of complete messages
  datatype Listener = Listener(
    pc: ListenPc, master: set<int>, working: set<int>, paused: set<int>, maxSd: int, framers: map<int, nat>)

  // requests on their way: read, handed to the handlers, answered
  datatype Traffic = Traffic(requests: seq<Req>, handlers: multiset<Req>, responses: seq<Req>)

  datatype State = State(
    ids: Ids, fds: map<int, Target>, nextSock: nat, pipe: nat,
    clients: Clients, pending: Table, l: Listener, t: Traffic, rpc: ResponsePc, sent: seq<Delivery>)

  predicate Init(s: State) {
    var i := s.ids;
    && i.listen != i.wakeRead && i.listen != i.wakeWrite && i.wakeRead != i.wakeWrite
    && 0 <= i.listen && 0 <= i.wakeRead && 0 <= i.wakeWrite
    && s.fds == map[i.listen := Listening, i.wakeRead := WakeRead, i.wakeWrite := WakeWrite]
    && s.pipe == 0 && s.clients.info == map[] && s.clients.home == map[] && s.pending == map[]
    && s.l == Listener(Select, {i.listen, i.wakeRead}, {}, {}, Larger(i.listen, i.wakeRead), map[])
    && s.t == Traffic([], multiset{}, []) && s.rpc == Idle && s.sent == []
  }

  // Steps.  The arguments are what the environment chooses: which fds are readable, which
  // number the kernel gives out, what a socket call returns.

  datatype LoopStep =
    | Ready(readable: set<int>)
    | Timeout
    | ScanEnd
    | WakeUp
    | Incoming
    | Readable(fd: int)
    | AcceptNone
    | AcceptRefused
    | AcceptNew(fd: int)
    | Register
    | Attach
    | ResumeNext(fd: int)
    | ResumeEnd

  datatype DataStep =
    | RecvNone
    | RecvEnd
    | RecvData(messages: nat, broken: bool)
    | QueueBegin
    | QueueCount
    | QueuePut
    | NotifyOne
    | NotifyEnd
    | QueueEnd

  datatype CloseStep = Erase | Deregister | CloseFd

  datatype ResponseStep =
    | Take
    | CheckDead
    | Lookup(dup: int)
    | LookupFails
    | Send(ok: bool)
    | Drop
    | DropWakeUp
    | CloseDup
    | Finish
    | FinishWakeUp

  datatype Step =
    | Loop(loop: LoopStep)
    | Data(data: DataStep)
    | Shut(close: CloseStep)
    | Respond(resp: ResponseStep)
    | Schedule(req: Req)  // a handler answers
    | Unchecked(fd: int)  // a caller of schedule_response without a connection id

  predicate Free(s: State, fd: int) {
    fd >= 0 && fd !in s.fds
  }

  function Available(l: Listener, fd: int): nat {
    if fd in l.framers then l.framers[fd] else 0
  }

  /** The descriptor at which the loop that lowers max_sd stops. */
  function Lower(m: int, fds: set<int>): int
    decreases m
  {
    if m > 0 && m !in fds then Lower(m - 1, fds) else m
  }

  function WritePipe(n: nat): nat {
    if n < PIPE_CAPACITY then n + 1 else n
  }

  function ReadPipe(n: nat): nat {
    if n < PIPE_READ then 0 else n - PIPE_READ
  }

  function Larger(a: int, b: int): int {
    if a < b then b else a
  }

  predicate IsConn(fds: map<int, Target>, fd: int) {
    fd in fds && fds[fd].Conn?
  }

  // the test of dup_if_same_client; without a connection id any live socket will do
  predicate SameClient(s: State, r: Req) {
    IsConn(s.fds, r.fd) && (r.cltid < 0 || (r.fd in s.clients.info && s.clients.info[r.fd] == r.cltid))
  }

  predicate LoopEnabled(s: State, a: LoopStep) {
    var pc := s.l.pc;
    match a
    case Ready(readable) => pc.Select? && readable <= s.l.master
    case Timeout => pc.Select?
    case ScanEnd => pc.Scan? && s.l.working == {}
    case WakeUp => pc.Scan? && s.ids.wakeRead in s.l.working
    case Incoming => pc.Scan? && s.ids.listen in s.l.working
    case Readable(fd) => pc.Scan? && fd in s.l.working && fd != s.ids.wakeRead && fd != s.ids.listen
    case AcceptNone => pc.Accept?
    case AcceptRefused => pc.Accept?
    case AcceptNew(fd) => pc.Accept? && Free(s, fd)
    case Register => pc.Accepted? && IsConn(s.fds, pc.fd)
    case Attach => pc.Registered?
    case ResumeNext(fd) => pc.Resume? && fd in pc.todo
    case ResumeEnd => pc.Resume? && pc.todo == {}
  }

  function DoLoop(s: State, a: LoopStep): State
    requires LoopEnabled(s, a)
  {
    var l := s.l;
    match a
    case Ready(readable) => s.(l := l.(working := readable, pc := Scan))
    case Timeout => s.(l := if l.paused == {} then l else l.(pc := Resume(l.paused)))
    case ScanEnd => s.(l := l.(pc := Select))
    // the wake pipe: read what is there, visit every paused connection, then select() again
    case WakeUp => s.(pipe := ReadPipe(s.pipe), l := l.(working := {}, pc := Resume(l.paused)))
    case Incoming => s.(l := l.(working := l.working - {s.ids.listen}, pc := Accept))
    case Readable(fd) => s.(l := l.(working := l.working - {fd}, pc := Recv(fd)))
    case AcceptNone => s.(l := l.(pc := Scan))
    // a descriptor at or above FD_SETSIZE is closed again at once
    case AcceptRefused => s.(nextSock := s.nextSock + 1)
    case AcceptNew(fd) =>
      s.(fds := s.fds[fd := Conn(s.nextSock)], nextSock := s.nextSock + 1, l := l.(pc := Accepted(fd)))
    case Register =>
      var fd, c := l.pc.fd, s.clients.lastIdent + 1;
      s.(clients := Clients(s.clients.info[fd := c], c, s.clients.home[c := Home(fd, s.fds[fd].sock)]),
         l := l.(pc := Registered(fd)))
    case Attach =>
      var fd := l.pc.fd;
      s.(l := l.(framers := l.framers[fd := 0], master := l.master + {fd}, maxSd := Larger(fd, l.maxSd), pc := Accept))
    case ResumeNext(fd) =>
      var todo := l.pc.todo - {fd};
      if fd in s.clients.info && IsPaused(s.pending, s.clients.info[fd]) then s.(l := l.(pc := Resume(todo)))
      else s.(l := l.(paused := l.paused - {fd}, pc := Queue(fd, FromResume(todo))))
    case ResumeEnd => s.(l := l.(pc := Select))
  }

  predicate DataEnabled(s: State, a: DataStep) {
    var pc := s.l.pc;
    match a
    case RecvNone => pc.Recv?
    case RecvEnd => pc.Recv?
    case RecvData(_, _) => pc.Recv?
    case QueueBegin => pc.Queue?
    case QueueCount => pc.QueueLoop? && pc.fd in s.clients.info
    case QueuePut => pc.QueueTake? && pc.fd in s.clients.info && Available(s.l, pc.fd) > 0
    case NotifyOne => pc.Notify? && s.t.requests != []
    case NotifyEnd => pc.Notify? && s.t.requests == []
    case QueueEnd => pc.Queued?
  }

  function DoData(s: State, a: DataStep): State
    requires DataEnabled(s, a)
  {
    var l, info := s.l, s.clients.info;
    var fd := l.pc.fd;
    match a
    case RecvNone => s.(l := l.(pc := Scan))
    case RecvEnd => s.(l := l.(pc := Close(fd)))
    case RecvData(n, broken) =>
      if fd !in l.framers then s.(l := l.(pc := Close(fd)))
      else s.(l := l.(framers := l.framers[fd := l.framers[fd] + n], pc := Queue(fd, FromRecv(broken))))
    case QueueBegin =>
      if Available(l, fd) == 0 then s.(l := l.(pc := Queued(fd, false, l.pc.caller)))
      else if fd !in info || IsDead(s.pending, info[fd]) then
        // nobody to answer to: what the framer holds is thrown away
        s.(l := l.(framers := l.framers[fd := 0], pc := Queued(fd, false, l.pc.caller)))
      else s.(l := l.(pc := QueueLoop(fd, l.pc.caller)))
    case QueueCount =>
      if Available(l, fd) == 0 then s.(l := l.(pc := Notify(fd, false, l.pc.caller)))
      else s.(pending := CountOrPause(s.pending, info[fd]),
              l := l.(pc := if AtLimit(s.pending, info[fd]) then Notify(fd, true, l.pc.caller)
                  else QueueTake(fd, l.pc.caller)))
    case QueuePut =>
      s.(t := s.t.(requests := s.t.requests + [Req(fd, info[fd])]),
         l := l.(framers := l.framers[fd := l.framers[fd] - 1], pc := QueueLoop(fd, l.pc.caller)))
    case NotifyOne =>
      s.(t := s.t.(requests := s.t.requests[1..], handlers := s.t.handlers + multiset{s.t.requests[0]}))
    case NotifyEnd => s.(l := l.(pc := Queued(fd, l.pc.full, l.pc.caller)))
    case QueueEnd =>
      (match l.pc.caller
       case FromRecv(broken) =>
         if broken then s.(l := l.(pc := Close(fd)))
         else if l.pc.full then s.(l := l.(master := l.master - {fd}, paused := l.paused + {fd}, pc := Scan))
         else s.(l := l.(pc := Recv(fd)))
       case FromResume(todo) =>
         if l.pc.full then s.(l := l.(paused := l.paused + {fd}, pc := Resume(todo)))
         else s.(l := l.(master := l.master + {fd}, maxSd := Larger(fd, l.maxSd), pc := Resume(todo))))
  }

  predicate CloseEnabled(s: State, a: CloseStep) {
    match a
    case Erase => s.l.pc.Close?
    case Deregister => s.l.pc.CloseErased?
    case CloseFd => s.l.pc.CloseGone?
  }

  function DoClose(s: State, a: CloseStep): State
    requires CloseEnabled(s, a)
  {
    var l, info := s.l, s.clients.info;
    var fd := l.pc.fd;
    match a
    case Erase =>
      s.(pending := if fd in info then s.pending - {info[fd]} else s.pending,
         l := l.(paused := l.paused - {fd}, pc := CloseErased(fd)))
    case Deregister => s.(clients := s.clients.(info := info - {fd}), l := l.(pc := CloseGone(fd)))
    case CloseFd =>
      var rest := l.master - {fd};
      s.(fds := s.fds - {fd},
         l := l.(framers := l.framers - {fd}, master := rest, pc := Scan,
                 maxSd := if fd == l.maxSd then Lower(l.maxSd, rest) else l.maxSd))
  }

  predicate ResponseEnabled(s: State, a: ResponseStep) {
    var pc := s.rpc;
    match a
    case Take => pc.Idle? && s.t.responses != []
    case CheckDead => pc.Got?
    case Lookup(d) => pc.Looking? && SameClient(s, pc.req) && Free(s, d)
    case LookupFails => pc.Looking?
    case Send(_) => pc.Holding? && IsConn(s.fds, pc.dup)
    case Drop => pc.Dropping?
    case DropWakeUp => pc.DropWake?
    case CloseDup => pc.ClosingDup?
    case Finish => pc.Done?
    case FinishWakeUp => pc.DoneWake?
  }

  function DoResponse(s: State, a: ResponseStep): State
    requires ResponseEnabled(s, a)
  {
    var pc := s.rpc;
    match a
    case Take => s.(t := s.t.(responses := s.t.responses[1..]), rpc := Got(s.t.responses[0]))
    case CheckDead =>
      s.(rpc := if pc.req.cltid >= 0 && IsDead(s.pending, pc.req.cltid) then Done(pc.req) else Looking(pc.req))
    // one locked region: record and fd cannot change between test and dup()
    case Lookup(d) => s.(fds := s.fds[d := s.fds[pc.req.fd]], rpc := Holding(pc.req, d))
    case LookupFails => s.(rpc := Done(pc.req))
    case Send(ok) =>
      s.(sent := s.sent + [Delivery(pc.req.cltid, s.fds[pc.dup].sock)],
         rpc := if ok then ClosingDup(pc.req, pc.dup) else Dropping(pc.req, pc.dup))
    case Drop =>
      var c := pc.req.cltid;
      s.(pending := if c < 0 then s.pending else MarkDead(s.pending, c),
         rpc := DropWake(pc.req, pc.dup, c >= 0 && IsPaused(s.pending, c)))
    case DropWakeUp => s.(pipe := if pc.wake then WritePipe(s.pipe) else s.pipe, rpc := ClosingDup(pc.req, pc.dup))
    case CloseDup => s.(fds := s.fds - {pc.dup}, rpc := Done(pc.req))
    case Finish =>
      var c := pc.req.cltid;
      var p := if c < 0 then s.pending else Release(s.pending, c);
      s.(pending := p, rpc := if c >= 0 && IsPaused(s.pending, c) && !IsPaused(p, c) then DoneWake else Idle)
    case FinishWakeUp => s.(pipe := WritePipe(s.pipe), rpc := Idle)
  }

  predicate Enabled(s: State, a: Step) {
    match a
    case Loop(b) => LoopEnabled(s, b)
    case Data(b) => DataEnabled(s, b)
    case Shut(b) => CloseEnabled(s, b)
    case Respond(b) => ResponseEnabled(s, b)
    case Schedule(r) => r in s.t.handlers
    case Unchecked(_) => true
  }

  function Do(s: State, a: Step): State
    requires Enabled(s, a)
  {
    match a
    case Loop(b) => DoLoop(s, b)
    case Data(b) => DoData(s, b)
    case Shut(b) => DoClose(s, b)
    case Respond(b) => DoResponse(s, b)
    case Schedule(r) => s.(t := s.t.(handlers := s.t.handlers - multiset{r}, responses := s.t.responses + [r]))
    case Unchecked(fd) => s.(t := s.t.(responses := s.t.responses + [Req(fd, -1)]))
  }

  ghost predicate Next(s: State, s': State) {
    exists a :: Enabled(s, a) && s' == Do(s, a)
  }

  /** A run: each state follows from the one before by some step. */
  ghost predicate IsRun(r: seq<State>) {
    && |r| > 0 && Init(r[0])
    && forall i :: 0 <= i < |r| - 1 ==> Next(r[i], r[i + 1])
  }
}
