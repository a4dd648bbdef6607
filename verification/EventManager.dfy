/**
 Event subscriptions: who is told about events, and when a subscriber that cannot be
 reached loses its subscription.
 */
module EventManager {
  const MAX_FAILURES := 5
  const FAIL_WINDOW_MS := 60000
  const MAX_QUEUED := 1024

  datatype Subscription = Subscription(cltToken: int, portNum: int, eventNum: int)

  datatype Entry = Entry(sub: Subscription, srvToken: int, failCount: int, firstFailMs: int, deleteFlag: bool)

  datatype Event = Event(eventNum: int, eventArg: int, cltToken: int, eventArg2: int)

  // one recorded delivery
  datatype Attempt = Attempt(ok: bool, now: int)

  type Record = seq<Attempt>

  // the list, the last token given out, and what was recorded for each token
  datatype Manager = Manager(ackToken: nat, list: seq<Entry>, records: map<int, Record>)

  // Recorded deliveries

  /** The number of failures at the end of a record. */
  function FailRun(h: Record): (n: nat)
    ensures n <= |h|
    ensures forall i :: |h| - n <= i < |h| ==> !h[i].ok
    ensures n < |h| ==> h[|h| - n - 1].ok
  {
    if h == [] || h[|h| - 1].ok then 0 else 1 + FailRun(h[..|h| - 1])
  }

  /** Failing without a break, often enough and for long enough. */
  predicate Expired(h: Record) {
    FailRun(h) >= MAX_FAILURES && h[|h| - 1].now - h[|h| - FailRun(h)].now >= FAIL_WINDOW_MS
  }

  function RecordOf(records: map<int, Record>, token: int): Record {
    if token in records then records[token] else []
  }

  // The operations on values

  predicate Listed(list: seq<Entry>, token: int) {
    exists i :: 0 <= i < |list| && list[i].srvToken == token
  }

  predicate Subscribed(list: seq<Entry>, sub: Subscription) {
    exists i :: 0 <= i < |list| && list[i].sub == sub
  }

  function AfterRegister(m: Manager, sub: Subscription): Manager {
    if Subscribed(m.list, sub) then m
    else m.(ackToken := m.ackToken + 1, list := m.list + [Entry(sub, m.ackToken + 1, 0, 0, false)])
  }

  function Filter(list: seq<Entry>, keep: Entry -> bool): seq<Entry> {
    if list == [] then [] else
    Filter(list[..|list| - 1], keep) + if keep(list[|list| - 1]) then [list[|list| - 1]] else []
  }

  function Without(list: seq<Entry>, token: int): seq<Entry> {
    Filter(list, (e: Entry) => e.srvToken != token)
  }

  function Kept(list: seq<Entry>): seq<Entry> {
    Filter(list, (e: Entry) => !e.deleteFlag)
  }

  function Targets(list: seq<Entry>, eventNum: int): seq<Entry> {
    Filter(list, (e: Entry) => e.sub.eventNum == -1 || e.sub.eventNum == eventNum)
  }

  /** One entry under the results of one event. */
  function Touched(e: Entry, failed: seq<int>, delivered: seq<int>, now: int): Entry {
    if e.srvToken in delivered then e.(failCount := 0)
    else if e.srvToken in failed then
      var first := if e.failCount == 0 then now else e.firstFailMs;
      e.(failCount := e.failCount + 1, firstFailMs := first,
         deleteFlag := e.deleteFlag || (e.failCount + 1 >= MAX_FAILURES && now - first >= FAIL_WINDOW_MS))
    else e
  }

  function TouchedAll(list: seq<Entry>, failed: seq<int>, delivered: seq<int>, now: int): seq<Entry> {
    seq(|list|, i requires 0 <= i < |list| => Touched(list[i], failed, delivered, now))
  }

  function Recorded(m: Manager, failed: seq<int>, delivered: seq<int>, now: int): map<int, Record> {
    map t | t in m.records.Keys + (set i | 0 <= i < |m.list| :: m.list[i].srvToken) ::
      RecordOf(m.records, t) + (if !Listed(m.list, t) then [] else if t in delivered then [Attempt(true, now)]
                                else if t in failed then [Attempt(false, now)] else [])
  }

  function AfterUpdate(m: Manager, failed: seq<int>, delivered: seq<int>, now: int): Manager {
    if failed == [] && delivered == [] then m else
    m.(list := Kept(TouchedAll(m.list, failed, delivered, now)), records := Recorded(m, failed, delivered, now))
  }

  /** A queue that forgets its oldest event when it is full. */
  function Queued(q: seq<Event>, e: Event): seq<Event> {
    (if |q| >= MAX_QUEUED then q[1..] else q) + [e]
  }

  // what happens to a queue: an event is notified, or the thread takes all that waits
  datatype QueueStep = Notified(event: Event) | TakenAll

  function QueueAfter(steps: seq<QueueStep>): seq<Event> {
    if steps == [] then [] else
    match steps[|steps| - 1]
    case Notified(e) => Queued(QueueAfter(steps[..|steps| - 1]), e)
    case TakenAll => []
  }

  /** The events that were notified since the thread took the last ones. */
  function Waiting(steps: seq<QueueStep>): seq<Event> {
    if steps == [] then [] else
    match steps[|steps| - 1]
    case Notified(e) => Waiting(steps[..|steps| - 1]) + [e]
    case TakenAll => []
  }

  function Latest(es: seq<Event>): seq<Event> {
    es[if |es| <= MAX_QUEUED then 0 else |es| - MAX_QUEUED..]
  }

  /** The queue holds the latest events since the thread took the last ones, at most 1024 of
      them, in order. */
  lemma {:induction false} QueueHoldsLatest(steps: seq<QueueStep>)
    ensures var es := Waiting(steps); QueueAfter(steps) == if |es| <= 1024 then es else es[|es| - 1024..]
  {
    if steps != [] {
      var v := steps[..|steps| - 1];
      QueueHoldsLatest(v);
      if steps[|steps| - 1].Notified? {
        LatestNext(Waiting(v), steps[|steps| - 1].event);
      }
    }
  }

  lemma LatestNext(es: seq<Event>, e: Event)
    ensures Latest(es + [e]) == Queued(Latest(es), e)
  {}

  // What is kept

  /** An entry tells how its record ends. */
  ghost predicate EntryFits(e: Entry, h: Record) {
    && e.failCount == FailRun(h) && (e.failCount > 0 ==> e.firstFailMs == h[|h| - FailRun(h)].now)
    && !Expired(h)
  }

  /** Tokens go up along the list, and no subscription is there twice. */
  ghost predicate Ordered(list: seq<Entry>, ack: nat) {
    && (forall i, j :: 0 <= i < j < |list| ==> list[i].srvToken < list[j].srvToken && list[i].sub != list[j].sub)
    && (forall i :: 0 <= i < |list| ==> 1 <= list[i].srvToken <= ack)
  }

  ghost predicate Inv(m: Manager) {
    && Ordered(m.list, m.ackToken)
    && (forall t :: t in m.records ==> t <= m.ackToken)
    && (forall e :: e in m.list ==> !e.deleteFlag && EntryFits(e, RecordOf(m.records, e.srvToken)))
  }

  // Filtering

  /** Filtering keeps exactly the chosen entries. */
  lemma {:induction false} FilterHas(list: seq<Entry>, keep: Entry -> bool, e: Entry)
    ensures e in Filter(list, keep) <==> e in list && keep(e)
  {
    if list != [] {
      var v, x := list[..|list| - 1], list[|list| - 1];
      assert list == v + [x];
      FilterHas(v, keep, e);
    }
  }

  lemma OrderedSnoc(list: seq<Entry>, x: Entry, ack: nat)
    requires Ordered(list, ack) && 1 <= x.srvToken <= ack
    requires forall e :: e in list ==> e.srvToken < x.srvToken && e.sub != x.sub
    ensures Ordered(list + [x], ack)
  {}

  lemma {:induction false} FilterOrdered(list: seq<Entry>, keep: Entry -> bool, ack: nat)
    requires Ordered(list, ack)
    ensures Ordered(Filter(list, keep), ack)
  {
    if list != [] {
      var v, x := list[..|list| - 1], list[|list| - 1];
      var w := Filter(v, keep);
      assert Filter(list, keep) == w + if keep(x) then [x] else [];
      hide Filter;
      FilterOrdered(v, keep, ack);
      forall e | e in w
        ensures e.srvToken < x.srvToken && e.sub != x.sub
      {
        FilterHas(v, keep, e);
      }
      OrderedSnoc(w, x, ack);
      assert w + [] == w;
    }
  }

  /** Who is told about an event: its own subscribers and those of all events, in order. */
  lemma TargetsAre(list: seq<Entry>, eventNum: int, ack: nat)
    ensures forall e :: e in Targets(list, eventNum) <==>
      e in list && (e.sub.eventNum == -1 || e.sub.eventNum == eventNum)
    ensures Ordered(list, ack) ==> Ordered(Targets(list, eventNum), ack)
  {
    var keep := (e: Entry) => e.sub.eventNum == -1 || e.sub.eventNum == eventNum;
    assert Targets(list, eventNum) == Filter(list, keep);
    forall e
      ensures e in Filter(list, keep) <==> e in list && keep(e)
    {
      FilterHas(list, keep, e);
    }
    if Ordered(list, ack) {
      FilterOrdered(list, keep, ack);
    }
  }

  /** Who is left when a token is taken out: all others, in order. */
  lemma WithoutIs(list: seq<Entry>, token: int, ack: nat)
    ensures forall e :: e in Without(list, token) <==> e in list && e.srvToken != token
    ensures Ordered(list, ack) ==> Ordered(Without(list, token), ack)
  {
    var keep := (e: Entry) => e.srvToken != token;
    assert Without(list, token) == Filter(list, keep);
    forall e
      ensures e in Filter(list, keep) <==> e in list && keep(e)
    {
      FilterHas(list, keep, e);
    }
    if Ordered(list, ack) {
      FilterOrdered(list, keep, ack);
    }
  }

  /** The manager with its fields. */
  class Mgr {
    var ackToken: nat
    var eventList: seq<Entry>
    var notifyEvent: seq<Event>
    ghost var records: map<int, Record>

    ghost function View(): Manager
      reads this
    {
      Manager(ackToken, eventList, records)
    }

    constructor ()
      ensures View() == Manager(0, [], map[]) && notifyEvent == []
    {
      ackToken, eventList, notifyEvent, records := 0, [], [], map[];
    }

    method RegisterEventSubscription(sub: Subscription) returns (rc: int, token: int)
      modifies `ackToken, `eventList
      ensures View() == AfterRegister(old(View()), sub)
      ensures rc == if Subscribed(old(eventList), sub) then -1 else 0
      ensures rc == 0 ==>
        token == ackToken == old(ackToken) + 1 && eventList == old(eventList) + [Entry(sub, token, 0, 0, false)]
      ensures rc != 0 ==> eventList == old(eventList) && ackToken == old(ackToken)
    {
      var i := 0;
      while i < |eventList|
        invariant 0 <= i <= |eventList|
        invariant forall k :: 0 <= k < i ==> eventList[k].sub != sub
      {
        if eventList[i].sub == sub {
          return -1, 0;
        }
        i := i + 1;
      }
      ackToken := ackToken + 1;
      eventList := eventList + [Entry(sub, ackToken, 0, 0, false)];
      return 0, ackToken;
    }

    method UnregisterEventSubscription(token: int) returns (rc: int)
      modifies `eventList
      ensures eventList == Without(old(eventList), token)
      ensures forall e :: e in eventList <==> e in old(eventList) && e.srvToken != token
      ensures Ordered(old(eventList), ackToken) ==> Ordered(eventList, ackToken)
      ensures rc == if Listed(old(eventList), token) then 0 else -1
    {
      var out: seq<Entry> := [];
      rc := -1;
      var i := 0;
      while i < |eventList|
        invariant 0 <= i <= |eventList|
        invariant out == Without(eventList[..i], token)
        invariant rc == -1 || rc == 0
        invariant rc == 0 <==> exists k :: 0 <= k < i && eventList[k].srvToken == token
      {
        assert eventList[..i + 1][..i] == eventList[..i];
        if eventList[i].srvToken == token {
          rc := 0;
        } else {
          out := out + [eventList[i]];
        }
        i := i + 1;
      }
      assert eventList[..|eventList|] == eventList;
      WithoutIs(eventList, token, ackToken);
      eventList := out;
    }

    /** The copy that the notify thread takes under the lock. */
    method CopyTargets(eventNum: int) returns (targets: seq<Entry>)
      ensures targets == Targets(eventList, eventNum)
      ensures forall e :: e in targets <==> e in eventList && (e.sub.eventNum == -1 || e.sub.eventNum == eventNum)
      ensures Ordered(eventList, ackToken) ==> Ordered(targets, ackToken)
    {
      targets := [];
      var i := 0;
      while i < |eventList|
        invariant 0 <= i <= |eventList|
        invariant targets == Targets(eventList[..i], eventNum)
      {
        assert eventList[..i + 1][..i] == eventList[..i];
        if eventList[i].sub.eventNum == -1 || eventList[i].sub.eventNum == eventNum {
          targets := targets + [eventList[i]];
        }
        i := i + 1;
      }
      assert eventList[..|eventList|] == eventList;
      TargetsAre(eventList, eventNum, ackToken);
    }

    /** update_failure_counts at the time `now`. */
    method UpdateFailureCounts(failed: seq<int>, delivered: seq<int>, now: int)
      modifies `eventList, `records
      ensures View() == AfterUpdate(old(View()), failed, delivered, now)
    {
      if failed == [] && delivered == [] {
        return;
      }
      records := Recorded(View(), failed, delivered, now);
      CountFailures(failed, delivered, now);
      EraseFlagged();
    }

    method CountFailures(failed: seq<int>, delivered: seq<int>, now: int)
      modifies `eventList
      ensures eventList == TouchedAll(old(eventList), failed, delivered, now)
    {
      var i := 0;
      while i < |eventList|
        invariant 0 <= i <= |eventList| == |old(eventList)|
        invariant forall k :: 0 <= k < |eventList| ==>
          eventList[k] == if k < i then Touched(old(eventList)[k], failed, delivered, now) else old(eventList)[k]
      {
        var e := eventList[i];
        if e.srvToken in delivered {
          e := e.(failCount := 0);
        } else if e.srvToken in failed {
          if e.failCount == 0 {
            e := e.(firstFailMs := now);
          }
          e := e.(failCount := e.failCount + 1);
          if e.failCount >= MAX_FAILURES && now - e.firstFailMs >= FAIL_WINDOW_MS {
            e := e.(deleteFlag := true);
          }
        }
        eventList := eventList[i := e];
        i := i + 1;
      }
      assert eventList == TouchedAll(old(eventList), failed, delivered, now);
    }

    method EraseFlagged()
      modifies `eventList
      ensures eventList == Kept(old(eventList))
    {
      var out: seq<Entry> := [];
      var i := 0;
      while i < |eventList|
        invariant 0 <= i <= |eventList|
        invariant out == Kept(eventList[..i])
      {
        assert eventList[..i + 1][..i] == eventList[..i];
        if !eventList[i].deleteFlag {
          out := out + [eventList[i]];
        }
        i := i + 1;
      }
      assert eventList[..|eventList|] == eventList;
      eventList := out;
    }

    /** The notify thread swaps the queue for an empty one. */
    method TakeEvents() returns (taken: seq<Event>)
      modifies `notifyEvent
      ensures taken == old(notifyEvent) && notifyEvent == []
    {
      taken, notifyEvent := notifyEvent, [];
    }

    method NotifyEvent(eventNum: int, eventArg: int, eventArg2: int)
      modifies `notifyEvent
      ensures notifyEvent == Queued(old(notifyEvent), Event(eventNum, eventArg, 0, eventArg2))
    {
      if |notifyEvent| >= MAX_QUEUED {
        notifyEvent := notifyEvent[1..];
      }
      notifyEvent := notifyEvent + [Event(eventNum, eventArg, 0, eventArg2)];
    }
  }
}

/** Runs of the event manager, with the notify thread between its copy and its update. */
module EventTheorems {
  import opened EventManager

  // the notify thread is sending: the last token and the targets when it copied them
  datatype Sending = NoEvent | Sending(ack: nat, targets: seq<Entry>)

  datatype State = State(m: Manager, sending: Sending)

  datatype Step =
    | Register(sub: Subscription)
    | Unregister(token: int)
    | Copy(eventNum: int)
    | Update(failed: seq<int>, delivered: seq<int>, now: int)

  predicate Enabled(s: State, a: Step) {
    match a
    case Register(_) => true
    case Unregister(_) => true
    case Copy(_) => s.sending.NoEvent?
    case Update(failed, delivered, _) =>
      s.sending.Sending? && forall t :: t in failed + delivered ==> Listed(s.sending.targets, t)
  }

  function Do(s: State, a: Step): State
    requires Enabled(s, a)
  {
    match a
    case Register(sub) => s.(m := AfterRegister(s.m, sub))
    case Unregister(token) => s.(m := s.m.(list := Without(s.m.list, token)))
    case Copy(eventNum) => s.(sending := Sending(s.m.ackToken, Targets(s.m.list, eventNum)))
    case Update(failed, delivered, now) => State(AfterUpdate(s.m, failed, delivered, now), NoEvent)
  }

  ghost predicate Next(s: State, s': State) {
    exists a :: Enabled(s, a) && s' == Do(s, a)
  }

  ghost predicate IsRun(r: seq<State>) {
    && |r| > 0 && r[0] == State(Manager(0, [], map[]), NoEvent)
    && forall i :: 0 <= i < |r| - 1 ==> Next(r[i], r[i + 1])
  }

  // The invariant

  lemma {:induction false} RunSnoc(h: Record, a: Attempt)
    ensures FailRun(h + [a]) == if a.ok then 0 else FailRun(h) + 1
  {
    assert (h + [a])[..|h|] == h;
  }

  /** One entry under one result: the counters follow the record, and the flag says that the
      record has expired. */
  lemma TouchFits(e: Entry, h: Record, failed: seq<int>, delivered: seq<int>, now: int)
    requires EntryFits(e, h) && !e.deleteFlag
    ensures var e' := Touched(e, failed, delivered, now);
      var h' := h + if e.srvToken in delivered then [Attempt(true, now)]
                    else if e.srvToken in failed then [Attempt(false, now)] else [];
      && e'.failCount == FailRun(h') && (e'.failCount > 0 ==> e'.firstFailMs == h'[|h'| - FailRun(h')].now)
      && (e'.deleteFlag <==> Expired(h'))
  {
    if e.srvToken in delivered {
      RunSnoc(h, Attempt(true, now));
    } else if e.srvToken in failed {
      RunSnoc(h, Attempt(false, now));
    } else {
      assert h + [] == h;
    }
  }

  lemma RegisterKeeps(m: Manager, sub: Subscription)
    requires Inv(m)
    ensures Inv(AfterRegister(m, sub))
  {
    if !Subscribed(m.list, sub) {
      var x := Entry(sub, m.ackToken + 1, 0, 0, false);
      OrderedSnoc(m.list, x, m.ackToken + 1);
      assert RecordOf(m.records, x.srvToken) == [];
    }
  }

  lemma UnregisterKeeps(m: Manager, token: int)
    requires Inv(m)
    ensures Inv(m.(list := Without(m.list, token)))
  {
    var keep := (e: Entry) => e.srvToken != token;
    assert Without(m.list, token) == Filter(m.list, keep);
    FilterOrdered(m.list, keep, m.ackToken);
    forall e | e in Filter(m.list, keep)
      ensures e in m.list
    {
      FilterHas(m.list, keep, e);
    }
  }

  lemma RecordedFor(m: Manager, failed: seq<int>, delivered: seq<int>, now: int, token: int)
    requires Listed(m.list, token)
    ensures RecordOf(Recorded(m, failed, delivered, now), token) == RecordOf(m.records, token)
      + if token in delivered then [Attempt(true, now)] else if token in failed then [Attempt(false, now)] else []
  {}

  /** What an update does to one listed entry. */
  lemma UpdateOne(m: Manager, failed: seq<int>, delivered: seq<int>, now: int, e: Entry)
    requires Inv(m) && e in m.list && (failed != [] || delivered != [])
    ensures var m', e' := AfterUpdate(m, failed, delivered, now), Touched(e, failed, delivered, now);
      && (e'.deleteFlag <==> Expired(RecordOf(m'.records, e.srvToken)))
      && (!e'.deleteFlag ==> EntryFits(e', RecordOf(m'.records, e.srvToken)))
      && (e' in m'.list <==> !e'.deleteFlag)
  {
    hide Filter, Recorded, FailRun, Expired;
    var all, keep := TouchedAll(m.list, failed, delivered, now), (x: Entry) => !x.deleteFlag;
    var e' := Touched(e, failed, delivered, now);
    var i :| 0 <= i < |m.list| && m.list[i] == e;
    assert all[i] == e';
    FilterHas(all, keep, e');
    assert Kept(all) == Filter(all, keep);
    RecordedFor(m, failed, delivered, now, e.srvToken);
    TouchFits(e, RecordOf(m.records, e.srvToken), failed, delivered, now);
  }

  lemma TouchedOrdered(list: seq<Entry>, failed: seq<int>, delivered: seq<int>, now: int, ack: nat)
    requires Ordered(list, ack)
    ensures Ordered(TouchedAll(list, failed, delivered, now), ack)
  {}

  lemma RecordsBelow(m: Manager, failed: seq<int>, delivered: seq<int>, now: int, token: int)
    requires Inv(m) && token in Recorded(m, failed, delivered, now)
    ensures token <= m.ackToken
  {
    hide FailRun, Expired;
  }

  lemma UpdateKeeps(m: Manager, failed: seq<int>, delivered: seq<int>, now: int)
    requires Inv(m)
    ensures Inv(AfterUpdate(m, failed, delivered, now))
  {
    hide Filter, Recorded, FailRun, Expired, Ordered, EntryFits;
    if failed != [] || delivered != [] {
      var m' := AfterUpdate(m, failed, delivered, now);
      var all, keep := TouchedAll(m.list, failed, delivered, now), (x: Entry) => !x.deleteFlag;
      assert m'.list == Filter(all, keep);
      TouchedOrdered(m.list, failed, delivered, now, m.ackToken);
      FilterOrdered(all, keep, m.ackToken);
      forall t | t in m'.records
        ensures t <= m'.ackToken
      {
        RecordsBelow(m, failed, delivered, now, t);
      }
      forall e' | e' in m'.list
        ensures !e'.deleteFlag && EntryFits(e', RecordOf(m'.records, e'.srvToken))
      {
        FilterHas(all, keep, e');
        var i :| 0 <= i < |all| && all[i] == e';
        UpdateOne(m, failed, delivered, now, m.list[i]);
      }
    }
  }

  ghost predicate StateInv(s: State) {
    && Inv(s.m)
    && (s.sending.Sending? ==>
          s.sending.ack <= s.m.ackToken && forall e :: e in s.sending.targets ==> e.srvToken <= s.sending.ack)
  }

  lemma StepKeeps(s: State, a: Step)
    requires StateInv(s) && Enabled(s, a)
    ensures StateInv(Do(s, a)) && s.m.ackToken <= Do(s, a).m.ackToken
  {
    match a
    case Register(sub) => RegisterKeeps(s.m, sub);
    case Unregister(token) => UnregisterKeeps(s.m, token);
    case Copy(eventNum) =>
      var keep := (e: Entry) => e.sub.eventNum == -1 || e.sub.eventNum == eventNum;
      forall e | e in Targets(s.m.list, eventNum)
        ensures e in s.m.list
      {
        assert Targets(s.m.list, eventNum) == Filter(s.m.list, keep);
        FilterHas(s.m.list, keep, e);
      }
    case Update(failed, delivered, now) => UpdateKeeps(s.m, failed, delivered, now);
  }

  lemma {:induction false} RunKeeps(r: seq<State>, i: nat)
    requires IsRun(r) && i < |r|
    ensures StateInv(r[i])
  {
    if i > 0 {
      RunKeeps(r, i - 1);
      assert Next(r[i - 1], r[i - 1 + 1]);
      hide Do, Enabled, StateInv;
      var a :| Enabled(r[i - 1], a) && r[i] == Do(r[i - 1], a);
      StepKeeps(r[i - 1], a);
    }
  }

  /** In every run, an update removes a listed subscriber exactly when the failures at the end
      of its record are at least 5 and span at least a minute; otherwise its entry stays. */
  lemma RemovedIffExpired(r: seq<State>, i: nat, failed: seq<int>, delivered: seq<int>, now: int, e: Entry)
    requires IsRun(r) && i < |r| && Enabled(r[i], Update(failed, delivered, now)) && e in r[i].m.list
    ensures var m' := AfterUpdate(r[i].m, failed, delivered, now);
      var h := RecordOf(m'.records, e.srvToken); var n := FailRun(h);
      (exists x :: x in m'.list && x.srvToken == e.srvToken) <==> !(n >= 5 && h[|h| - 1].now - h[|h| - n].now >= 60000)
  {
    hide IsRun, FailRun, Recorded, Filter;
    RunKeeps(r, i);
    var m := r[i].m;
    var m' := AfterUpdate(m, failed, delivered, now);
    var n :| 0 <= n < |m.list| && m.list[n] == e;
    if failed == [] && delivered == [] {
      assert m'.list[n].srvToken == e.srvToken;
    } else {
      UpdateOne(m, failed, delivered, now, e);
      OnlyItsOwn(m, failed, delivered, now, e);
    }
  }

  // a token that is still listed is listed with its own entry
  lemma OnlyItsOwn(m: Manager, failed: seq<int>, delivered: seq<int>, now: int, e: Entry)
    requires Inv(m) && e in m.list && (failed != [] || delivered != [])
    ensures var m' := AfterUpdate(m, failed, delivered, now);
      Listed(m'.list, e.srvToken) <==> Touched(e, failed, delivered, now) in m'.list
  {
    hide Filter, Recorded, FailRun, Expired;
    var m' := AfterUpdate(m, failed, delivered, now);
    var all, keep := TouchedAll(m.list, failed, delivered, now), (x: Entry) => !x.deleteFlag;
    assert m'.list == Filter(all, keep);
    if Listed(m'.list, e.srvToken) {
      var k :| 0 <= k < |m'.list| && m'.list[k].srvToken == e.srvToken;
      FilterHas(all, keep, m'.list[k]);
      var j :| 0 <= j < |all| && all[j] == m'.list[k];
      assert m.list[j].srvToken == e.srvToken && m.list[j] in m.list;
    }
  }

  /** In every run: a subscription that is made is listed, with a new token and a clean slate, and
      one that is there already is refused; nobody else is affected. */
  lemma RegisteredIsListed(r: seq<State>, i: nat, sub: Subscription)
    requires IsRun(r) && i < |r|
    ensures var m, m' := r[i].m, Do(r[i], Register(sub)).m;
      && (exists e :: e in m'.list && e.sub == sub)
      && (forall e :: e in m.list ==> e in m'.list)
      && (forall e :: e in m'.list && e !in m.list ==> e == Entry(sub, m.ackToken + 1, 0, 0, false))
      && ((exists e :: e in m.list && e.sub == sub) ==> m' == m)
  {
    var m, m' := r[i].m, Do(r[i], Register(sub)).m;
    if Subscribed(m.list, sub) {
      var n :| 0 <= n < |m.list| && m.list[n].sub == sub;
      assert m.list[n] in m'.list;
    } else {
      assert m'.list[|m.list|].sub == sub;
    }
  }

  /** In every run: a token that is taken back is not listed any more, and all others are. */
  lemma UnregisteredIsGone(r: seq<State>, i: nat, token: int)
    requires IsRun(r) && i < |r|
    ensures var m, m' := r[i].m, Do(r[i], Unregister(token)).m;
      forall e :: e in m'.list <==> e in m.list && e.srvToken != token
  {
    WithoutIs(r[i].m.list, token, r[i].m.ackToken);
  }

  /** In every run: the targets of an event are exactly those who subscribed to it or to all
      events and are listed when it is taken up. */
  lemma EventReachesItsSubscribers(r: seq<State>, i: nat, eventNum: int)
    requires IsRun(r) && i < |r| && Enabled(r[i], Copy(eventNum))
    ensures var s' := Do(r[i], Copy(eventNum));
      && s'.sending.Sending? && s'.m == r[i].m && Ordered(s'.sending.targets, r[i].m.ackToken)
      && forall e :: e in s'.sending.targets <==>
           e in r[i].m.list && (e.sub.eventNum == -1 || e.sub.eventNum == eventNum)
  {
    RunKeeps(r, i);
    TargetsAre(r[i].m.list, eventNum, r[i].m.ackToken);
  }

  /** Results of an event never touch a subscription made after its targets were copied. */
  lemma NewcomersUntouched(r: seq<State>, i: nat, failed: seq<int>, delivered: seq<int>, now: int, e: Entry)
    requires IsRun(r) && i < |r| && Enabled(r[i], Update(failed, delivered, now))
    requires e in r[i].m.list && e.srvToken > r[i].sending.ack
    ensures var m' := AfterUpdate(r[i].m, failed, delivered, now);
      e in m'.list && RecordOf(m'.records, e.srvToken) == RecordOf(r[i].m.records, e.srvToken)
  {
    hide IsRun, Expired, FailRun, Recorded, Filter;
    RunKeeps(r, i);
    forall t | t in failed + delivered
      ensures t <= r[i].sending.ack
    {
      assert Listed(r[i].sending.targets, t);
    }
    assert forall t :: t in failed || t in delivered ==> t in failed + delivered;
    if failed != [] || delivered != [] {
      RecordedFor(r[i].m, failed, delivered, now, e.srvToken);
      UpdateOne(r[i].m, failed, delivered, now, e);
    }
  }

  lemma UpdateKeepsOwner(m: Manager, failed: seq<int>, delivered: seq<int>, now: int, e: Entry) returns (x: Entry)
    requires e in AfterUpdate(m, failed, delivered, now).list
    ensures x in m.list && x.srvToken == e.srvToken && x.sub == e.sub
  {
    hide Filter, Recorded;
    x := e;
    if failed != [] || delivered != [] {
      var all, keep := TouchedAll(m.list, failed, delivered, now), (y: Entry) => !y.deleteFlag;
      assert AfterUpdate(m, failed, delivered, now).list == Filter(all, keep);
      FilterHas(all, keep, e);
      var i :| 0 <= i < |all| && all[i] == e;
      x := m.list[i];
    }
  }

  lemma UnregisterKeepsOwner(m: Manager, token: int, e: Entry)
    requires e in Without(m.list, token)
    ensures e in m.list
  {
    var keep := (x: Entry) => x.srvToken != token;
    assert Without(m.list, token) == Filter(m.list, keep);
    FilterHas(m.list, keep, e);
  }

  lemma StepKeepsOwner(s: State, a: Step, e: Entry) returns (x: Entry)
    requires Enabled(s, a) && e in Do(s, a).m.list && e.srvToken <= s.m.ackToken
    ensures x in s.m.list && x.srvToken == e.srvToken && x.sub == e.sub
  {
    hide AfterUpdate, Without, Subscribed;
    x := e;
    match a
    case Register(_) =>
    case Copy(_) =>
    case Unregister(token) => UnregisterKeepsOwner(s.m, token, e);
    case Update(failed, delivered, now) => x := UpdateKeepsOwner(s.m, failed, delivered, now, e);
  }

  /** Whoever is listed with a token that was given out before has been listed since. */
  lemma {:induction false} ListedBefore(r: seq<State>, i: nat, j: nat, e: Entry) returns (x: Entry)
    requires IsRun(r) && i <= j < |r| && e in r[j].m.list && e.srvToken <= r[i].m.ackToken
    ensures x in r[i].m.list && x.srvToken == e.srvToken && x.sub == e.sub
    decreases j
  {
    hide Do, Enabled, StateInv;
    x := e;
    if i < j {
      AckGrows(r, i, j - 1);
      assert Next(r[j - 1], r[j - 1 + 1]);
      var a :| Enabled(r[j - 1], a) && r[j] == Do(r[j - 1], a);
      var y := StepKeepsOwner(r[j - 1], a, e);
      x := ListedBefore(r, i, j - 1, y);
    }
  }

  lemma {:induction false} AckGrows(r: seq<State>, i: nat, j: nat)
    requires IsRun(r) && i <= j < |r|
    ensures r[i].m.ackToken <= r[j].m.ackToken
    decreases j
  {
    hide Do, Enabled, StateInv;
    if i < j {
      AckGrows(r, i, j - 1);
      RunKeeps(r, j - 1);
      assert Next(r[j - 1], r[j - 1 + 1]);
      var a :| Enabled(r[j - 1], a) && r[j] == Do(r[j - 1], a);
      StepKeeps(r[j - 1], a);
    }
  }

  /** A token stands for one subscription for good. */
  lemma TokensNeverComeBack(r: seq<State>, i: nat, j: nat, e: Entry, e': Entry)
    requires IsRun(r) && i <= j < |r| && e in r[i].m.list && e' in r[j].m.list && e.srvToken == e'.srvToken
    ensures e.sub == e'.sub
  {
    hide IsRun, EntryFits;
    RunKeeps(r, i);
    var x := ListedBefore(r, i, j, e');
    var m, n :| 0 <= m < |r[i].m.list| && 0 <= n < |r[i].m.list| && r[i].m.list[m] == e && r[i].m.list[n] == x;
  }
}
