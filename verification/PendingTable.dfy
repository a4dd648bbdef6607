/**
 The outstanding requests per connection, guarded by one lock: what each locked
 region of the server does to the table.
 */
module PendingTable {
  const MAX_PENDING := 256
  const SEND_WAIT_BUDGET_MS := 5000
  const SEND_WAIT_WINDOW_MS := 60000

  datatype Pending = Pending(count: int, paused: bool, dead: bool, waitMs: int, windowStartMs: int)

  const FRESH := Pending(0, false, false, 0, 0)

  type Table = map<int, Pending>

  /** pending[c], which creates the entry when it is missing. */
  function At(p: Table, c: int): Pending {
    if c in p then p[c] else FRESH
  }

  predicate IsPaused(p: Table, c: int) {
    c in p && p[c].paused
  }

  predicate IsDead(p: Table, c: int) {
    c in p && p[c].dead
  }

  /** queue_framed_requests: count one more request, or pause at the limit. */
  function CountOrPause(p: Table, c: int): Table {
    var e := At(p, c);
    p[c := if e.count >= MAX_PENDING then e.(paused := true) else e.(count := e.count + 1)]
  }

  predicate AtLimit(p: Table, c: int) {
    At(p, c).count >= MAX_PENDING
  }

  /** drop_connection: dead from now on, and paused no longer. */
  function MarkDead(p: Table, c: int): Table {
    p[c := At(p, c).(dead := true, paused := false)]
  }

  /** response_done: one request less; half of the limit ends the pause. */
  function Release(p: Table, c: int): Table {
    if c !in p then p else
    var e := p[c];
    var n := if e.count > 0 then e.count - 1 else e.count;
    p[c := e.(count := n, paused := e.paused && n > MAX_PENDING / 2)]
  }

  /** over_send_wait_budget: account a wait, in a new window if the old one has passed. */
  function Account(e: Pending, now: int, waited: int): Pending {
    if now - e.windowStartMs > SEND_WAIT_WINDOW_MS then e.(windowStartMs := now, waitMs := waited)
    else e.(waitMs := e.waitMs + waited)
  }

  predicate OverBudget(e: Pending) {
    e.waitMs > SEND_WAIT_BUDGET_MS
  }

  /** What every locked region keeps: a paused connection has more than half of the limit
      outstanding, so answers that will end the pause are still to come. */
  ghost predicate Bounded(p: Table) {
    forall c :: c in p ==> 0 <= p[c].count <= MAX_PENDING && (p[c].paused ==> p[c].count > MAX_PENDING / 2)
  }

  lemma RegionsKeepBounds(p: Table, c: int)
    requires Bounded(p)
    ensures Bounded(CountOrPause(p, c)) && Bounded(MarkDead(p, c)) && Bounded(Release(p, c))
  {}

  /** The table as the server holds it; each method is one locked region. */
  class PendingMap {
    var pending: Table

    constructor ()
      ensures pending == map[]
    {
      pending := map[];
    }

    method ConnectionDead(cltid: int) returns (dead: bool)
      ensures dead <==> cltid >= 0 && IsDead(pending, cltid)
    {
      if cltid < 0 {
        return false;
      }
      dead := cltid in pending && pending[cltid].dead;
    }

    /** The locked region of drop_connection; `wake` asks for a byte in the wake pipe. */
    method Drop(cltid: int) returns (first: bool, wake: bool)
      modifies this
      ensures cltid < 0 ==> pending == old(pending) && first && !wake
      ensures cltid >= 0 ==> pending == MarkDead(old(pending), cltid)
      ensures cltid >= 0 ==> first == !IsDead(old(pending), cltid) && wake == IsPaused(old(pending), cltid)
    {
      first, wake := true, false;
      if cltid >= 0 {
        if cltid !in pending {
          pending := pending[cltid := FRESH];
        }
        first := !pending[cltid].dead;
        pending := pending[cltid := pending[cltid].(dead := true)];
        if pending[cltid].paused {
          pending := pending[cltid := pending[cltid].(paused := false)];
          wake := true;
        }
      }
    }

    /** The locked region of response_done. */
    method ResponseDone(cltid: int) returns (wake: bool)
      modifies this
      ensures cltid < 0 ==> pending == old(pending) && !wake
      ensures cltid >= 0 ==> pending == Release(old(pending), cltid)
      ensures cltid >= 0 ==> wake == (IsPaused(old(pending), cltid) && !IsPaused(pending, cltid))
    {
      wake := false;
      if cltid < 0 {
        return;
      }
      if cltid in pending {
        var e := pending[cltid];
        if e.count > 0 {
          e := e.(count := e.count - 1);
        }
        if e.paused && e.count <= MAX_PENDING / 2 {
          e := e.(paused := false);
          wake := true;
        }
        pending := pending[cltid := e];
      }
    }

    /** The locked region in the loop of queue_framed_requests. */
    method CountRequest(cltid: int) returns (paused: bool)
      modifies this
      ensures pending == CountOrPause(old(pending), cltid)
      ensures paused == AtLimit(old(pending), cltid)
    {
      if cltid !in pending {
        pending := pending[cltid := FRESH];
      }
      paused := pending[cltid].count >= MAX_PENDING;
      if paused {
        pending := pending[cltid := pending[cltid].(paused := true)];
      } else {
        pending := pending[cltid := pending[cltid].(count := pending[cltid].count + 1)];
      }
    }

    /** over_send_wait_budget at the time `now`. */
    method OverSendWaitBudget(cltid: int, waited: int, now: int) returns (over: bool)
      modifies this
      ensures cltid < 0 || waited <= 0 || cltid !in old(pending) ==> pending == old(pending) && !over
      ensures cltid >= 0 && waited > 0 && cltid in old(pending) ==>
                && pending == old(pending)[cltid := Account(old(pending)[cltid], now, waited)]
                && over == OverBudget(pending[cltid])
    {
      over := false;
      if cltid < 0 || waited <= 0 {
        return;
      }
      if cltid in pending {
        var e := pending[cltid];
        if now - e.windowStartMs > SEND_WAIT_WINDOW_MS {
          e := e.(windowStartMs := now, waitMs := 0);
        }
        e := e.(waitMs := e.waitMs + waited);
        over := e.waitMs > SEND_WAIT_BUDGET_MS;
        pending := pending[cltid := e];
      }
    }
  }
}

/** The send-wait budget of one connection over its life. */
module SendBudget {
  import opened PendingTable

  // the time one response had to wait, and when that was accounted
  datatype Wait = Wait(now: int, waited: int)

  /** A monotone clock, and only real waits. */
  predicate Clocked(ws: seq<Wait>) {
    && (forall i :: 0 <= i < |ws| ==> ws[i].now >= 0 && ws[i].waited > 0)
    && (forall i, j :: 0 <= i < j < |ws| ==> ws[i].now <= ws[j].now)
  }

  /** The entry after these waits. */
  function After(ws: seq<Wait>): Pending {
    if ws == [] then FRESH else Account(After(ws[..|ws| - 1]), ws[|ws| - 1].now, ws[|ws| - 1].waited)
  }

  /** The connection was not dropped for its budget at any of these waits. */
  ghost predicate Kept(ws: seq<Wait>) {
    forall k :: 0 < k <= |ws| ==> !OverBudget(After(ws[..k]))
  }

  /** All waiting accounted from the time `from` on. */
  function WaitedSince(ws: seq<Wait>, from: int): int {
    if ws == [] then 0 else
    WaitedSince(ws[..|ws| - 1], from) + (if ws[|ws| - 1].now >= from then ws[|ws| - 1].waited else 0)
  }

  /** All waiting accounted within [from, to]. */
  function WaitedIn(ws: seq<Wait>, from: int, to: int): int {
    if ws == [] then 0 else
    WaitedIn(ws[..|ws| - 1], from, to) + (if from <= ws[|ws| - 1].now <= to then ws[|ws| - 1].waited else 0)
  }

  /** The account holds exactly the waits of the current window. */
  lemma {:induction false} AccountIsWindow(ws: seq<Wait>)
    requires Clocked(ws)
    ensures After(ws).waitMs == WaitedSince(ws, After(ws).windowStartMs)
    ensures After(ws).windowStartMs >= 0
    ensures ws != [] ==> After(ws).windowStartMs <= ws[|ws| - 1].now <= After(ws).windowStartMs + SEND_WAIT_WINDOW_MS
  {
    if ws != [] {
      var v, w := ws[..|ws| - 1], ws[|ws| - 1];
      AccountIsWindow(v);
      if After(v).windowStartMs + SEND_WAIT_WINDOW_MS < w.now {
        NothingSince(v, w.now);
      }
    }
  }

  lemma {:induction false} NothingSince(ws: seq<Wait>, from: int)
    requires forall i :: 0 <= i < |ws| ==> ws[i].now < from
    ensures WaitedSince(ws, from) == 0
  {
    if ws != [] {
      NothingSince(ws[..|ws| - 1], from);
    }
  }

  lemma {:induction false} Splits(ws: seq<Wait>, from: int, mid: int, to: int)
    requires Clocked(ws)
    ensures WaitedIn(ws, from, to) <= WaitedIn(ws, from, mid - 1) + WaitedSince(ws, mid)
    ensures from >= mid ==> WaitedIn(ws, from, to) <= WaitedSince(ws, mid)
    ensures WaitedIn(ws, from, to) >= 0
  {
    if ws != [] {
      Splits(ws[..|ws| - 1], from, mid, to);
    }
  }

  lemma KeptPrefix(ws: seq<Wait>)
    requires Kept(ws) && Clocked(ws) && ws != []
    ensures Kept(ws[..|ws| - 1]) && Clocked(ws[..|ws| - 1])
    ensures After(ws).waitMs <= SEND_WAIT_BUDGET_MS
  {
    var v := ws[..|ws| - 1];
    forall k | 0 < k <= |v|
      ensures v[..k] == ws[..k]
    {}
    assert ws[..|ws|] == ws;
  }

  /** A wait is over the budget exactly when the waits of its window add up to more. */
  lemma DroppedIffOverBudget(ws: seq<Wait>)
    requires Clocked(ws)
    ensures OverBudget(After(ws)) <==> WaitedSince(ws, After(ws).windowStartMs) > SEND_WAIT_BUDGET_MS
  {
    AccountIsWindow(ws);
  }

  /** The minute before the current window touches only the window before it. */
  lemma {:induction false} MinuteBeforeWindow(ws: seq<Wait>, t: int)
    requires Kept(ws) && Clocked(ws)
    requires t >= After(ws).windowStartMs - SEND_WAIT_WINDOW_MS
    ensures WaitedIn(ws, t, After(ws).windowStartMs - 1) <= SEND_WAIT_BUDGET_MS
  {
    if ws != [] {
      var v, w := ws[..|ws| - 1], ws[|ws| - 1];
      KeptPrefix(ws);
      AccountIsWindow(v);
      AccountIsWindow(ws);
      if After(ws).windowStartMs == After(v).windowStartMs {
        MinuteBeforeWindow(v, t);
      } else {
        Splits(v, t, After(v).windowStartMs, After(ws).windowStartMs - 1);
        if v != [] {
          KeptPrefix(v);
        }
      }
    }
  }

  /** As long as a connection is not dropped, its responses wait at most twice the budget in any
      minute. */
  lemma {:induction false} AnyMinuteIsBounded(ws: seq<Wait>, t: int)
    requires Kept(ws) && Clocked(ws)
    ensures WaitedIn(ws, t, t + SEND_WAIT_WINDOW_MS) <= 2 * SEND_WAIT_BUDGET_MS
  {
    if ws != [] {
      var start := After(ws).windowStartMs;
      KeptPrefix(ws);
      AccountIsWindow(ws);
      if t + SEND_WAIT_WINDOW_MS < start {
        AnyMinuteIsBounded(ws[..|ws| - 1], t);
      } else {
        Splits(ws, t, start, t + SEND_WAIT_WINDOW_MS);
        if t < start {
          MinuteBeforeWindow(ws, t);
        }
      }
    }
  }
}
