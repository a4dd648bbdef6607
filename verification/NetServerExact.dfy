/**
 Two things that one might expect of the pending table and that do not always hold: every
 entry belongs to an open connection, and no dropped connection is paused.  Here is exactly
 which step breaks them, and so which runs keep them.
 */
module NetServerExact {
  import opened PendingTable
  import opened NetServer
  import opened NetServerFd
  import opened NetServerFlow
  import opened NetServerTheorems

  // Entries without a connection

  ghost predicate AllOpen(s: State) {
    forall c :: c in s.pending ==> Open(s.clients, Erased(s.l.pc), c)
  }

  /** The response thread drops a connection whose entry the listen thread has already erased. */
  predicate LateDrop(s: State, a: Step) {
    && a == Respond(Drop) && s.rpc.Dropping?
    && s.rpc.req.cltid >= 0 && !Open(s.clients, Erased(s.l.pc), s.rpc.req.cltid)
  }

  // the steps of the listen thread: an open connection's entry goes before the connection

  lemma OpenLoop(s: State, a: LoopStep)
    requires FdInv(s) && AllOpen(s) && LoopEnabled(s, a)
    ensures AllOpen(DoLoop(s, a))
  {
    hide DupFits, SentFits, FramersFit, MasterFits, PlaceFits, WorkingFits, MaxFits, NothingStranded, IsPaused;
  }

  lemma OpenData(s: State, a: DataStep)
    requires FdInv(s) && AllOpen(s) && DataEnabled(s, a)
    ensures AllOpen(DoData(s, a))
  {
    hide DupFits, SentFits, FramersFit, MasterFits, PlaceFits, WorkingFits, MaxFits, NothingStranded, IsDead, AtLimit;
    var s' := DoData(s, a);
    assert s'.clients == s.clients && Erased(s'.l.pc) == Erased(s.l.pc) == {};
    if a.QueueCount? {
      assert Open(s.clients, {}, s.clients.info[s.l.pc.fd]);
    } else {
      assert s'.pending == s.pending;
    }
  }

  lemma OpenClose(s: State, a: CloseStep)
    requires FdInv(s) && AllOpen(s) && CloseEnabled(s, a)
    ensures AllOpen(DoClose(s, a))
  {
    hide DupFits, SentFits, FramersFit, MasterFits, WorkingFits, MaxFits, NothingStranded;
  }

  lemma OpenResponse(s: State, a: ResponseStep)
    requires AllOpen(s) && ResponseEnabled(s, a)
    ensures AllOpen(DoResponse(s, a)) <==> !LateDrop(s, Respond(a))
  {
    hide Open;
    if LateDrop(s, Respond(a)) {
      assert s.rpc.req.cltid in DoResponse(s, a).pending;
    }
  }

  /** From a state in which every entry belongs to an open connection, exactly a late drop
      leads to one in which some entry does not. */
  lemma OrphanArisesIff(s: State, a: Step)
    requires Inv(s) && AllOpen(s) && Enabled(s, a)
    ensures AllOpen(Do(s, a)) <==> !LateDrop(s, a)
  {
    hide FdInv, FlowInv, SockInv, OrphanInv, AllOpen, DoLoop, DoData, DoClose, DoResponse;
    match a
    case Loop(b) => OpenLoop(s, b);
    case Data(b) => OpenData(s, b);
    case Shut(b) => OpenClose(s, b);
    case Respond(b) => OpenResponse(s, b);
    case Schedule(_) => SameTable(s, Do(s, a));
    case Unchecked(_) => SameTable(s, Do(s, a));
  }

  lemma SameTable(s: State, s': State)
    requires s'.pending == s.pending && s'.clients == s.clients && s'.l == s.l
    ensures AllOpen(s') <==> AllOpen(s)
  {}

  /** An entry that has lost its connection is never removed. */
  lemma OrphanStays(s: State, a: Step, c: int)
    requires Inv(s) && Enabled(s, a) && c in s.pending && !Open(s.clients, Erased(s.l.pc), c)
    ensures c in Do(s, a).pending && !Open(Do(s, a).clients, Erased(Do(s, a).l.pc), c)
  {
    hide FlowInv, SockInv, DupFits, SentFits, FramersFit, MasterFits, WorkingFits, MaxFits, NothingStranded;
    hide IsPaused, IsDead, AtLimit;
    match a
    case Loop(b) =>
    case Data(b) =>
    case Shut(b) =>
    case Respond(b) =>
    case Schedule(_) =>
    case Unchecked(_) =>
  }

  predicate LateDropAt(r: seq<State>, j: nat)
    requires j + 1 < |r|
  {
    LateDrop(r[j], Respond(Drop)) && r[j + 1] == Do(r[j], Respond(Drop))
  }

  lemma StepOf(r: seq<State>, j: nat) returns (a: Step)
    requires IsRun(r) && j + 1 < |r|
    ensures Enabled(r[j], a) && r[j + 1] == Do(r[j], a)
  {
    hide Do, Enabled, Init;
    assert Next(r[j], r[j + 1]);
    a :| Enabled(r[j], a) && r[j + 1] == Do(r[j], a);
  }

  /** In every run and at every point of it: all pending entries belong to open connections if
      and only if there was no late drop so far. */
  lemma {:induction false} AllOpenIffNoLateDrop(r: seq<State>, i: nat)
    requires IsRun(r) && i < |r|
    ensures AllOpen(r[i]) <==> forall j :: 0 <= j < i ==> !LateDropAt(r, j)
  {
    hide Inv, Do, Enabled, LateDrop, AllOpen;
    if i == 0 {
      NoEntries(r[0]);
    } else {
      AllOpenIffNoLateDrop(r, i - 1);
      RunKeeps(r, i - 1);
      var a := StepOf(r, i - 1);
      if AllOpen(r[i - 1]) {
        OrphanArisesIff(r[i - 1], a);
        OnlyDrop(r[i - 1], a);
        if LateDropAt(r, i - 1) {
          OrphanArisesIff(r[i - 1], Respond(Drop));
        }
      } else {
        var c := SomeOrphan(r[i - 1]);
        OrphanStays(r[i - 1], a, c);
        HasOrphan(r[i], c);
      }
    }
  }

  lemma NoEntries(s: State)
    requires Init(s)
    ensures AllOpen(s)
  {}

  lemma OnlyDrop(s: State, a: Step)
    ensures LateDrop(s, a) ==> a == Respond(Drop)
    ensures LateDrop(s, Respond(Drop)) ==> Enabled(s, Respond(Drop))
  {}

  lemma SomeOrphan(s: State) returns (c: int)
    requires !AllOpen(s)
    ensures c in s.pending && !Open(s.clients, Erased(s.l.pc), c)
  {
    c :| c in s.pending && !Open(s.clients, Erased(s.l.pc), c);
  }

  lemma HasOrphan(s: State, c: int)
    requires c in s.pending && !Open(s.clients, Erased(s.l.pc), c)
    ensures !AllOpen(s)
  {}

  // Dead and paused

  ghost predicate NoneDeadAndPaused(p: Table) {
    forall c :: c in p ==> !(p[c].dead && p[c].paused)
  }

  /** The listen thread pauses a connection that was dropped after it had looked at the flag. */
  predicate LatePause(s: State, a: Step) {
    && a == Data(QueueCount) && s.l.pc.QueueLoop? && s.l.pc.fd in s.clients.info && Available(s.l, s.l.pc.fd) > 0
    && AtLimit(s.pending, s.clients.info[s.l.pc.fd]) && IsDead(s.pending, s.clients.info[s.l.pc.fd])
  }

  lemma RegionsAndFlags(p: Table, c: int)
    requires NoneDeadAndPaused(p)
    ensures NoneDeadAndPaused(CountOrPause(p, c)) <==> !(AtLimit(p, c) && IsDead(p, c))
    ensures NoneDeadAndPaused(MarkDead(p, c)) && NoneDeadAndPaused(Release(p, c))
  {
    if AtLimit(p, c) && IsDead(p, c) {
      assert CountOrPause(p, c)[c].dead && CountOrPause(p, c)[c].paused;
    }
  }

  /** From a table without a dead and paused entry, exactly a late pause leads to one with such
      an entry. */
  lemma DeadAndPausedArisesIff(s: State, a: Step)
    requires Enabled(s, a) && NoneDeadAndPaused(s.pending)
    ensures NoneDeadAndPaused(Do(s, a).pending) <==> !LatePause(s, a)
  {
    match a
    case Loop(b) => TableLoop(s, b);
    case Data(b) => FlagsData(s, b);
    case Shut(b) => FlagsClose(s, b);
    case Respond(b) => FlagsResponse(s, b);
    case Schedule(_) =>
    case Unchecked(_) =>
  }

  lemma TableLoop(s: State, a: LoopStep)
    requires LoopEnabled(s, a)
    ensures DoLoop(s, a).pending == s.pending
  {}

  lemma FlagsData(s: State, a: DataStep)
    requires DataEnabled(s, a) && NoneDeadAndPaused(s.pending)
    ensures NoneDeadAndPaused(DoData(s, a).pending) <==> !LatePause(s, Data(a))
  {
    hide NoneDeadAndPaused, CountOrPause, AtLimit, IsDead;
    if a.QueueCount? {
      RegionsAndFlags(s.pending, s.clients.info[s.l.pc.fd]);
    }
  }

  lemma FlagsClose(s: State, a: CloseStep)
    requires CloseEnabled(s, a) && NoneDeadAndPaused(s.pending)
    ensures NoneDeadAndPaused(DoClose(s, a).pending)
  {}

  lemma FlagsResponse(s: State, a: ResponseStep)
    requires ResponseEnabled(s, a) && NoneDeadAndPaused(s.pending)
    ensures NoneDeadAndPaused(DoResponse(s, a).pending)
  {
    hide NoneDeadAndPaused, MarkDead, Release, IsPaused, IsDead;
    if a.Drop? || a.Finish? {
      RegionsAndFlags(s.pending, s.rpc.req.cltid);
    }
  }

  predicate LatePauseAt(r: seq<State>, j: nat)
    requires j + 1 < |r|
  {
    LatePause(r[j], Data(QueueCount)) && r[j + 1] == Do(r[j], Data(QueueCount))
  }

  lemma OnlyCount(s: State, a: Step)
    ensures LatePause(s, a) ==> a == Data(QueueCount)
    ensures LatePause(s, Data(QueueCount)) ==> Enabled(s, Data(QueueCount))
  {}

  /** A run never has a dead and paused connection if and only if it has no late pause. */
  lemma {:induction false} NeverDeadAndPausedIff(r: seq<State>)
    requires IsRun(r)
    ensures (forall i :: 0 <= i < |r| ==> NoneDeadAndPaused(r[i].pending))
       <==> (forall j :: 0 <= j < |r| - 1 ==> !LatePauseAt(r, j))
  {
    hide Do, Enabled, LatePause, NoneDeadAndPaused;
    if forall j :: 0 <= j < |r| - 1 ==> !LatePauseAt(r, j) {
      forall i | 0 <= i < |r|
        ensures NoneDeadAndPaused(r[i].pending)
      {
        NoneWithoutLatePause(r, i);
      }
    }
    forall j | 0 <= j < |r| - 1 && NoneDeadAndPaused(r[j].pending) && NoneDeadAndPaused(r[j + 1].pending)
      ensures !LatePauseAt(r, j)
    {
      OnlyCount(r[j], Data(QueueCount));
      if LatePauseAt(r, j) {
        DeadAndPausedArisesIff(r[j], Data(QueueCount));
      }
    }
  }

  lemma {:induction false} NoneWithoutLatePause(r: seq<State>, i: nat)
    requires IsRun(r) && i < |r| && forall j :: 0 <= j < i ==> !LatePauseAt(r, j)
    ensures NoneDeadAndPaused(r[i].pending)
  {
    hide Do, Enabled, LatePause;
    if i > 0 {
      NoneWithoutLatePause(r, i - 1);
      var a := StepOf(r, i - 1);
      OnlyCount(r[i - 1], a);
      DeadAndPausedArisesIff(r[i - 1], a);
      assert !LatePauseAt(r, i - 1);
    }
  }
}
