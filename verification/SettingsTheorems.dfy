/** Crash atomicity: whatever the crash leaves, the next start finds one complete Store. */
module SettingsTheorems {
  import opened Options
  import opened SettingsStore

  // `junk` in a Load is what the memory of a new local copy holds
  datatype Op =
    | Load(junk: Meta)
    | Set(index: int, value: int)
    | SetVersion(version: int)
    | Store(partials: seq<Contents>)

  function After(p: Program, op: Op): Program {
    match op
    case Load(junk) => AfterLoad(p, junk)
    case Set(i, v) => if 0 <= i < |p.entries| then p.(entries := p.entries[i := p.entries[i].(value := v)]) else p
    case SetVersion(v) => p.(meta := p.meta.(version := v))
    case Store(_) => AfterStore(p)
  }

  /** The states that the files go through. */
  function Disks(p: Program, op: Op): seq<Disk> {
    match op
    case Load(_) => LoadDisks(p.disk)
    case Set(_, _) => []
    case SetVersion(_) => []
    case Store(partials) => StoreDisks(p, partials)
  }

  /** The files when the machine stops after `cut` changes, or at the end if there are fewer. */
  function CutOff(p: Program, op: Op, cut: nat): Disk {
    var ds := Disks(p, op);
    if cut == 0 || ds == [] then p.disk else if cut <= |ds| then ds[cut - 1] else ds[|ds| - 1]
  }

  /** All that can happen from the first start on: operations, and stops in the middle of one
      after which the program starts again with its defaults and uninitialised copies. */
  datatype History =
    | First(entries: seq<Entry>)
    | Did(before: History, op: Op)
    | Stopped(before: History, op: Op, cut: nat, entries: seq<Entry>)

  function Now(h: History): Program {
    match h
    case First(entries) => Start(FRESH_DISK, entries)
    case Did(b, op) => After(Now(b), op)
    case Stopped(b, op, cut, entries) => Start(CutOff(Now(b), op, cut), entries)
  }

  /** The selected file passes its checksum, and the other checksum is older; or nothing was
      ever stored. */
  predicate DiskInv(d: Disk) {
    var s, o := At(d, Choose(d)), At(d, Other(Choose(d)));
    if Verified(s) then
      s.file.Complete? && (o.sha.Of? ==> o.sha.file.Complete? && SeqCountOf(o.sha.file) < SeqCountOf(s.file))
    else !o.sha.Of? && !s.sha.Of? && (s.file.Absent? || s.file.Empty?)
  }

  function DurableCount(d: Disk): int {
    MetaOf(Durable(d)).seqCount
  }

  // an open program knows which file is selected and its sequence count
  ghost predicate ProgramInv(p: Program) {
    && DiskInv(p.disk)
    && (p.open ==>
      && p.selected == Choose(p.disk) && p.copies != []
      && p.meta.seqCount == DurableCount(p.disk) && MetaOf(p.mem).seqCount == DurableCount(p.disk)
      && (p.mem.None? ==> Durable(p.disk).None?))
  }

  lemma TouchIsHarmless(d: Disk, e: Disk)
    requires DiskInv(d) && e in LoadDisks(d)
    ensures DiskInv(e) && Choose(e) == Choose(d) && Durable(e) == Durable(d)
  {}

  // every state of the files while the target is written and its checksum is not complete yet
  predicate Writing(d: Disk, e: Disk) {
    var w := Other(Choose(d));
    At(e, Choose(d)) == At(d, Choose(d)) && (At(e, w).sha == At(d, w).sha || At(e, w).sha == Broken)
  }

  lemma WritingKeepsOld(d: Disk, e: Disk, c: Contents)
    requires DiskInv(d) && Writing(d, e)
    requires At(e, Other(Choose(d))).file.Complete? ==> At(e, Other(Choose(d))).file == Complete(c)
    requires Durable(d).Some? ==> c.meta.seqCount > Durable(d).value.meta.seqCount
    ensures DiskInv(e) && Durable(e) == Durable(d) && Choose(e) == Choose(d)
  {}

  lemma StoreWrites(p: Program, partials: seq<Contents>, i: nat)
    requires ProgramInv(p) && p.open && Changed(p) && i < |StoreDisks(p, partials)|
    ensures var e, w := StoreDisks(p, partials)[i], Other(Choose(p.disk));
      if i < |StoreDisks(p, partials)| - 1 then
        Writing(p.disk, e) && (At(e, w).file.Complete? ==> At(e, w).file == Complete(Saved(p)))
      else e == AfterStore(p).disk
  {
    hide DiskInv, Durable, Choose, Changed, Overlay;
  }

  lemma StoreCompletes(p: Program)
    requires ProgramInv(p) && p.open && Changed(p)
    ensures ProgramInv(AfterStore(p)) && Durable(AfterStore(p).disk) == Some(Saved(p))
  {
    hide Changed;
  }

  /** A Store that does not return leaves the old contents or the new ones. */
  lemma StoreInterrupted(p: Program, partials: seq<Contents>, cut: nat)
    requires ProgramInv(p)
    ensures var e, all := CutOff(p, Store(partials), cut), |StoreDisks(p, partials)|;
      && DiskInv(e)
      && Durable(e) == if all > 0 && cut >= all then Some(Saved(p)) else Durable(p.disk)
  {
    var ds := StoreDisks(p, partials);
    if ds != [] && cut > 0 {
      var i := if cut <= |ds| then cut - 1 else |ds| - 1;
      StoreWrites(p, partials, i);
      StoreCompletes(p);
      if i < |ds| - 1 {
        hide StoreDisks, AfterStore, Changed, Overlay;
        WritingKeepsOld(p.disk, ds[i], Saved(p));
      }
    }
  }

  lemma LoadKeeps(p: Program, junk: Meta)
    requires ProgramInv(p)
    ensures ProgramInv(AfterLoad(p, junk)) && Durable(AfterLoad(p, junk).disk) == Durable(p.disk)
  {
    TouchIsHarmless(p.disk, Touched(p.disk));
    hide DiskInv, Choose;
  }

  lemma OpKeeps(p: Program, op: Op)
    requires ProgramInv(p)
    ensures ProgramInv(After(p, op))
  {
    hide DiskInv, Choose, Durable, Changed;
    match op
    case Load(junk) => LoadKeeps(p, junk);
    case Set(_, _) =>
    case SetVersion(_) =>
    case Store(_) =>
      if p.open && Changed(p) {
        StoreCompletes(p);
      }
  }

  lemma CutOffKeeps(p: Program, op: Op, cut: nat)
    requires ProgramInv(p)
    ensures DiskInv(CutOff(p, op, cut))
  {
    match op
    case Load(_) => TouchIsHarmless(p.disk, if cut == 1 then LoadDisks(p.disk)[0] else LoadDisks(p.disk)[1]);
    case Set(_, _) =>
    case SetVersion(_) =>
    case Store(partials) => StoreInterrupted(p, partials, cut);
  }

  /** However often the program was stopped, the files are in order. */
  lemma {:induction false} HistoryKeeps(h: History)
    ensures ProgramInv(Now(h))
  {
    hide DiskInv, After, CutOff;
    match h
    case First(_) => FreshIsFine();
    case Did(b, op) =>
      HistoryKeeps(b);
      OpKeeps(Now(b), op);
    case Stopped(b, op, cut, _) =>
      HistoryKeeps(b);
      CutOffKeeps(Now(b), op, cut);
  }

  lemma FreshIsFine()
    ensures DiskInv(FRESH_DISK) && Durable(FRESH_DISK) == None
  {}

  /** These contents are the program's settings, with the next sequence count, followed by what
      else its handle held. */
  predicate Holds(c: Contents, p: Program) {
    && |c.data| >= |p.entries| && (forall i :: 0 <= i < |p.entries| ==> c.data[i] == p.entries[i].value)
    && (forall i :: |p.entries| <= i < |c.data| ==> Found(p.mem, i) && c.data[i] == p.mem.value.data[i])
    && (p.mem.Some? ==> |c.data| >= |p.mem.value.data|)
    && c.meta == Meta(p.meta.version, DurableCount(p.disk) + 1, p.meta.size)
  }

  lemma SavedHolds(p: Program)
    requires ProgramInv(p) && p.open
    ensures Holds(Saved(p), p)
  {
    hide DiskInv, Durable, Choose;
  }

  /** Crash atomicity: a stop in the middle of any operation, at any point of any history,
      leaves what was durable before, or the complete contents of the Store it interrupted,
      and the latter only once the last of its changes was made. */
  lemma CrashAtomicity(h: History, op: Op, cut: nat)
    ensures var p := Now(h); var d := Durable(CutOff(p, op, cut));
      if op.Store? && Disks(p, op) != [] && cut >= |Disks(p, op)| then d.Some? && Holds(d.value, p)
      else d == Durable(p.disk)
  {
    var p := Now(h);
    HistoryKeeps(h);
    match op
    case Load(_) => TouchIsHarmless(p.disk, if cut == 1 then LoadDisks(p.disk)[0] else LoadDisks(p.disk)[1]);
    case Set(_, _) =>
    case SetVersion(_) =>
    case Store(partials) =>
      StoreInterrupted(p, partials, cut);
      if Disks(p, op) != [] && cut >= |Disks(p, op)| {
        SavedHolds(p);
      }
  }

  /** What a Load gives: the files exist afterwards and say what they said before.  What the
      handle holds, or the files if it was closed, is in the entries and in their copies, and
      every entry that is not there is left as it was, its copy included. */
  lemma LoadIsPointwise(h: History, junk: Meta)
    ensures var p := Now(h); var q, d := After(p, Load(junk)), if p.open then p.mem else Durable(p.disk);
      && q.open && q.mem == d && Durable(q.disk) == Durable(p.disk)
      && !q.disk.main.file.Absent? && !q.disk.backup.file.Absent?
      && |q.entries| == |p.entries|
      && (forall i :: 0 <= i < |p.entries| ==>
            q.entries[i] == if d.Some? && i < |d.value.data|
              then Entry(d.value.data[i], d.value.data[i], p.entries[i].doubles) else p.entries[i])
      && q.meta == (if d.Some? then d.value.meta else Meta(0, 0, 0))
      && |q.copies| == |p.copies| + 1
      && (forall k :: 0 <= k < |q.copies| ==>
            q.copies[k] == if d.Some? then d.value.meta else if k < |p.copies| then p.copies[k] else junk)
  {
    var p := Now(h);
    HistoryKeeps(h);
    LoadKeeps(p, junk);
    TouchIsHarmless(p.disk, Touched(p.disk));
    hide Now, DiskInv, Choose, Verified;
    LoadsMeta(p, junk);
    LoadsEntries(if p.open then p.mem else Durable(p.disk), p.entries);
    hide Durable, Merged;
  }

  lemma LoadsMeta(p: Program, junk: Meta)
    requires Durable(AfterLoad(p, junk).disk) == Durable(p.disk)
    ensures var q, d := AfterLoad(p, junk), if p.open then p.mem else Durable(p.disk);
      && q.open && q.mem == d && q.entries == Merged(d, p.entries) && q.meta == MetaOf(d)
      && !q.disk.main.file.Absent? && !q.disk.backup.file.Absent?
      && |q.copies| == |p.copies| + 1
      && (forall k :: 0 <= k < |q.copies| ==>
            q.copies[k] == if d.Some? then d.value.meta else if k < |p.copies| then p.copies[k] else junk)
  {
    hide Choose, Merged;
  }

  lemma LoadsEntries(d: Option<Contents>, es: seq<Entry>)
    ensures |Merged(d, es)| == |es|
    ensures forall i :: 0 <= i < |es| ==>
      Merged(d, es)[i]
        == if d.Some? && i < |d.value.data| then Entry(d.value.data[i], d.value.data[i], es[i].doubles) else es[i]
  {}

  /** When a Store writes anything: some entry or some copy of the metadata is not what its copy
      says, or there is an array of doubles. */
  lemma StoreWritesIff(h: History, partials: seq<Contents>)
    requires Now(h).open
    ensures var p := Now(h);
      Disks(p, Store(partials)) != [] <==>
        || (exists i :: 0 <= i < |p.entries| && (p.entries[i].doubles || p.entries[i].value != p.entries[i].copy))
        || (exists k :: 0 <= k < |p.copies| && p.copies[k] != p.meta)
  {
    var p := Now(h);
    if exists i :: 0 <= i < |p.entries| && (p.entries[i].doubles || p.entries[i].value != p.entries[i].copy) {
      var i :| 0 <= i < |p.entries| && (p.entries[i].doubles || p.entries[i].value != p.entries[i].copy);
      assert Differs(p.entries[i]);
    }
    if exists k :: 0 <= k < |p.copies| && p.copies[k] != p.meta {
      var k :| 0 <= k < |p.copies| && p.copies[k] != p.meta;
      assert p.copies[k] in p.copies;
    }
  }

  /** On the first start, Load and Store write exactly if some default differs from what the
      memory of its copy holds, the new copy of the metadata is not zero, or there is an array of
      doubles. */
  lemma FirstStoreWritesIff(entries: seq<Entry>, junk: Meta, partials: seq<Contents>)
    ensures Disks(Now(Did(First(entries), Load(junk))), Store(partials)) != [] <==>
      || (exists i :: 0 <= i < |entries| && (entries[i].doubles || entries[i].value != entries[i].copy))
      || junk != Meta(0, 0, 0)
  {
    var h := Did(First(entries), Load(junk));
    NothingDurableAtFirst(entries);
    LoadIsPointwise(First(entries), junk);
    assert Now(First(entries)).entries == entries;
    assert Now(h).entries == entries && Now(h).copies == [junk] && Now(h).meta == Meta(0, 0, 0);
    StoreWritesIff(h, partials);
    hide Now, Disks;
    assert Now(h).copies[0] == junk;
  }

  /** A Store that writes leaves every copy of an entry up to date, and of the metadata the first
      one: the next Store writes again if another Load has attached a second. */
  lemma StoreLeaves(h: History, partials: seq<Contents>)
    requires Now(h).open && Disks(Now(h), Store(partials)) != []
    ensures var p := Now(h); var q := After(p, Store(partials));
      && |q.entries| == |p.entries| && |q.copies| == |p.copies| > 0
      && (forall i :: 0 <= i < |p.entries| ==>
            q.entries[i] == Entry(p.entries[i].value, p.entries[i].value, p.entries[i].doubles))
      && q.meta == Meta(p.meta.version, p.meta.seqCount + 1, p.meta.size)
      && (forall k :: 0 <= k < |q.copies| ==> q.copies[k] == if k == 0 then q.meta else p.meta)
  {
    HistoryKeeps(h);
    hide DiskInv, Durable, Choose, Changed;
  }

  /** After every Store the handle holds each entry's value and the metadata, and what it held
      beyond the entries. */
  lemma StoreFillsHandle(h: History, partials: seq<Contents>)
    requires Now(h).open
    ensures var p := Now(h); var q := After(p, Store(partials));
      && q.open && q.mem.Some? && q.mem.value.meta == q.meta && |q.mem.value.data| >= |q.entries| == |p.entries|
      && (forall i :: 0 <= i < |q.entries| ==> q.mem.value.data[i] == q.entries[i].value == p.entries[i].value)
      && (forall i :: i >= |q.entries| ==> Found(q.mem, i) == Found(p.mem, i))
      && (forall i :: i >= |q.entries| && Found(p.mem, i) ==> q.mem.value.data[i] == p.mem.value.data[i])
  {
    hide Changed, Now;
  }

  /** The order in which a Store writes: never the selected file or its checksum; first the other
      file, emptied, filled and complete, then its checksum, broken and right. */
  lemma StoreOrder(h: History, partials: seq<Contents>, i: nat)
    requires i < |Disks(Now(h), Store(partials))|
    ensures var p, n := Now(h), |partials|; var e := Disks(p, Store(partials))[i];
      var w := Other(Choose(p.disk));
      && |Disks(p, Store(partials))| == n + 4 && At(e, Choose(p.disk)) == At(p.disk, Choose(p.disk))
      && (i == 0 ==> At(e, w).file == Empty)
      && (1 <= i <= n ==> At(e, w).file == Torn(partials[i - 1]))
      && (i > n ==> At(e, w).file.Complete? && Holds(At(e, w).file.contents, p))
      && At(e, w).sha == if i <= n + 1 then At(p.disk, w).sha else if i == n + 2 then Broken else Of(At(e, w).file)
  {
    var p := Now(h);
    HistoryKeeps(h);
    SavedHolds(p);
    hide Now, DiskInv, Durable, Choose, Changed, Overlay, Holds;
  }

  // an operation that is not stopped ends with its last change
  lemma EndsAsCut(p: Program, op: Op)
    requires ProgramInv(p)
    ensures After(p, op).disk == CutOff(p, op, |Disks(p, op)|)
  {
    if op.Store? && Disks(p, op) != [] {
      StoreWrites(p, op.partials, |Disks(p, op)| - 1);
    }
  }

  lemma StoreTurns(p: Program, partials: seq<Contents>, cut: nat)
    requires ProgramInv(p)
    ensures var e := CutOff(p, Store(partials), cut);
      if cut >= |StoreDisks(p, partials)| > 0
        then Choose(e) == Other(Choose(p.disk)) && DurableCount(e) == DurableCount(p.disk) + 1
        else Choose(e) == Choose(p.disk) && DurableCount(e) == DurableCount(p.disk)
  {
    var ds := StoreDisks(p, partials);
    if ds != [] && cut > 0 {
      var i := if cut <= |ds| then cut - 1 else |ds| - 1;
      StoreWrites(p, partials, i);
      StoreCompletes(p);
      hide DiskInv, Choose, Durable, Changed, Overlay;
      if i < |ds| - 1 {
        hide StoreDisks, AfterStore;
        WritingKeepsOld(p.disk, ds[i], Saved(p));
      }
    }
  }

  lemma TurnsKept(p: Program, op: Op, cut: nat)
    requires ProgramInv(p) && DurableCount(p.disk) >= 0
    requires Choose(p.disk).Main? <==> DurableCount(p.disk) % 2 == 1
    ensures var n := DurableCount(CutOff(p, op, cut));
      n >= 0 && (Choose(CutOff(p, op, cut)).Main? <==> n % 2 == 1)
  {
    match op
    case Load(_) =>
      if cut > 0 {
        TouchIsHarmless(p.disk, CutOff(p, op, cut));
      }
    case Set(_, _) =>
    case SetVersion(_) =>
    case Store(partials) => StoreTurns(p, partials, cut);
  }

  /** The two files take turns: in every history, the backup is selected until something was
      stored, and then main for odd sequence counts and the backup for even ones. */
  lemma {:induction false} FilesTakeTurns(h: History)
    ensures var n := DurableCount(Now(h).disk); n >= 0 && (Choose(Now(h).disk).Main? <==> n % 2 == 1)
  {
    match h
    case First(_) =>
    case Did(b, op) =>
      FilesTakeTurns(b);
      HistoryKeeps(b);
      EndsAsCut(Now(b), op);
      TurnsKept(Now(b), op, |Disks(Now(b), op)|);
    case Stopped(b, op, cut, _) =>
      FilesTakeTurns(b);
      HistoryKeeps(b);
      TurnsKept(Now(b), op, cut);
  }

  /** Loading changes nothing that is durable, and gives the program just that. */
  lemma LoadGivesDurable(h: History, junk: Meta)
    requires !Now(h).open
    ensures var p := Now(h); var q := After(p, Load(junk));
      && Durable(q.disk) == Durable(p.disk)
      && q.entries == Merged(Durable(p.disk), p.entries) && q.meta == MetaOf(Durable(p.disk))
  {
    HistoryKeeps(h);
    LoadKeeps(Now(h), junk);
    TouchIsHarmless(Now(h).disk, Touched(Now(h).disk));
  }

  /** Nothing is durable before the first change was stored. */
  lemma NothingDurableAtFirst(entries: seq<Entry>)
    ensures Durable(Now(First(entries)).disk) == None
  {}

  // Whether a finished Store lasts

  /** Every later start finds the program's values, version and size, whatever it attaches and
      whatever its memory holds. */
  ghost predicate Lasts(d: Disk, p: Program) {
    && (forall es: seq<Entry> :: |es| == |p.entries| ==> Values(Merged(Durable(d), es)) == Values(p.entries))
    && MetaOf(Durable(d)).version == p.meta.version && MetaOf(Durable(d)).size == p.meta.size
  }

  /** The files already say what the program would store. */
  ghost predicate OnDisk(p: Program) {
    && (forall i :: 0 <= i < |p.entries| ==>
          Found(Durable(p.disk), i) && Durable(p.disk).value.data[i] == p.entries[i].value)
    && MetaOf(Durable(p.disk)).version == p.meta.version && MetaOf(Durable(p.disk)).size == p.meta.size
  }

  lemma LoadedValue(c: Option<Contents>, es: seq<Entry>, i: nat)
    requires i < |es|
    ensures |Values(Merged(c, es))| == |es|
    ensures Values(Merged(c, es))[i] == if Found(c, i) then c.value.data[i] else es[i].value
    ensures Values(es)[i] == es[i].value
  {}

  // defaults that differ from every value
  function Others(entries: seq<Entry>): (es: seq<Entry>)
    ensures |es| == |entries| && forall i :: 0 <= i < |es| ==> es[i].value != entries[i].value
  {
    seq(|entries|, i requires 0 <= i < |entries| => Entry(entries[i].value + 1, 0, false))
  }

  lemma LastsIffOnDisk(p: Program)
    ensures Lasts(p.disk, p) <==> OnDisk(p)
  {
    hide Durable, Merged;
    var c := Durable(p.disk);
    if OnDisk(p) {
      forall es: seq<Entry> | |es| == |p.entries|
        ensures Values(Merged(c, es)) == Values(p.entries)
      {
        AllLoaded(c, es, p.entries);
      }
    }
    if Lasts(p.disk, p) {
      var es := Others(p.entries);
      assert Values(Merged(c, es)) == Values(p.entries);
      forall i | 0 <= i < |p.entries|
        ensures Found(c, i) && c.value.data[i] == p.entries[i].value
      {
        LoadedValue(c, es, i);
        LoadedValue(c, p.entries, i);
      }
    }
  }

  lemma AllLoaded(c: Option<Contents>, es: seq<Entry>, entries: seq<Entry>)
    requires |es| == |entries|
    requires forall i :: 0 <= i < |entries| ==> Found(c, i) && c.value.data[i] == entries[i].value
    ensures Values(Merged(c, es)) == Values(entries)
  {}

  lemma SavedIsOnDisk(p: Program)
    requires p.open && Changed(p) && Durable(AfterStore(p).disk) == Some(Saved(p))
    ensures OnDisk(AfterStore(p))
  {
    hide Durable, Changed;
  }

  /** A finished Store lasts if and only if it saw a change or everything was on disk already. */
  lemma StoreLastsIff(h: History, partials: seq<Contents>)
    requires Now(h).open
    ensures var p := Now(h); var q := After(p, Store(partials));
      Lasts(q.disk, q) <==> Changed(p) || OnDisk(p)
  {
    var p := Now(h);
    HistoryKeeps(h);
    hide Durable, Merged, ProgramInv;
    LastsIffOnDisk(AfterStore(p));
    if Changed(p) {
      StoreCompletes(p);
      SavedIsOnDisk(p);
    } else {
      hide Changed;
      assert AfterStore(p).disk == p.disk && AfterStore(p).entries == p.entries && AfterStore(p).meta == p.meta;
    }
  }

  /** A Store that is lost: the memory of the copies happens to hold the default values, so
      Store sees no change and writes nothing, and a later start with another default differs. */
  lemma StoreCanBeLost()
    ensures var h := Did(First([Entry(0, 0, false)]), Load(NO_META));
      && Now(h).open && Disks(Now(h), Store([])) == []
      && Durable(After(Now(h), Store([])).disk) == None
         && !Lasts(After(Now(h), Store([])).disk, After(Now(h), Store([])))
  {
    var h := Did(First([Entry(0, 0, false)]), Load(NO_META));
    var p := Now(h);
    LoadGivesDurable(First([Entry(0, 0, false)]), NO_META);
    assert p.entries == [Entry(0, 0, false)] && p.copies == [NO_META] && p.meta == NO_META;
    assert !Differs(Entry(0, 0, false)) && !Changed(p);
    assert !Found(Durable(p.disk), 0);
    LastsIffOnDisk(AfterStore(p));
  }

  /** Every local copy holds what is on disk, and so does the handle. */
  ghost predicate Backed(p: Program) {
    && p.open && Durable(p.disk).Some? && p.mem.Some? && p.mem.value.meta == Durable(p.disk).value.meta
    && (forall i :: 0 <= i < |p.entries| ==>
          && Found(Durable(p.disk), i) && Durable(p.disk).value.data[i] == p.entries[i].copy
          && Found(p.mem, i) && p.mem.value.data[i] == p.entries[i].copy)
    && (forall c :: c in p.copies ==>
          c.version == Durable(p.disk).value.meta.version && c.size == Durable(p.disk).value.meta.size)
  }

  /** From then on every finished Store lasts. */
  lemma BackedStoreLasts(h: History, partials: seq<Contents>)
    requires Backed(Now(h))
    ensures var q := After(Now(h), Store(partials)); Lasts(q.disk, q)
  {
    var p := Now(h);
    HistoryKeeps(h);
    StoreLastsIff(h, partials);
    if !Changed(p) {
      forall i | 0 <= i < |p.entries|
        ensures p.entries[i].value == p.entries[i].copy
      {
        assert !Differs(p.entries[i]);
      }
      assert p.copies[0] in p.copies && p.copies[0] == p.meta;
    }
  }

  /** The copies come to hold what is on disk with a Load that finds every entry. */
  lemma LoadBacks(h: History, junk: Meta)
    requires !Now(h).open && Durable(Now(h).disk).Some? && |Durable(Now(h).disk).value.data| >= |Now(h).entries|
    ensures Backed(After(Now(h), Load(junk)))
  {
    HistoryKeeps(h);
    LoadGivesDurable(h, junk);
    TouchIsHarmless(Now(h).disk, Touched(Now(h).disk));
    hide DiskInv, Choose;
  }

  /** Or with the first Store that writes. */
  lemma ChangedStoreBacks(h: History, partials: seq<Contents>)
    requires Now(h).open && Changed(Now(h))
    ensures Backed(After(Now(h), Store(partials)))
  {
    HistoryKeeps(h);
    StoreCompletes(Now(h));
    hide DiskInv, Choose, Changed;
  }

  /** And they stay so until the program ends. */
  lemma BackedStays(h: History, op: Op)
    requires Backed(Now(h))
    ensures Backed(After(Now(h), op))
  {
    var p := Now(h);
    HistoryKeeps(h);
    match op
    case Load(junk) =>
      LoadKeeps(p, junk);
    case Set(_, _) =>
    case SetVersion(_) =>
    case Store(partials) =>
      if Changed(p) {
        ChangedStoreBacks(h, partials);
      } else {
        UnchangedBacked(p);
      }
  }

  lemma UnchangedBacked(p: Program)
    requires Backed(p) && ProgramInv(p) && !Changed(p)
    ensures Backed(AfterStore(p))
  {
    forall i | 0 <= i < |p.entries|
      ensures p.entries[i].value == p.entries[i].copy
    {
      assert !Differs(p.entries[i]);
    }
    assert p.copies[0] in p.copies && p.copies[0] == p.meta;
    assert p.meta == Durable(p.disk).value.meta;
  }
}
