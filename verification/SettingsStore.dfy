/**
 The two-file settings store.  Files are abstract: a file is missing, empty, partly
 written or complete, and a checksum file matches only the content it was computed from.
 Every change of a file is one element of a trace, so that a crash can fall between any
 two of them.
 */
module SettingsStore {
  import opened Options

  datatype Meta = Meta(version: int, seqCount: int, size: int)

  const NO_META := Meta(0, 0, 0)

  // the metadata and the values of the entries, in the order of the chain
  datatype Contents = Contents(meta: Meta, data: seq<int>)

  // Torn: what a reader would make of a file that is only partly written
  datatype File = Absent | Empty | Torn(seen: Contents) | Complete(contents: Contents)

  datatype Sha = NoSha | Broken | Of(file: File)

  datatype Slot = Slot(file: File, sha: Sha)

  datatype Disk = Disk(main: Slot, backup: Slot)

  datatype Which = Main | Backup

  const FRESH_DISK := Disk(Slot(Absent, NoSha), Slot(Absent, NoSha))

  function At(d: Disk, w: Which): Slot {
    if w.Main? then d.main else d.backup
  }

  function With(d: Disk, w: Which, s: Slot): Disk {
    if w.Main? then d.(main := s) else d.(backup := s)
  }

  function Other(w: Which): Which {
    if w.Main? then Backup else Main
  }

  function Touch(s: Slot): Slot {
    if s.file.Absent? then s.(file := Empty) else s
  }

  predicate Verified(s: Slot) {
    s.sha == Of(s.file) && !s.file.Absent?
  }

  function Read(f: File): Option<Contents> {
    match f
    case Absent => None
    case Empty => None
    case Torn(c) => Some(c)
    case Complete(c) => Some(c)
  }

  function SeqCountOf(f: File): int {
    if Read(f).Some? then Read(f).value.meta.seqCount else -1
  }

  /** FileConsistencyCheck: which of the two files is selected. */
  function Choose(d: Disk): Which {
    if !Verified(d.main) && !Verified(d.backup) then Backup
    else if Verified(d.main) && !Verified(d.backup) then Main
    else if !Verified(d.main) && Verified(d.backup) then Backup
    else if SeqCountOf(d.main.file) >= SeqCountOf(d.backup.file) then Main
    else Backup
  }

  /** What the next start of the program will load; None leaves it with its defaults. */
  function Durable(d: Disk): Option<Contents> {
    Read(At(d, Choose(d)).file)
  }

  // an attached setting and the local copy that tells whether it has changed; the memory of a
  // copy is not initialised, so before it is written it holds anything.  An array of doubles
  // counts as changed every time.
  datatype Entry = Entry(value: int, copy: int, doubles: bool)

  // the program: `mem` is what its settings handle holds, `copies` are the local copies of the
  // metadata, of which every Load attaches another one
  datatype Program = Program(
    disk: Disk, open: bool, selected: Which, meta: Meta, copies: seq<Meta>, mem: Option<Contents>, entries: seq<Entry>)

  function Start(d: Disk, entries: seq<Entry>): Program {
    Program(d, false, Main, NO_META, [], None, entries)
  }

  function Touched(d: Disk): Disk {
    Disk(Touch(d.main), Touch(d.backup))
  }

  function LoadDisks(d: Disk): seq<Disk> {
    [d.(main := Touch(d.main)), Touched(d)]
  }

  predicate Found(mem: Option<Contents>, i: int) {
    mem.Some? && 0 <= i < |mem.value.data|
  }

  function Merged(mem: Option<Contents>, entries: seq<Entry>): seq<Entry> {
    seq(|entries|, i requires 0 <= i < |entries| =>
      if Found(mem, i) then entries[i].(value := mem.value.data[i], copy := mem.value.data[i]) else entries[i])
  }

  function MetaOf(mem: Option<Contents>): Meta {
    if mem.Some? then mem.value.meta else NO_META
  }

  /** `junk` is what the memory of the new copy of the metadata holds. */
  function AfterLoad(p: Program, junk: Meta): Program {
    var d := Touched(p.disk);
    var w := Choose(d);
    var mem := if p.open then p.mem else Read(At(d, w).file);
    p.(disk := d, open := true, selected := w, mem := mem, meta := MetaOf(mem),
       copies := if mem.Some? then Copied(mem.value.meta, |p.copies| + 1) else p.copies + [junk],
       entries := Merged(mem, p.entries))
  }

  function Copied(meta: Meta, n: nat): seq<Meta> {
    seq(n, _ => meta)
  }

  predicate Differs(e: Entry) {
    e.doubles || e.value != e.copy
  }

  /** Some local copy differs from what it is a copy of. */
  predicate Changed(p: Program) {
    (exists e :: e in p.entries && Differs(e)) || (exists c :: c in p.copies && c != p.meta)
  }

  function Values(entries: seq<Entry>): seq<int> {
    seq(|entries|, i requires 0 <= i < |entries| => entries[i].value)
  }

  function UpToDate(entries: seq<Entry>): seq<Entry> {
    seq(|entries|, i requires 0 <= i < |entries| => entries[i].(copy := entries[i].value))
  }

  /** Everything that saving goes through: the file is emptied, written bit by bit and closed. */
  function SaveDisks(d: Disk, w: Which, partials: seq<Contents>, c: Contents): seq<Disk> {
    [With(d, w, At(d, w).(file := Empty))]
    + seq(|partials|, i requires 0 <= i < |partials| => With(d, w, At(d, w).(file := Torn(partials[i]))))
    + [With(d, w, At(d, w).(file := Complete(c)))]
  }

  function CheckSumDisks(d: Disk, w: Which): seq<Disk> {
    [With(d, w, At(d, w).(sha := Broken)), With(d, w, At(d, w).(sha := Of(At(d, w).file)))]
  }

  /** What the handle holds after every entry was set; entries it held before stay in it. */
  function Overlay(mem: Option<Contents>, values: seq<int>): seq<int> {
    values + if mem.Some? && |mem.value.data| > |values| then mem.value.data[|values|..] else []
  }

  function NextMeta(m: Meta): Meta {
    m.(seqCount := m.seqCount + 1)
  }

  function Saved(p: Program): Contents {
    Contents(NextMeta(p.meta), Overlay(p.mem, Values(p.entries)))
  }

  function StoreDisks(p: Program, partials: seq<Contents>): seq<Disk> {
    if !p.open || !Changed(p) then [] else
    var w := Other(p.selected);
    SaveDisks(p.disk, w, partials, Saved(p))
        + CheckSumDisks(With(p.disk, w, At(p.disk, w).(file := Complete(Saved(p)))), w)
  }

  // UpdateSequenceCount brings only the first copy of the metadata up to date
  function Counted(meta: Meta, n: nat): seq<Meta> {
    if n == 0 then [] else [NextMeta(meta)] + Copied(meta, n - 1)
  }

  function AfterStore(p: Program): Program {
    if !p.open then p
    else if !Changed(p) then p.(mem := Some(Contents(p.meta, Overlay(p.mem, Values(p.entries)))))
    else
      var w, f := Other(p.selected), Complete(Saved(p));
      p.(disk := With(p.disk, w, Slot(f, Of(f))), selected := w, meta := NextMeta(p.meta),
         copies := Counted(p.meta, |p.copies|), mem := Some(Saved(p)), entries := UpToDate(p.entries))
  }

  // The program with its fields

  class Settings {
    var disk: Disk
    var open: bool
    var selected: Which
    var meta: Meta
    var copies: seq<Meta>
    var mem: Option<Contents>
    var entries: seq<Entry>
    ghost var trace: seq<Disk>

    ghost function View(): Program
      reads this
    {
      Program(disk, open, selected, meta, copies, mem, entries)
    }

    constructor (d: Disk, attached: seq<Entry>)
      ensures View() == Start(d, attached) && trace == []
    {
      disk := d;
      open, selected, meta, copies, mem := false, Main, NO_META, [], None;
      entries, trace := attached, [];
    }

    method Change(d: Disk)
      modifies `disk, `trace
      ensures disk == d && trace == old(trace) + [d]
    {
      disk := d;
      trace := trace + [d];
    }

    method FileConsistencyCheck()
      modifies `disk, `trace, `selected
      ensures disk == Touched(old(disk)) && trace == old(trace) + LoadDisks(old(disk)) && selected == Choose(disk)
    {
      Change(disk.(main := Touch(disk.main)));
      Change(disk.(backup := Touch(disk.backup)));
      var csMain, csBackup := Verified(disk.main), Verified(disk.backup);
      if !csMain && !csBackup {
        selected := Backup;
      } else if csMain && !csBackup {
        selected := Main;
      } else if !csMain && csBackup {
        selected := Backup;
      } else if SeqCountOf(disk.main.file) >= SeqCountOf(disk.backup.file) {
        selected := Main;
      } else {
        selected := Backup;
      }
    }

    /** The loop of Load over the entries: what the handle does not hold stays as it is. */
    method ReadEntries()
      modifies `entries
      ensures entries == Merged(mem, old(entries))
      ensures |entries| == |old(entries)| && forall k :: 0 <= k < |entries| ==>
        entries[k] == if mem.Some? && k < |mem.value.data|
          then Entry(mem.value.data[k], mem.value.data[k], old(entries)[k].doubles) else old(entries)[k]
    {
      var i := 0;
      while i < |entries|
        invariant 0 <= i <= |entries| == |old(entries)|
        invariant forall k :: 0 <= k < |entries| ==>
          entries[k] == if k < i then Merged(mem, old(entries))[k] else old(entries)[k]
      {
        if Found(mem, i) {
          entries := entries[i := entries[i].(value := mem.value.data[i], copy := mem.value.data[i])];
        }
        i := i + 1;
      }
    }

    method Load(junk: Meta)
      modifies this
      ensures View() == AfterLoad(old(View()), junk) && trace == old(trace) + LoadDisks(old(disk))
    {
      FileConsistencyCheck();
      copies := copies + [junk];
      if !open {
        mem := Read(At(disk, selected).file);
        open := true;
      }
      ReadEntries();
      if mem.Some? {
        meta, copies := mem.value.meta, Copied(mem.value.meta, |copies|);
      } else {
        meta := NO_META;
      }
    }

    /** The loop of Store over the entries: copies what has changed and says whether any has. */
    method CopyChanged() returns (changed: bool)
      modifies `entries, `copies
      ensures changed == Changed(old(View()))
      ensures entries == UpToDate(old(entries)) && copies == Copied(meta, |old(copies)|)
    {
      var entriesChanged := CopyEntries();
      var metaChanged := CopyMeta();
      changed := entriesChanged || metaChanged;
    }

    method CopyEntries() returns (changed: bool)
      modifies `entries
      ensures changed == exists e :: e in old(entries) && Differs(e)
      ensures entries == UpToDate(old(entries))
    {
      changed := false;
      var i := 0;
      while i < |entries|
        invariant 0 <= i <= |entries| == |old(entries)|
        invariant forall k :: 0 <= k < |entries| ==>
          entries[k] == if k < i then UpToDate(old(entries))[k] else old(entries)[k]
        invariant changed == exists k :: 0 <= k < i && Differs(old(entries)[k])
      {
        if entries[i].value != entries[i].copy {
          changed := true;
          entries := entries[i := entries[i].(copy := entries[i].value)];
        }
        if entries[i].doubles {
          changed := true;
        }
        i := i + 1;
      }
    }

    method CopyMeta() returns (changed: bool)
      modifies `copies
      ensures changed == exists c :: c in old(copies) && c != meta
      ensures copies == Copied(meta, |old(copies)|)
    {
      changed := false;
      var i := 0;
      while i < |copies|
        invariant 0 <= i <= |copies| == |old(copies)|
        invariant forall k :: 0 <= k < |copies| ==> copies[k] == if k < i then meta else old(copies)[k]
        invariant changed == exists k :: 0 <= k < i && old(copies)[k] != meta
      {
        if copies[i] != meta {
          changed := true;
          copies := copies[i := meta];
        }
        i := i + 1;
      }
      assert forall k :: 0 <= k < |old(copies)| ==> old(copies)[k] in old(copies);
    }

    method UpdateSequenceCount()
      requires copies == Copied(meta, |copies|)
      modifies `meta, `copies
      ensures meta == NextMeta(old(meta)) && copies == Counted(old(meta), |old(copies)|)
    {
      meta := meta.(seqCount := meta.seqCount + 1);
      if |copies| > 0 {
        copies := copies[0 := meta];
      }
    }

    method Save(w: Which, partials: seq<Contents>, c: Contents)
      modifies `disk, `trace
      ensures disk == With(old(disk), w, At(old(disk), w).(file := Complete(c)))
      ensures trace == old(trace) + SaveDisks(old(disk), w, partials, c)
    {
      var sha := At(disk, w).sha;
      ghost var all := SaveDisks(disk, w, partials, c);
      Change(With(disk, w, Slot(Empty, sha)));
      assert all[..1] == [all[0]];
      var i := 0;
      while i < |partials|
        invariant 0 <= i <= |partials|
        invariant With(disk, w, Slot(Empty, sha)) == With(old(disk), w, Slot(Empty, sha))
        invariant trace == old(trace) + all[..i + 1]
      {
        Change(With(disk, w, Slot(Torn(partials[i]), sha)));
        assert all[..i + 2] == all[..i + 1] + [all[i + 1]];
        i := i + 1;
      }
      Change(With(disk, w, Slot(Complete(c), sha)));
      assert all == all[..|partials| + 1] + [all[|partials| + 1]];
    }

    method CalculateCheckSum(w: Which)
      modifies `disk, `trace
      ensures trace == old(trace) + CheckSumDisks(old(disk), w)
      ensures disk == With(old(disk), w, At(old(disk), w).(sha := Of(At(old(disk), w).file)))
    {
      Change(With(disk, w, At(disk, w).(sha := Broken)));
      Change(With(disk, w, At(disk, w).(sha := Of(At(disk, w).file))));
    }

    method Store(partials: seq<Contents>) returns (rc: int)
      modifies this
      ensures View() == AfterStore(old(View())) && trace == old(trace) + StoreDisks(old(View()), partials)
      ensures rc == if old(open) then 0 else -1
    {
      if !open {
        return -1;
      }
      ghost var before := View();
      var changed := CopyChanged();
      var data := Overlay(mem, Values(entries));
      assert Values(entries) == Values(before.entries);
      mem := Some(Contents(meta, data));
      if changed {
        var target := Other(selected);
        UpdateSequenceCount();
        mem := Some(Contents(meta, data));
        Save(target, partials, Contents(meta, data));
        selected := target;
        CalculateCheckSum(selected);
        ghost var saved := With(before.disk, target, At(before.disk, target).(file := Complete(Saved(before))));
        assert trace == old(trace)
          + (SaveDisks(before.disk, target, partials, Saved(before)) + CheckSumDisks(saved, target));
      } else {
        NothingDiffers(before);
      }
      return 0;
    }
  }

  // where nothing has changed, the loop leaves everything as it is
  lemma NothingDiffers(p: Program)
    requires !Changed(p)
    ensures UpToDate(p.entries) == p.entries && Copied(p.meta, |p.copies|) == p.copies
  {
    forall i | 0 <= i < |p.entries|
      ensures UpToDate(p.entries)[i] == p.entries[i]
    {
      assert !Differs(p.entries[i]);
    }
    assert forall i :: 0 <= i < |p.copies| ==> p.copies[i] in p.copies;
  }
}
