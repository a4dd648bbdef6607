/**
 The doubly linked chain with a sentinel, on the heap.  The ghost field `nodes` lists the
 holders in order; every operation is proved against the sequence of the elements.
 */
module GenericChain {
  import opened Options
  import opened FirstMatch

  // what a chain holds: an element as its helper identifies it
  datatype Element = Element(ident: int, value: int)

  class Holder {
    var data: Element
    var prev: Holder?
    var next: Holder?

    constructor (e: Element)
      ensures data == e && prev == null && next == null
    {
      data, prev, next := e, null, null;
    }
  }

  // The chain as a sequence

  function Idents(s: seq<Element>): seq<int> {
    seq(|s|, i requires 0 <= i < |s| => s[i].ident)
  }

  // Links

  datatype Link = Link(prev: Holder?, next: Holder?, data: Element)

  /** The links of both directions agree with the list, which names no holder twice. */
  ghost predicate Chained(ring: seq<Holder>, links: seq<Link>) {
    && |links| == |ring| > 0
    && (forall i, j :: 0 <= i < j < |ring| ==> ring[i] != ring[j])
    && (forall i, j :: 0 <= i && j == i + 1 && j < |ring| ==> links[i].next == ring[j] && links[j].prev == ring[i])
    && links[|ring| - 1].next == null
  }

  /** The neighbours of position k are joined. */
  function Rewired(links: seq<Link>, k: nat): (r: seq<Link>)
    requires 0 < k < |links|
    ensures |r| == |links|
  {
    var l := links[k - 1 := links[k - 1].(next := links[k].next)];
    if k + 1 < |links| then l[k + 1 := l[k + 1].(prev := links[k].prev)] else l
  }

  lemma ChainedWithout(ring: seq<Holder>, links: seq<Link>, k: nat)
    requires Chained(ring, links) && 0 < k < |ring|
    ensures Chained(Drop(ring, k), Drop(Rewired(links, k), k))
  {
    var r, l := Drop(ring, k), Drop(Rewired(links, k), k);
    forall i, j | 0 <= i && j == i + 1 && j < |r|
      ensures l[i].next == r[j] && l[j].prev == r[i]
    {
      var a, b := if i < k then i else i + 1, if j < k then j else j + 1;
      assert links[a].next == ring[a + 1] && links[b].prev == ring[b - 1];
      assert a < k < b ==> links[k].next == ring[k + 1] && links[k].prev == ring[k - 1];
    }
    assert links[k - 1].next == ring[k];
    assert k + 1 < |ring| ==> links[k].next == ring[k + 1];
  }

  lemma ChainedAppend(ring: seq<Holder>, links: seq<Link>, h: Holder, e: Element)
    requires Chained(ring, links) && h !in ring
    ensures var n := |ring| - 1; Chained(ring + [h], links[n := links[n].(next := h)] + [Link(ring[n], null, e)])
  {
    var n := |ring| - 1;
    var r, l := ring + [h], links[n := links[n].(next := h)] + [Link(ring[n], null, e)];
    forall i, j | 0 <= i && j == i + 1 && j < |r|
      ensures l[i].next == r[j] && l[j].prev == r[i]
    {
      assert j < |ring| ==> links[i].next == ring[j] && links[j].prev == ring[i];
    }
  }

  /** The elements behind the sentinel. */
  function DataOf(links: seq<Link>): seq<Element> {
    if links == [] then [] else seq(|links| - 1, i requires 0 <= i < |links| - 1 => links[i + 1].data)
  }

  lemma DataIs(links: seq<Link>)
    requires links != []
    ensures |DataOf(links)| == |links| - 1
    ensures forall i :: 0 <= i < |links| - 1 ==> DataOf(links)[i] == links[i + 1].data
  {}

  lemma RewiredData(links: seq<Link>, k: nat)
    requires 0 < k < |links|
    ensures forall i :: 0 <= i < |links| ==> Rewired(links, k)[i].data == links[i].data
  {}

  lemma DataWithout(links: seq<Link>, k: nat)
    requires 0 < k < |links|
    ensures DataOf(Drop(Rewired(links, k), k)) == Drop(DataOf(links), k - 1)
  {
    hide Rewired, Drop, DataOf;
    var r := Rewired(links, k);
    RewiredData(links, k);
    DropIs(r, k);
    DataIs(links);
    DropIs(DataOf(links), k - 1);
    DataIs(Drop(r, k));
    var a, b := DataOf(Drop(r, k)), Drop(DataOf(links), k - 1);
    forall i | 0 <= i < |a|
      ensures a[i] == b[i]
    {
      assert Drop(r, k)[i + 1] == r[if i + 1 < k then i + 1 else i + 2];
    }
  }

  lemma DataAppend(links: seq<Link>, h: Holder, l: Link)
    requires links != []
    ensures var n := |links| - 1; DataOf(links[n := links[n].(next := h)] + [l]) == DataOf(links) + [l.data]
  {}

  class Chain {
    const base: Holder
    var size: int
    var peak: int
    var generator: int
    var helper: bool
    var autoRemove: bool
    ghost var ring: seq<Holder>  // the sentinel, then the holders in order

    ghost function Links(): (l: seq<Link>)
      reads this, ring
      ensures |l| == |ring|
    {
      seq(|ring|, i requires 0 <= i < |ring| reads this, ring => Link(ring[i].prev, ring[i].next, ring[i].data))
    }

    ghost predicate Valid()
      reads this, ring
    {
      && ring != [] && ring[0] == base && Chained(ring, Links())
      && size == |ring| - 1 && size <= peak
    }

    ghost function Contents(): seq<Element>
      reads this, ring
    {
      DataOf(Links())
    }

    constructor ()
      ensures Valid() && Contents() == [] && peak == generator == 0 && !helper && autoRemove && fresh(ring)
    {
      base := new Holder(Element(0, 0));
      size, peak, generator, helper, autoRemove, ring := 0, 0, 0, false, true, [base];
    }

    method Last() returns (holder: Holder)
      requires Valid()
      ensures holder == ring[|ring| - 1]
    {
      holder := base;
      ghost var k := 0;
      Next(0);
      while holder.next != null
        invariant 0 <= k < |ring| && holder == ring[k] && holder.next == NextOf(k)
        decreases |ring| - k
      {
        holder := holder.next;
        k := k + 1;
        Next(k);
      }
    }

    ghost function NextOf(k: nat): Holder?
      reads this
    {
      if k + 1 < |ring| then ring[k + 1] else null
    }

    // the links forward, as every walk uses them
    lemma Next(k: nat)
      requires Valid() && k < |ring|
      ensures ring[k].next == NextOf(k)
    {
      assert Links()[k].next == ring[k].next;
      if k + 1 < |ring| {
        assert Links()[k].next == ring[k + 1];
      }
    }

    lemma ContentsAt(k: nat)
      requires Valid() && 0 < k < |ring|
      ensures |Contents()| == size && Contents()[k - 1] == ring[k].data
    {}

    /** chain_add, under chain_put: walk to the end and append. */
    method Put(e: Element)
      requires Valid()
      modifies this, ring
      ensures Valid() && Contents() == old(Contents()) + [e]
      ensures peak == if |Contents()| > old(peak) then |Contents()| else old(peak)
      ensures generator == old(generator) && helper == old(helper) && autoRemove == old(autoRemove)
      ensures |ring| == |old(ring)| + 1 && ring[..|old(ring)|] == old(ring) && fresh(ring[|old(ring)|])
    {
      var last := Last();
      var added := new Holder(e);
      ghost var links := Links();
      last.next := added;
      added.prev := last;
      added.next := null;
      size := size + 1;
      if size > peak {
        peak := size;
      }
      ChainedAppend(ring, links, added, e);
      DataAppend(links, added, Link(last, null, e));
      ring := ring + [added];
      hide Chained, DataOf;
      assert Links() == links[|links| - 1 := links[|links| - 1].(next := added)] + [Link(last, null, e)];
    }

    /** The three places that take a holder out of the chain do it alike. */
    method Unlink(holder: Holder, ghost k: nat)
      requires Valid() && 0 < k < |ring| && holder == ring[k]
      modifies this, ring
      ensures Valid() && ring == Drop(old(ring), k) && Contents() == Drop(old(Contents()), k - 1)
      ensures peak == old(peak) && generator == old(generator) && helper == old(helper) && autoRemove == old(autoRemove)
    {
      ghost var links := Links();
      ChainedWithout(ring, links, k);
      DataWithout(links, k);
      assert links[k - 1].next == ring[k] && links[k].prev == ring[k - 1];
      assert links[k].next == if k + 1 < |ring| then ring[k + 1] else null;
      if holder.next != null {
        holder.prev.next := holder.next;
        holder.next.prev := holder.prev;
      } else {
        holder.prev.next := null;
      }
      assert Links() == Rewired(links, k);
      hide Chained, DataOf, Rewired;
      size := size - 1;
      ring := Drop(ring, k);
      assert Links() == Drop(Rewired(links, k), k);
    }

    /** chain_remove, and remove under remove_all: the front holder is taken out. */
    method RemoveFront() returns (rc: int)
      requires Valid()
      modifies this, ring
      ensures Valid() && peak == old(peak)
      ensures generator == old(generator) && helper == old(helper) && autoRemove == old(autoRemove)
      ensures rc == if old(Contents()) == [] then -1 else 0
      ensures Contents() == if old(Contents()) == [] then [] else old(Contents())[1..]
      ensures forall h :: h in ring ==> h in old(ring)
      ensures rc == 0 ==> |ring| == |old(ring)| - 1
    {
      Next(0);
      var holder := base.next;
      if holder == null {
        return -1;
      }
      ContentsAt(1);
      DropIs(ring, 1);
      Unlink(holder, 1);
      return 0;
    }

    /** chain_get: the front element, taken out; None for an empty chain. */
    method Get() returns (r: Option<Element>)
      requires Valid()
      modifies this, ring
      ensures Valid() && peak == old(peak)
      ensures generator == old(generator) && helper == old(helper) && autoRemove == old(autoRemove)
      ensures old(Contents()) == [] ==> r.None? && Contents() == []
      ensures old(Contents()) != [] ==> r == Some(old(Contents())[0]) && Contents() == old(Contents())[1..]
    {
      Next(0);
      var holder := base.next;
      if holder == null {
        return None;
      }
      ContentsAt(1);
      r := Some(holder.data);
      var rc := RemoveFront();
    }

    // the walk that looks for an ident
    method Search(ident: int) returns (holder: Holder?)
      requires Valid()
      ensures var k := Find(Idents(Contents()), ident);
        if k < |Contents()| then k + 1 < |ring| && holder == ring[k + 1] else holder == null
    {
      Next(0);
      holder := base.next;
      ghost var k := 0;
      while holder != null
        invariant 0 <= k <= |ring| - 1 == |Contents()| && holder == NextOf(k)
        invariant forall i :: 0 <= i < k ==> Contents()[i].ident != ident
        decreases |ring| - k
      {
        ContentsAt(k + 1);
        if holder.data.ident == ident {
          break;
        }
        Next(k + 1);
        holder := holder.next;
        k := k + 1;
      }
      FindIs(Idents(Contents()), ident, k);
    }

    /** chain_get_by_ident: the first match, if a helper can identify elements. */
    method GetByIdent(ident: int) returns (r: Option<Element>)
      requires Valid()
      ensures var k := Find(Idents(Contents()), ident);
          r == if helper && k < |Contents()| then Some(Contents()[k]) else None
    {
      if base.next == null || !helper {
        Next(0);
        return None;
      }
      var holder := Search(ident);
      ghost var k := Find(Idents(Contents()), ident);
      if holder == null {
        return None;
      }
      ContentsAt(k + 1);
      return Some(holder.data);
    }

    /** chain_remove_by_ident: exactly the first match, wherever it stands. */
    method RemoveByIdent(ident: int) returns (r: Option<Element>)
      requires Valid()
      modifies this, ring
      ensures Valid() && peak == old(peak)
      ensures generator == old(generator) && helper == old(helper) && autoRemove == old(autoRemove)
      ensures var s := old(Contents()); var k := Find(Idents(s), ident);
        if helper && k < |s| then r == Some(s[k]) && Contents() == Drop(s, k) else r.None? && Contents() == s
    {
      if base.next == null || !helper {
        Next(0);
        return None;
      }
      var holder := Search(ident);
      ghost var k := Find(Idents(Contents()), ident);
      if holder == null {
        return None;
      }
      ContentsAt(k + 1);
      r := Some(holder.data);
      Unlink(holder, k + 1);
    }

    /** chain_get_by_index: a negative index gives the front element. */
    method GetByIndex(index: int) returns (r: Option<Element>)
      requires Valid()
      ensures var s := Contents();
          r == if index >= |s| || s == [] then None else Some(s[if index < 0 then 0 else index])
    {
      Next(0);
      var holder := base.next;
      if holder == null {
        return None;
      }
      ContentsAt(1);
      if index >= size {
        return None;
      }
      var i := 0;
      while i < index
        invariant 0 <= i < |ring| - 1 && (index >= 0 ==> i <= index) && (index < 0 ==> i == 0) && holder == ring[i + 1]
      {
        Next(i + 1);
        holder := holder.next;
        i := i + 1;
      }
      ContentsAt(i + 1);
      return Some(holder.data);
    }

    /** remove_all: every element is released, once and in order, unless the chain leaves that
        to its users. */
    method RemoveAll() returns (released: seq<Element>)
      requires Valid()
      modifies this, ring
      ensures Valid() && Contents() == [] && size == 0
      ensures released == if autoRemove then old(Contents()) else []
      ensures peak == old(peak) && generator == old(generator) && helper == old(helper) && autoRemove == old(autoRemove)
    {
      released := [];
      Next(0);
      hide Chained, Contents;
      while base.next != null
        invariant Valid() && base.next == NextOf(0)
        invariant forall h :: h in ring ==> h in old(ring)
        invariant if autoRemove then released + Contents() == old(Contents()) else released == []
        invariant peak == old(peak)
        invariant generator == old(generator) && helper == old(helper) && autoRemove == old(autoRemove)
        decreases |ring|
      {
        ghost var s, done := Contents(), released;
        ContentsAt(1);
        if autoRemove {
          released := released + [base.next.data];
        }
        assert forall i :: 0 <= i < |ring| ==> ring[i] in old(ring);
        var rc := RemoveFront();
        assert autoRemove ==> released + s[1..] == done + s;
        Next(0);
      }
      SizeIs();
    }

    lemma SizeIs()
      requires Valid()
      ensures |Contents()| == size == |ring| - 1
    {}

    method GenerateIdent() returns (ident: int)
      modifies `generator
      ensures ident == generator == old(generator) + 1
    {
      generator := generator + 1;
      ident := generator;
    }
  }
}
