/** A value that may be missing: the source's NULL results and absent members. */
module Options {
  datatype Option<T> = None | Some(value: T)
}

/** Looking up an element by its ident, as the chains do: the first match counts. */
module FirstMatch {
  /** The position of the first such ident, or the length. */
  function Find(ids: seq<int>, ident: int): (k: nat)
    ensures k <= |ids| && (k < |ids| ==> ids[k] == ident)
    ensures forall i :: 0 <= i < k ==> ids[i] != ident
  {
    if ids == [] then 0 else if ids[0] == ident then 0 else
      var k := Find(ids[1..], ident);
      assert forall i :: 0 < i < k + 1 ==> ids[i] == ids[1..][i - 1];
      k + 1
  }

  /** Find is determined by what it finds. */
  lemma FindIs(ids: seq<int>, ident: int, k: nat)
    requires k <= |ids| && (k < |ids| ==> ids[k] == ident) && forall i :: 0 <= i < k ==> ids[i] != ident
    ensures Find(ids, ident) == k
  {}

  function Drop<T>(s: seq<T>, k: nat): seq<T>
    requires k < |s|
  {
    s[..k] + s[k + 1..]
  }

  lemma DropIs<T>(s: seq<T>, k: nat)
    requires k < |s|
    ensures |Drop(s, k)| == |s| - 1
    ensures forall i :: 0 <= i < |s| - 1 ==> Drop(s, k)[i] == s[if i < k then i else i + 1]
  {}
}
