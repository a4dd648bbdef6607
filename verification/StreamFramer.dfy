/**
 Framing by brackets, on whole texts: which texts are single messages, and what
 one pass over a byte stream makes of it.  Nothing here knows about chunks,
 buffers or indices.
 */
module Framing {
  import opened Ascii
  import opened JsonGrammar

  predicate IsSeparator(c: int) {
    IsWhite(c) || c == 0 || c == COMMA
  }

  predicate IsOpening(c: int) {
    c == LCURB || c == LSQRB
  }

  predicate IsClosing(c: int) {
    c == RCURB || c == RSQRB
  }

  /** How deep the brackets are open, and whether a string is being read. */
  datatype Nest = Nest(depth: int, inString: bool, escape: bool)

  function Look(b: Nest, c: int): Nest {
    if b.inString then
      if b.escape then b.(escape := false)
      else if c == BACKS then b.(escape := true)
      else if c == QUOTE then b.(inString := false)
      else b
    else if c == QUOTE then b.(inString := true)
    else if IsOpening(c) then b.(depth := b.depth + 1)
    else if IsClosing(c) then b.(depth := b.depth - 1)
    else b
  }

  /** The nesting after m, read from an opening bracket on. */
  function NestOf(m: Text): Nest {
    if |m| == 0 then Nest(0, false, false)
    else if |m| == 1 then Nest(1, false, false)
    else Look(NestOf(m[..|m| - 1]), m[|m| - 1])
  }

  /** A message that has begun and has not been closed. */
  ghost predicate IsOpen(m: Text) {
    && |m| > 0 && IsOpening(m[0])
    && forall k :: 0 < k <= |m| ==> NestOf(m[..k]).depth > 0
  }

  /** A complete message: its last byte, and no earlier one, closes its first bracket. */
  ghost predicate SelfDelimiting(m: Text) {
    && |m| > 1 && IsOpen(m[..|m| - 1])
    && NestOf(m).depth == 0
  }

  /** What a stream has been cut into: complete messages and the one that is still open. */
  datatype Frames = Frames(done: seq<Text>, partial: Text, error: bool)

  function Take(max: nat, f: Frames, c: int): Frames {
    if f.error then f
    else if f.partial == [] then
      if IsSeparator(c) then f
      else if IsOpening(c) then f.(partial := [c])
      else Frames(f.done, [], true)
    else if |f.partial| + 1 > max then Frames(f.done, [], true)
    else
      var m := f.partial + [c];
      if NestOf(m).depth == 0 then Frames(f.done + [m], [], false) else f.(partial := m)
  }

  /** One pass over a whole stream. */
  function Frame(max: nat, s: Text): Frames {
    if s == [] then Frames([], [], false)
    else Take(max, Frame(max, s[..|s| - 1]), s[|s| - 1])
  }

  lemma FrameSnoc(max: nat, s: Text, c: int)
    ensures Frame(max, s + [c]) == Take(max, Frame(max, s), c)
  {
    assert (s + [c])[..|s|] == s;
  }

  lemma {:induction false} ErrorStays(max: nat, s: Text, t: Text)
    requires Frame(max, s).error
    ensures Frame(max, s + t) == Frame(max, s)
    decreases |t|
  {
    if t == [] {
      assert s + t == s;
    } else {
      ErrorStays(max, s, t[..|t| - 1]);
      assert s + t == s + t[..|t| - 1] + [t[|t| - 1]];
      FrameSnoc(max, s + t[..|t| - 1], t[|t| - 1]);
    }
  }

  lemma ErrorKeeps(max: nat, f: Frames, c: int)
    requires Take(max, f, c).error
    ensures Take(max, f, c).done == f.done
  {}

  // the frames after n bytes of a chunk
  function FrameAt(max: nat, s: Text, data: Text, n: int): Frames
    requires 0 <= n <= |data|
  {
    Frame(max, s + data[..n])
  }

  lemma Splits(s: Text, data: Text, n: int)
    requires 0 <= n < |data|
    ensures s + data[..n] + [data[n]] == s + data[..n + 1]
    ensures s + data[..n + 1] + data[n + 1..] == s + data
  {}

  lemma FrameAtEnds(max: nat, s: Text, data: Text)
    ensures FrameAt(max, s, data, 0) == Frame(max, s)
    ensures FrameAt(max, s, data, |data|) == Frame(max, s + data)
    ensures GoodFrames(max, Frame(max, s))
  {
    assert s + data[..0] == s && data[..|data|] == data;
    FrameIsGood(max, s);
  }

  /** One byte in the middle of a chunk; an error there settles the whole chunk. */
  lemma FeedStep(max: nat, s: Text, data: Text, n: int)
    requires 0 <= n < |data| && !FrameAt(max, s, data, n).error
    ensures var f := FrameAt(max, s, data, n);
            && FrameAt(max, s, data, n + 1) == Take(max, f, data[n])
            && GoodFrames(max, Take(max, f, data[n]))
            && (Take(max, f, data[n]).error ==> Frame(max, s + data).error && Frame(max, s + data).done == f.done)
            && (!Take(max, f, data[n]).error && n + 1 == |data| ==> !Frame(max, s + data).error)
  {
    hide Frame, GoodFrames, Take, NestOf;
    Splits(s, data, n);
    FrameSnoc(max, s + data[..n], data[n]);
    FrameIsGood(max, s + data[..n + 1]);
    if Frame(max, s + data[..n + 1]).error {
      ErrorStays(max, s + data[..n + 1], data[n + 1..]);
      ErrorKeeps(max, Frame(max, s + data[..n]), data[n]);
    } else if n + 1 == |data| {
      assert data[..|data|] == data;
    }
  }

  lemma TakeGrows(max: nat, f: Frames, c: int)
    ensures f.done <= Take(max, f, c).done
  {}

  /** More bytes never take back a message. */
  lemma {:induction false} DoneGrows(max: nat, s: Text, t: Text)
    ensures Frame(max, s).done <= Frame(max, s + t).done
    decreases |t|
  {
    if t == [] {
      assert s + t == s;
    } else {
      hide Frame;
      var n := |t| - 1;
      DoneGrows(max, s, t[..n]);
      assert s + t == s + t[..n] + [t[n]];
      FrameSnoc(max, s + t[..n], t[n]);
      TakeGrows(max, Frame(max, s + t[..n]), t[n]);
    }
  }

  /** The shape one pass keeps: the open message is open, and within the size limit. */
  ghost predicate GoodFrames(max: nat, f: Frames) {
    && (f.error ==> f.partial == [])
    && (f.partial != [] ==> IsOpen(f.partial) && (|f.partial| == 1 || |f.partial| <= max))
    && forall i :: 0 <= i < |f.done| ==> SelfDelimiting(f.done[i]) && |f.done[i]| <= max
  }

  lemma OpenSnoc(m: Text, c: int)
    requires IsOpen(m)
    ensures NestOf(m + [c]) == Look(NestOf(m), c)
    ensures NestOf(m + [c]).depth >= 0
    ensures NestOf(m + [c]).depth > 0 <==> IsOpen(m + [c])
    ensures NestOf(m + [c]).depth == 0 <==> SelfDelimiting(m + [c])
  {
    var n := m + [c];
    assert n[..|m|] == m && m[..|m|] == m;
    forall k | 0 < k <= |m|
      ensures n[..k] == m[..k]
    {}
    assert n[..|n|] == n;
  }

  lemma {:induction false} FrameIsGood(max: nat, s: Text)
    ensures GoodFrames(max, Frame(max, s))
  {
    if s != [] {
      var f := Frame(max, s[..|s| - 1]);
      var c := s[|s| - 1];
      FrameIsGood(max, s[..|s| - 1]);
      if !f.error && f.partial == [] && IsOpening(c) {
        assert [c][..1] == [c];
      } else if !f.error && f.partial != [] {
        OpenSnoc(f.partial, c);
      }
    }
  }

  lemma {:induction false} DepthWithinLength(m: Text)
    ensures NestOf(m).depth <= |m|
  {
    if |m| > 1 {
      DepthWithinLength(m[..|m| - 1]);
    }
  }
}

/** The framer of a connection, with its buffer and indices. */
module StreamFramer {
  import opened Ascii
  import opened JsonGrammar
  import opened Framing

  class JsonStreamFramer {
    var buf: Text
    var ready: seq<Text>
    const maxMsg: nat
    var scan: int  // bytes before it were looked at
    var start: int // where the open message begins
    var depth: int
    var inString: bool
    var escape: bool
    var error: bool

    // everything fed and the number of messages handed out since the last reset
    ghost var fed: Text
    ghost var taken: nat

    ghost function Pass(): Frames
      reads this
    {
      Frame(maxMsg, fed)
    }

    /** Between calls the fields are what one pass over all bytes fed so far leaves. */
    ghost predicate Valid()
      reads this
    {
      && error == Pass().error
      && taken <= |Pass().done|
      && ready == Pass().done[taken..]
      && buf == Pass().partial
      && scan == |buf|
      && (depth > 0 ==> start == 0)
      && depth == NestOf(buf).depth
      && (depth > 0 ==> Nest(depth, inString, escape) == NestOf(buf))
    }

    constructor (maxMsgSize: nat)
      ensures Valid() && maxMsg == maxMsgSize && fed == [] && taken == 0
    {
      buf, ready, maxMsg := [], [], maxMsgSize;
      scan, start, depth := 0, 0, 0;
      inString, escape, error := false, false, false;
      fed, taken := [], 0;
    }

    method Reset()
      modifies this
      ensures Valid() && fed == [] && taken == 0
      ensures ready == [] && buf == [] && !error
    {
      buf, ready := [], [];
      scan, start, depth := 0, 0, 0;
      inString, escape, error := false, false, false;
      fed, taken := [], 0;
    }

    /** Inside Feed: the bytes before `scan` make up the frames f, and the bytes before
        `consumed` are no longer needed. */
    ghost predicate Scanning(f: Frames, consumed: int)
      reads this
    {
      && !error && !f.error
      && taken <= |f.done| && ready == f.done[taken..]
      && 0 <= consumed <= scan <= |buf|
      && depth >= 0
      && (depth == 0 ==> consumed == scan && f.partial == [])
      && (depth > 0 ==>
            && consumed <= start < scan
            && f.partial == buf[start..scan]
            && Nest(depth, inString, escape) == NestOf(f.partial))
    }

    /** The body of Feed's loop between messages. */
    method ScanOutside(ghost f: Frames, consumed: int) returns (consumed': int)
      requires Scanning(f, consumed) && scan < |buf| && depth == 0
      modifies this`scan, this`start, this`depth, this`inString, this`escape, this`error
      ensures error == Take(maxMsg, f, buf[old(scan)]).error
      ensures !error ==> Scanning(Take(maxMsg, f, buf[old(scan)]), consumed') && scan == old(scan) + 1
    {
      var c := buf[scan];
      consumed' := consumed;
      if c == 0x20 || c == 0x09 || c == 0x0D || c == 0x0A || c == 0 || c == COMMA {
        consumed' := scan + 1;
        scan := scan + 1;
      } else if c != LCURB && c != LSQRB {
        error := true;
      } else {
        start := scan;
        depth := 1;
        inString := false;
        escape := false;
        scan := scan + 1;
        assert buf[start..scan] == [c];
      }
    }

    /** The body of Feed's loop inside a message. */
    method ScanInside(ghost f: Frames, consumed: int) returns (consumed': int)
      requires Scanning(f, consumed) && scan < |buf| && depth > 0 && GoodFrames(maxMsg, f)
      modifies this`ready, this`scan, this`depth, this`inString, this`escape, this`error
      ensures error == Take(maxMsg, f, buf[old(scan)]).error
      ensures error ==> ready == old(ready)
      ensures !error ==> Scanning(Take(maxMsg, f, buf[old(scan)]), consumed') && scan == old(scan) + 1
    {
      var c := buf[scan];
      consumed' := consumed;
      OpenSnoc(f.partial, c);
      assert buf[start..scan + 1] == buf[start..scan] + [c];
      hide NestOf, GoodFrames, IsOpen, SelfDelimiting, Look;
      if scan - start + 1 > maxMsg {
        error := true;
        return;
      }
      LookAt(c);
      if depth == 0 {
        ready := ready + [buf[start..scan + 1]];
        consumed' := scan + 1;
      }
      scan := scan + 1;
    }

    // strings, escapes and brackets; brackets in strings do not count
    method LookAt(c: int)
      modifies this`depth, this`inString, this`escape
      ensures Nest(depth, inString, escape) == Look(old(Nest(depth, inString, escape)), c)
    {
      if inString {
        if escape {
          escape := false;
        } else if c == BACKS {
          escape := true;
        } else if c == QUOTE {
          inString := false;
        }
      } else if c == QUOTE {
        inString := true;
      } else if c == LCURB || c == LSQRB {
        depth := depth + 1;
      } else if c == RCURB || c == RSQRB {
        depth := depth - 1;
      }
    }

    // after an error nothing but the finished messages is kept
    method Drop(ghost stream: Text)
      requires error && Frame(maxMsg, stream).error
      requires taken <= |Frame(maxMsg, stream).done| && ready == Frame(maxMsg, stream).done[taken..]
      modifies this
      ensures Valid() && error && fed == stream && taken == old(taken)
    {
      buf := [];
      scan := 0;
      start := 0;
      depth := 0;
      fed := stream;
      FrameIsGood(maxMsg, stream);
    }

    // the used part of the buffer is erased once at the end
    method Compact(ghost stream: Text, consumed: int)
      requires Scanning(Frame(maxMsg, stream), consumed) && scan == |buf|
      modifies this
      ensures Valid() && !error && fed == stream && taken == old(taken)
    {
      hide Frame;
      var cut := consumed;
      if depth > 0 && start > cut {
        cut := start;
      }
      assert depth > 0 ==> buf[start..scan] == buf[start..];
      if cut > 0 {
        buf := buf[cut..];
        scan := scan - cut;
        if depth > 0 {
          start := start - cut;
        }
      }
      fed := stream;
      assert depth == 0 ==> buf == [];
    }

    // Feed's loop over the bytes that are new in the buffer
    method ScanAll(ghost data: Text) returns (consumed: int)
      requires |data| <= |buf| && buf[|buf| - |data|..] == data && scan == |buf| - |data|
      requires Scanning(Frame(maxMsg, fed), 0)
      modifies this`ready, this`scan, this`start, this`depth, this`inString, this`escape, this`error
      ensures error == Frame(maxMsg, fed + data).error
      ensures error ==> taken <= |Frame(maxMsg, fed + data).done| && ready == Frame(maxMsg, fed + data).done[taken..]
      ensures !error ==> Scanning(Frame(maxMsg, fed + data), consumed) && scan == |buf|
    {
      ghost var before := scan;
      ghost var f := Frame(maxMsg, fed);
      consumed := 0;
      FrameAtEnds(maxMsg, fed, data);
      hide Frame, FrameAt, NestOf, GoodFrames, Take;
      while scan < |buf|
        invariant before <= scan <= |buf|
        invariant f == FrameAt(maxMsg, fed, data, scan - before) && GoodFrames(maxMsg, f)
        invariant Scanning(f, consumed)
        decreases |buf| - scan
      {
        FeedStep(maxMsg, fed, data, scan - before);
        assert buf[scan] == data[scan - before];
        if depth == 0 {
          consumed := ScanOutside(f, consumed);
        } else {
          consumed := ScanInside(f, consumed);
        }
        if error {
          return;
        }
        f := Take(maxMsg, f, buf[scan - 1]);
      }
    }

    /** The result is -1 after an error, and otherwise how many messages can be asked for. */
    method Feed(data: Text) returns (r: int)
      requires Valid()
      modifies this
      ensures Valid() && fed == old(fed) + data && taken == old(taken)
      ensures r == if Pass().error then -1 else |Pass().done| - taken
    {
      FrameIsGood(maxMsg, fed);
      if error {
        ErrorStays(maxMsg, fed, data);
        fed := fed + data;
        return -1;
      }
      assert depth == 0 ==> buf == [] by {
        assert buf[..|buf|] == buf;
      }
      assert buf[0..] == buf && NestOf([]).depth == 0;
      ghost var was := buf;
      buf := buf + data;
      assert buf[|was|..] == data && buf[0..scan] == was;
      hide Frame, NestOf, GoodFrames;
      var consumed := ScanAll(data);
      if error {
        Drop(fed + data);
        return -1;
      }
      Compact(fed + data, consumed);
      return |ready|;
    }

    /** Hands out the oldest complete message. */
    method Next(out: Text) returns (ok: bool, msg: Text)
      requires Valid()
      modifies this
      ensures Valid() && fed == old(fed)
      ensures ok <==> old(taken) < |Pass().done|
      ensures ok ==> msg == Pass().done[old(taken)] && taken == old(taken) + 1
      ensures !ok ==> msg == out && taken == old(taken)
    {
      if ready == [] {
        return false, out;
      }
      msg := ready[0];
      ready := ready[1..];
      taken := taken + 1;
      return true, msg;
    }

    method PendingBytes() returns (n: nat)
      requires Valid()
      ensures n == |Pass().partial|
      ensures depth <= n <= (if maxMsg < 1 then 1 else maxMsg)
      ensures n == 0 <==> depth == 0
    {
      n := |buf|;
      FrameIsGood(maxMsg, fed);
      DepthWithinLength(buf);
      assert buf[..|buf|] == buf;
    }

    method Available() returns (n: nat)
      requires Valid()
      ensures n == |Pass().done| - taken
    {
      n := |ready|;
    }
  }
}
