/** What one pass over a stream finds is exactly how the stream decomposes. */
module FramingTheorems {
  import opened Ascii
  import opened JsonGrammar
  import opened Framing
  import opened StreamFramer

  predicate Separators(w: Text) {
    forall i :: 0 <= i < |w| ==> IsSeparator(w[i])
  }

  /** A stream put together from messages, with separators before, between and after them. */
  datatype Stream = Start(sep: Text) | More(init: Stream, msg: Text, sep: Text)

  function StreamText(st: Stream): Text {
    match st
    case Start(w) => w
    case More(init, m, w) => StreamText(init) + m + w
  }

  function Messages(st: Stream): seq<Text> {
    match st
    case Start(_) => []
    case More(init, m, _) => Messages(init) + [m]
  }

  ghost predicate WfStream(max: nat, st: Stream) {
    && Separators(st.sep)
    && (st.More? ==> WfStream(max, st.init) && SelfDelimiting(st.msg) && |st.msg| <= max)
  }

  ghost predicate WfPartial(max: nat, p: Text) {
    p != [] ==> IsOpen(p) && (|p| == 1 || |p| <= max)
  }

  /** The bytes s are the stream st with an unfinished message at the end. */
  ghost predicate Decomposes(max: nat, s: Text, st: Stream, partial: Text) {
    WfStream(max, st) && WfPartial(max, partial) && s == StreamText(st) + partial
  }

  lemma SeparatorsSnoc(w: Text, c: int)
    requires Separators(w) && IsSeparator(c)
    ensures Separators(w + [c])
  {}

  lemma CutStep(max: nat, f: Frames, s: Text, st: Stream, c: int) returns (st': Stream)
    requires Decomposes(max, s, st, f.partial) && f.done == Messages(st) && !f.error
    requires !Take(max, f, c).error && GoodFrames(max, Take(max, f, c))
    ensures Decomposes(max, s + [c], st', Take(max, f, c).partial) && Take(max, f, c).done == Messages(st')
  {
    hide NestOf, IsOpen, SelfDelimiting, Separators;
    st' := st;
    if f.partial == [] {
      if IsSeparator(c) {
        SeparatorsSnoc(st.sep, c);
        st' := st.(sep := st.sep + [c]);
      }
    } else {
      var m := f.partial + [c];
      if Take(max, f, c).partial == [] {
        st' := More(st, m, []);
        assert Take(max, f, c).done[|f.done|] == m;
        NoSeparators();
      }
    }
  }

  lemma NoSeparators()
    ensures Separators([])
  {}

  /** A stream without an error decomposes into the messages found. */
  lemma {:induction false} Cut(max: nat, s: Text) returns (st: Stream)
    requires !Frame(max, s).error
    ensures Decomposes(max, s, st, Frame(max, s).partial) && Messages(st) == Frame(max, s).done
    decreases |s|
  {
    if s == [] {
      st := Start([]);
    } else {
      var n := |s| - 1;
      assert s == s[..n] + [s[n]];
      FrameIsGood(max, s);
      assert Frame(max, s) == Take(max, Frame(max, s[..n]), s[n]);
      hide Frame, Take, GoodFrames, Decomposes;
      ErrorComesOnce(max, Frame(max, s[..n]), s[n]);
      st := Cut(max, s[..n]);
      st := CutStep(max, Frame(max, s[..n]), s[..n], st, s[n]);
    }
  }

  lemma ErrorComesOnce(max: nat, f: Frames, c: int)
    ensures f.error ==> Take(max, f, c).error
  {}

  // between messages, nothing pending
  ghost predicate Ready(max: nat, s: Text) {
    !Frame(max, s).error && Frame(max, s).partial == []
  }

  lemma {:induction false} ReadSeparators(max: nat, s: Text, w: Text)
    requires Ready(max, s) && Separators(w)
    ensures Frame(max, s + w) == Frame(max, s)
    decreases |w|
  {
    if w == [] {
      assert s + w == s;
    } else {
      hide Frame, NestOf;
      var v, c := w[..|w| - 1], w[|w| - 1];
      assert Separators(v) && IsSeparator(c) && v + [c] == w;
      hide Separators;
      ReadSeparators(max, s, v);
      FrameSnoc(max, s + v, c);
      assert s + v + [c] == s + (v + [c]);
    }
  }

  lemma OpenPrefix(m: Text, n: nat)
    requires IsOpen(m) && 0 < n <= |m|
    ensures IsOpen(m[..n])
  {
    forall k | 0 < k <= n
      ensures NestOf(m[..n][..k]).depth > 0
    {
      assert m[..n][..k] == m[..k];
    }
  }

  // the bytes of an open message, and of a complete one, one by one
  lemma MessageSteps(m: Text)
    requires IsOpen(m) || SelfDelimiting(m)
    ensures var n := |m| - 1;
            && IsOpening(m[0]) && m[..n] + [m[n]] == m
            && (n > 0 ==> IsOpen(m[..n]))
            && (IsOpen(m) ==> NestOf(m).depth > 0)
            && (n == 0 ==> m == [m[0]] && m[..n] == [])
  {
    hide NestOf;
    var n := |m| - 1;
    LastByte(m);
    if IsOpen(m) {
      OpenIsDeep(m);
      if n > 0 {
        OpenPrefix(m, n);
      }
    }
  }

  lemma LastByte(m: Text)
    requires |m| > 0
    ensures m[..|m| - 1] + [m[|m| - 1]] == m
  {}

  lemma OpenIsDeep(m: Text)
    requires IsOpen(m)
    ensures NestOf(m).depth > 0
  {
    assert m[..|m|] == m;
  }

  lemma {:induction false} ReadOpen(max: nat, s: Text, m: Text)
    requires Ready(max, s) && IsOpen(m) && (|m| == 1 || |m| <= max)
    ensures Frame(max, s + m) == Frames(Frame(max, s).done, m, false)
    decreases |m|
  {
    var n := |m| - 1;
    MessageSteps(m);
    hide NestOf, IsOpen, Frame;
    if n > 0 {
      ReadOpen(max, s, m[..n]);
    } else {
      assert s + m[..n] == s;
    }
    assert s + m == s + m[..n] + [m[n]];
    FrameSnoc(max, s + m[..n], m[n]);
  }

  lemma ReadMessage(max: nat, s: Text, m: Text)
    requires Ready(max, s) && SelfDelimiting(m) && |m| <= max
    ensures Frame(max, s + m) == Frames(Frame(max, s).done + [m], [], false)
  {
    var n := |m| - 1;
    MessageSteps(m);
    ReadOpen(max, s, m[..n]);
    hide IsOpen, Frame;
    assert s + m == s + m[..n] + [m[n]];
    FrameSnoc(max, s + m[..n], m[n]);
  }

  lemma {:induction false} ReadStream(max: nat, st: Stream)
    requires WfStream(max, st)
    ensures Frame(max, StreamText(st)) == Frames(Messages(st), [], false)
  {
    if st.Start? {
      assert [] + st.sep == st.sep;
      ReadSeparators(max, [], st.sep);
    } else {
      hide Frame, SelfDelimiting, Separators;
      ReadStream(max, st.init);
      ReadMessage(max, StreamText(st.init), st.msg);
      ReadSeparators(max, StreamText(st.init) + st.msg, st.sep);
    }
  }

  /** Round trip: a stream put together from messages and separators comes apart into them. */
  lemma Reassemble(max: nat, s: Text, st: Stream, partial: Text)
    requires Decomposes(max, s, st, partial)
    ensures Frame(max, s) == Frames(Messages(st), partial, false)
  {
    hide Frame;
    ReadStream(max, st);
    if partial == [] {
      assert s == StreamText(st);
    } else {
      ReadOpen(max, StreamText(st), partial);
    }
  }

  /** One pass finds these messages and this rest, without an error, exactly when the stream
      is made of them. */
  lemma FramesIffDecomposes(max: nat, s: Text, msgs: seq<Text>, partial: Text)
    ensures Frame(max, s) == Frames(msgs, partial, false)
       <==> exists st :: Decomposes(max, s, st, partial) && Messages(st) == msgs
  {
    hide Frame, Decomposes;
    if Frame(max, s) == Frames(msgs, partial, false) {
      var st := Cut(max, s);
    }
    if exists st :: Decomposes(max, s, st, partial) && Messages(st) == msgs {
      var st :| Decomposes(max, s, st, partial) && Messages(st) == msgs;
      Reassemble(max, s, st, partial);
    }
  }

  // no message can go on with this byte
  predicate Stuck(max: nat, partial: Text, c: int) {
    if partial == [] then !IsSeparator(c) && !IsOpening(c) else |partial| >= max
  }

  /** The stream decomposes up to its k-th byte, and that byte is neither a separator nor an
      opening bracket, or one byte too many. */
  ghost predicate BreaksAt(max: nat, s: Text, k: nat) {
    && k < |s|
    && exists st, partial :: Decomposes(max, s[..k], st, partial) && Stuck(max, partial, s[k])
  }

  /** When a protocol error is reported. */
  lemma ErrorIffBreaks(max: nat, s: Text)
    ensures Frame(max, s).error <==> exists k :: BreaksAt(max, s, k)
  {
    if Frame(max, s).error {
      var k := FirstError(max, s);
    }
    if exists k :: BreaksAt(max, s, k) {
      var k: nat :| BreaksAt(max, s, k);
      BreaksGivesError(max, s, k);
    }
  }

  lemma BreaksGivesError(max: nat, s: Text, k: nat)
    requires BreaksAt(max, s, k)
    ensures Frame(max, s).error
  {
    hide Frame, Decomposes;
    var st, partial :| Decomposes(max, s[..k], st, partial) && Stuck(max, partial, s[k]);
    Reassemble(max, s[..k], st, partial);
    StuckFails(max, s, k);
  }

  lemma StuckFails(max: nat, s: Text, k: nat)
    requires k < |s| && !Frame(max, s[..k]).error && Stuck(max, Frame(max, s[..k]).partial, s[k])
    ensures Frame(max, s).error
  {
    hide Frame, NestOf;
    var head, tail := s[..k] + [s[k]], s[k + 1..];
    FrameSnoc(max, s[..k], s[k]);
    ErrorStays(max, head, tail);
    assert head + tail == s;
  }

  lemma {:induction false} FirstError(max: nat, s: Text) returns (k: nat)
    requires Frame(max, s).error
    ensures BreaksAt(max, s, k)
    decreases |s|
  {
    var n := |s| - 1;
    hide Decomposes, NestOf;
    if Frame(max, s[..n]).error {
      k := FirstError(max, s[..n]);
      assert s[..n][..k] == s[..k];
    } else {
      k := n;
      var st := Cut(max, s[..n]);
    }
  }

  // Any chunking, with messages asked for at any time

  datatype Call = Feeding(data: Text) | Asking

  /** The bytes fed and the messages handed out by a sequence of Feed and Next calls. */
  function Bytes(calls: seq<Call>): Text {
    if calls == [] then [] else
    Bytes(calls[..|calls| - 1]) + (match calls[|calls| - 1] case Feeding(data) => data case Asking => [])
  }

  lemma BytesSnoc(calls: seq<Call>, i: nat)
    requires i < |calls|
    ensures Bytes(calls[..i + 1]) == Bytes(calls[..i]) + (match calls[i] case Feeding(data) => data case Asking => [])
  {
    assert calls[..i + 1][..i] == calls[..i];
  }

  /** The framer itself under any list of calls, asked for the rest at the end: together, what
      it hands out is one pass over all bytes, and so are its error flag and its open part. */
  method RunSession(max: nat, calls: seq<Call>) returns (got: seq<Text>, rest: seq<Text>, error: bool, pending: nat)
    ensures got + rest == Frame(max, Bytes(calls)).done
    ensures error == Frame(max, Bytes(calls)).error && pending == |Frame(max, Bytes(calls)).partial|
  {
    hide Frame, NestOf, Bytes;
    var f := new JsonStreamFramer(max);
    got, rest := [], [];
    assert Bytes(calls[..0]) == [] by {
      NoBytes(calls);
    }
    for i := 0 to |calls|
      invariant f.Valid() && fresh(f) && f.maxMsg == max && f.fed == Bytes(calls[..i])
      invariant got == f.Pass().done[..f.taken]
    {
      BytesSnoc(calls, i);
      match calls[i] {
        case Feeding(data) =>
          DoneGrows(max, f.fed, data);
          var n := f.Feed(data);
        case Asking =>
          var ok, msg := f.Next([]);
          if ok {
            got := got + [msg];
          }
      }
    }
    assert calls[..|calls|] == calls;
    ghost var done, asked := f.Pass().done, f.taken;
    var more := true;
    while more
      invariant f.Valid() && fresh(f) && f.maxMsg == max && f.fed == Bytes(calls)
      invariant asked <= f.taken && rest == done[asked..f.taken] && (!more ==> f.taken == |done|)
      decreases more, |done| - f.taken
    {
      var msg;
      more, msg := f.Next([]);
      if more {
        rest := rest + [msg];
      }
    }
    error := f.error;
    pending := f.PendingBytes();
  }

  lemma NoBytes(calls: seq<Call>)
    ensures Bytes(calls[..0]) == []
  {}
}
