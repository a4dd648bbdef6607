/**
 The client side: a framed transport over a socket, and calls that wait for the answer
 with their own id.  What the socket and the clock do is a list of events, consumed from
 the front; an empty list means that nothing more comes before the deadline.
 */
module RpcClient {
  import opened Options
  import opened JsonGrammar
  import opened Framing
  import opened StreamFramer

  // a chunk of bytes, an interrupted call, the end of the connection, or the deadline
  datatype Event = Chunk(bytes: Text) | Interrupted | Hangup | Late

  // what one call of send() does
  datatype Sending = Wrote(n: nat) | Again | Fails

  /** The bytes that a list of events brings. */
  function Bytes(es: seq<Event>): Text {
    if es == [] then [] else Bytes(es[..|es| - 1]) + if es[|es| - 1].Chunk? then es[|es| - 1].bytes else []
  }

  lemma NoBytes()
    ensures Bytes([]) == []
  {}

  lemma BytesSnoc(es: seq<Event>, e: Event)
    ensures Bytes(es + [e]) == Bytes(es) + if e.Chunk? then e.bytes else []
  {
    assert (es + [e])[..|es|] == es;
  }

  /** The chunks at the front, at most so many. */
  function LeadingChunks(es: seq<Event>, most: nat): (k: nat)
    ensures k <= |es| && k <= most
    ensures forall i :: 0 <= i < k ==> es[i].Chunk?
    ensures k < most && k < |es| ==> !es[k].Chunk?
  {
    if most == 0 || es == [] || !es[0].Chunk? then 0 else
      var k := LeadingChunks(es[1..], most - 1);
      assert forall i :: 1 <= i < k + 1 ==> es[i] == es[1..][i - 1];
      k + 1
  }

  /** How many of `left` bytes go out before the calls of send() fail or end. */
  function Written(sends: seq<Sending>, left: nat): (n: nat)
    ensures n <= left
  {
    if left == 0 || sends == [] || sends[0].Fails? || (sends[0].Wrote? && sends[0].n == 0) then 0
    else if sends[0].Again? then Written(sends[1..], left)
    else if sends[0].n >= left then left
    else sends[0].n + Written(sends[1..], left - sends[0].n)
  }

  predicate Stops(s: Sending) {
    s.Fails? || s == Wrote(0)
  }

  function Sum(sends: seq<Sending>): nat {
    if sends == [] then 0 else (if sends[0].Wrote? then sends[0].n else 0) + Sum(sends[1..])
  }

  /** All that the calls before the first failing one take goes out, up to what there is. */
  lemma {:induction false} WrittenIsSum(sends: seq<Sending>, left: nat, k: nat)
    requires k <= |sends| && (forall i :: 0 <= i < k ==> !Stops(sends[i])) && (k < |sends| ==> Stops(sends[k]))
    ensures Written(sends, left) == if Sum(sends[..k]) < left then Sum(sends[..k]) else left
    decreases |sends|
  {
    if k > 0 {
      assert sends[..k][1..] == sends[1..][..k - 1];
      assert !Stops(sends[0]);
      var n := if sends[0].Again? then 0 else sends[0].n;
      WrittenIsSum(sends[1..], if n >= left then 0 else left - n, k - 1);
    }
  }

  class NetClient {
    const framer: JsonStreamFramer
    var connected: bool
    var events: seq<Event>
    var wire: Text  // everything sent
    // since received bytes were last forgotten: all events, and those that have happened
    ghost var coming: seq<Event>
    ghost var past: seq<Event>

    /** The framer holds exactly the bytes of the events that have happened. */
    ghost predicate Valid()
      reads this, framer
    {
      framer.Valid() && coming == past + events && framer.fed == Bytes(past)
    }

    constructor (max: nat, script: seq<Event>)
      ensures Valid() && fresh(framer) && events == coming == script && connected && wire == []
    {
      framer := new JsonStreamFramer(max);
      connected, events, wire := true, script, [];
      coming, past := script, [];
    }

    // forgets what was received
    method Forget()
      requires framer.Valid()
      modifies framer, `coming, `past
      ensures Valid() && past == [] && coming == events && framer.fed == [] && framer.taken == 0
    {
      framer.Reset();
      coming, past := events, [];
    }

    /** sock_disconnect and sock_connect: either forgets what was received. */
    method Reconnect(works: bool) returns (rc: int)
      requires Valid()
      modifies `connected, `coming, `past, framer
      ensures Valid() && past == [] && framer.taken == 0
      ensures connected == works && rc == if works then 0 else -1
    {
      connected := false;
      Forget();
      if !works {
        return -1;
      }
      Forget();
      connected := true;
      return 0;
    }

    /** The loop of send_data over the bytes that are left. */
    method SendAll(data: Text, sends: seq<Sending>) returns (rc: int)
      modifies `wire
      ensures wire == old(wire) + data[..Written(sends, |data|)]
      ensures rc == if Written(sends, |data|) == |data| then 0 else -1
    {
      var total, i := 0, 0;
      assert data[..0] == [] && sends[0..] == sends;
      while total < |data|
        invariant 0 <= total <= |data| && 0 <= i <= |sends|
        invariant wire == old(wire) + data[..total]
        invariant Written(sends, |data|) == total + Written(sends[i..], |data| - total)
        decreases |sends| - i
      {
        if i == |sends| || sends[i].Fails? || (sends[i].Wrote? && sends[i].n == 0) {
          return -1;
        }
        assert sends[i..][1..] == sends[i + 1..];
        if sends[i].Wrote? {
          var n := if sends[i].n > |data| - total then |data| - total else sends[i].n;
          wire := wire + data[total..total + n];
          assert data[..total + n] == data[..total] + data[total..total + n];
          total := total + n;
        }
        i := i + 1;
      }
      return 0;
    }

    /** send_data: answers to earlier calls are thrown away first, in the framer and in the
        socket, where `backlog` chunks have arrived already. */
    method SendData(data: Text, backlog: nat, sends: seq<Sending>) returns (rc: int)
      requires Valid()
      modifies `events, `wire, `coming, `past, framer
      ensures Valid()
      ensures !connected || data == [] ==>
        rc == -1 && wire == old(wire) && events == old(events) && past == old(past) && framer.taken == old(framer.taken)
      ensures connected && data != [] ==>
        && events == coming == old(events)[LeadingChunks(old(events), backlog)..] && past == [] && framer.taken == 0
        && wire == old(wire) + data[..Written(sends, |data|)]
        && rc == if Written(sends, |data|) == |data| then 0 else -1
    {
      if !connected || data == [] {
        return -1;
      }
      Drain(backlog);
      Forget();
      rc := SendAll(data, sends);
    }

    // reads and drops what has arrived
    method Drain(backlog: nat)
      modifies `events
      ensures events == old(events)[LeadingChunks(old(events), backlog)..]
    {
      var k := 0;
      assert events[0..] == events;
      while k < backlog && k < |events| && events[k].Chunk?
        invariant 0 <= k <= |events| && k <= backlog
        invariant LeadingChunks(events, backlog) == k + LeadingChunks(events[k..], backlog - k)
      {
        assert events[k..][1..] == events[k + 1..];
        k := k + 1;
      }
      events := events[k..];
    }

    // the next event happens
    method Happen() returns (e: Event)
      requires Valid() && events != []
      modifies `events, `past, framer
      ensures Valid() && e == old(events)[0] && events == old(events)[1..]
      ensures past == old(past) + [e] && coming == old(coming) && framer.taken == old(framer.taken)
    {
      hide Frame, NestOf, JsonStreamFramer.Valid, Bytes;
      e := events[0];
      events := events[1..];
      BytesSnoc(past, e);
      if e.Chunk? {
        var n := framer.Feed(e.bytes);
      }
      past := past + [e];
      assert framer.fed == Bytes(past);
    }

    /** receive_json_blocking: the next frame, -1 at the deadline, -2 when the stream is lost.
        A frame is handed out as soon as the event that completes it has happened. */
    method ReceiveJson() returns (rc: int, out: Text)
      requires Valid()
      modifies `events, `past, framer
      ensures Valid() && coming == old(coming) && old(past) <= past
      ensures rc >= 0 ==> connected && rc == |out| && framer.taken == old(framer.taken) + 1
      ensures rc >= 0 ==> old(framer.taken) < |framer.Pass().done| && out == framer.Pass().done[old(framer.taken)]
      ensures rc >= 0 ==>
        past == old(past) || |Frame(framer.maxMsg, Bytes(past[..|past| - 1])).done| == old(framer.taken)
      ensures rc < 0 ==> (rc == -1 || rc == -2) && out == [] && framer.taken == old(framer.taken)
      ensures rc == -1 && !connected ==> past == old(past)
      ensures rc == -1 && connected ==> AllTaken() && !framer.error && (events == [] || events[0].Late?)
      ensures rc == -2 ==>
        connected && AllTaken() && (framer.error || (|past| > |old(past)| && past[|past| - 1].Hangup?))
    {
      hide Frame, NestOf, JsonStreamFramer.Valid, Bytes;
      if !connected {
        return -1, [];
      }
      while true
        invariant Valid() && coming == old(coming) && old(past) <= past && framer.taken == old(framer.taken)
        invariant past == old(past) || |Frame(framer.maxMsg, Bytes(past[..|past| - 1])).done| == framer.taken
        decreases |events|
      {
        var ok, msg := framer.Next([]);
        if ok {
          return |msg|, msg;
        }
        TakenWithin(framer);
        if framer.error {
          return -2, [];
        }
        if events == [] || events[0].Late? {
          return -1, [];
        }
        ghost var before := past;
        var e := Happen();
        assert past[..|past| - 1] == before;
        if e.Hangup? {
          SameFrames(before, e);
          return -2, [];
        }
      }
    }

    ghost predicate AllTaken()
      reads this, framer
    {
      framer.taken == |framer.Pass().done|
    }
  }

  lemma TakenWithin(f: JsonStreamFramer)
    requires f.Valid()
    ensures f.taken <= |f.Pass().done|
  {}

  lemma SameFrames(past: seq<Event>, e: Event)
    requires !e.Chunk?
    ensures Bytes(past + [e]) == Bytes(past)
  {
    BytesSnoc(past, e);
  }

  /** A frame that a call for this id takes as its answer: the id fits, or there is none to
      compare (absent, null or unparsable). */
  predicate Fits(idOf: Text -> Option<int>, txId: int, msg: Text) {
    txId < 0 || idOf(msg).None? || idOf(msg).value == txId
  }

  /** The frames from position `a` up to `b` were all answers to other calls. */
  ghost predicate Skipped(idOf: Text -> Option<int>, txId: int, done: seq<Text>, a: nat, b: nat) {
    b <= |done| && forall i :: a <= i < b ==> !Fits(idOf, txId, done[i])
  }

  lemma {:induction false} MoreEvents(max: nat, es: seq<Event>, fs: seq<Event>)
    ensures Frame(max, Bytes(es)).done <= Frame(max, Bytes(es + fs)).done
  {
    hide Frame, Bytes;
    if fs == [] {
      assert es + fs == es;
    } else {
      var f, e := fs[..|fs| - 1], fs[|fs| - 1];
      MoreEvents(max, es, f);
      assert es + f + [e] == es + fs;
      BytesSnoc(es + f, e);
      DoneGrows(max, Bytes(es + f), if e.Chunk? then e.bytes else []);
    }
  }

  class Client {
    const net: NetClient
    const idOf: Text -> Option<int>  // the JSON library's view of a frame's id
    var txMsg: Text
    var txId: int
    var rxMsg: Text
    var reconnectNeeded: bool

    ghost predicate Valid()
      reads this, net, net.framer
    {
      net.Valid()
    }

    constructor (transport: NetClient, ids: Text -> Option<int>)
      requires transport.Valid()
      ensures Valid() && net == transport && idOf == ids && !reconnectNeeded && rxMsg == []
    {
      net, idOf := transport, ids;
      txMsg, txId, rxMsg, reconnectNeeded := [], -1, [], false;
    }

    method StoreRequest(text: Text, id: Option<int>)
      modifies this`txMsg, this`txId
      ensures txMsg == text && txId == if id.Some? then id.value else -1
    {
      txId := -1;
      if id.Some? {
        txId := id.value;
      }
      txMsg := text;
    }

    /** Whether a request is sent, and that everything received before is forgotten then. */
    method SendRequest(connects: bool, backlog: nat, sends: seq<Sending>) returns (rc: int)
      requires Valid()
      modifies this`rxMsg, this`reconnectNeeded, net`connected, net`events, net`wire, net`coming, net`past, net.framer
      ensures Valid() && rxMsg == []
      ensures net.connected == if old(reconnectNeeded) then connects else old(net.connected)
      ensures rc == if net.connected && txMsg != [] && Written(sends, |txMsg|) == |txMsg| then 0 else -1
      ensures reconnectNeeded <==> (old(reconnectNeeded) && !connects) || rc != 0
      ensures rc == 0 ==>
        && net.wire == old(net.wire) + txMsg
        && net.events == net.coming == old(net.events)[LeadingChunks(old(net.events), backlog)..]
        && net.past == [] && net.framer.taken == 0
    {
      if reconnectNeeded {
        var ok := net.Reconnect(connects);
        if ok == 0 {
          reconnectNeeded := false;
        }
      }
      rxMsg := [];
      rc := net.SendData(txMsg, backlog, sends);
      if rc != 0 {
        reconnectNeeded := true;
      }
      assert txMsg[..|txMsg|] == txMsg;
    }

    ghost function Done(): seq<Text>
      reads net, net.framer
    {
      net.framer.Pass().done
    }

    /** The last frame handed out is the first one that fits, and it is kept. */
    ghost predicate Answered(rc: int, first: nat)
      reads this, net, net.framer
    {
      var n := net.framer.taken;
      && rc == |rxMsg| && !reconnectNeeded && Fits(idOf, txId, rxMsg)
      && first < n <= |Done()| && rxMsg == Done()[n - 1] && SelfDelimiting(rxMsg)
      && Skipped(idOf, txId, Done(), first, n - 1)
    }

    // since the wait began with `start`, only frames of the event that came last are left
    ghost predicate Prompt(start: seq<Event>)
      reads net, net.framer
    {
      var n, es := net.framer.taken, net.past;
      || es == start || net.AllTaken()
      || (es != [] && |Frame(net.framer.maxMsg, Bytes(es[..|es| - 1])).done| < n)
    }

    /** The wait is over without an answer: no frame handed out fits, and then the deadline
        came, or nothing more comes, or the stream is lost. */
    ghost predicate GaveUp(first: nat, start: seq<Event>)
      reads this, net, net.framer
    {
      && first <= net.framer.taken && Skipped(idOf, txId, Done(), first, net.framer.taken)
      && (|| (net.events != [] && net.events[0].Late? && Prompt(start))
          || (net.events == [] && net.AllTaken())
          || (net.AllTaken() && (net.framer.error || (net.past != [] && net.past[|net.past| - 1].Hangup?))))
    }

    // one round of the wait: a frame that fits, a frame for someone else, or no frame
    method Round(ghost first: nat, ghost start: seq<Event>) returns (got: int)
      requires Valid() && first <= net.framer.taken
      requires Skipped(idOf, txId, Done(), first, net.framer.taken)
      modifies this`rxMsg, net`events, net`past, net.framer
      ensures Valid() && net.coming == old(net.coming) && old(net.past) <= net.past
      ensures Skipped(idOf, txId, Done(), first, old(net.framer.taken))
      ensures got < 0 ==> (got == -1 || got == -2) && rxMsg == [] && net.framer.taken == old(net.framer.taken)
      ensures got < 0 && net.connected ==> GaveUp(first, start)
      ensures got >= 0 ==> net.framer.taken == old(net.framer.taken) + 1 <= |Done()|
      ensures got >= 0 ==> rxMsg == Done()[old(net.framer.taken)] && SelfDelimiting(rxMsg) && rxMsg != []
      ensures got >= 0 && old(Prompt(start)) && start <= old(net.past) ==> Prompt(start)
      ensures |net.events| < |old(net.events)| || (net.past == old(net.past) && Done() == old(Done()))
    {
      hide Frame, NestOf, Bytes, Fits, JsonStreamFramer.Valid;
      ghost var was, n := net.past, net.framer.taken;
      got, rxMsg := net.ReceiveJson();
      ghost var more := net.past[|was|..];
      assert was + more == net.past;
      MoreEvents(net.framer.maxMsg, was, more);
      FrameIsGood(net.framer.maxMsg, net.framer.fed);
    }

    /** receive_response after send_request: -1 with nothing, or the first frame that fits. */
    method ReceiveResponse() returns (rc: int)
      requires Valid() && rxMsg == []
      modifies this`rxMsg, this`reconnectNeeded, net`events, net`past, net.framer
      ensures Valid() && net.coming == old(net.coming) && old(net.past) <= net.past
      ensures rc >= 0 ==> Answered(rc, old(net.framer.taken))
      ensures rc < 0 ==> rc == -1 && rxMsg == []
      ensures rc < 0 && !old(reconnectNeeded) && net.connected ==> GaveUp(old(net.framer.taken), old(net.past))
      ensures old(reconnectNeeded) ==> rc == -1
    {
      hide Frame, NestOf, JsonStreamFramer.Valid, SelfDelimiting, Bytes;
      ghost var first, start := net.framer.taken, net.past;
      TakenWithin(net.framer);
      while net.events == [] || !net.events[0].Late?
        invariant Valid() && rxMsg == [] && reconnectNeeded == old(reconnectNeeded)
        invariant first <= net.framer.taken && Skipped(idOf, txId, Done(), first, net.framer.taken)
        invariant Prompt(start) && net.coming == old(net.coming) && start <= net.past
        decreases |net.events|, |Done()| - net.framer.taken
      {
        var got := Round(first, start);
        if got == -2 {
          reconnectNeeded := true;
          break;
        }
        if got < 0 || txId < 0 {
          break;
        }
        var id := idOf(rxMsg);
        if id.None? || id.value == txId {
          break;
        }
        rxMsg := [];
      }
      if rxMsg != [] && !reconnectNeeded {
        return |rxMsg|;
      }
      rxMsg := [];
      return -1;
    }

    /** A call, with whatever the previous ones have left behind.  When the request could be
        sent, the answer is looked for in exactly the bytes of the events that came after it;
        without one, the wait has been given up for a reason. */
    method Call(text: Text, id: Option<int>, connects: bool, backlog: nat, sends: seq<Sending>) returns (rc: int)
      requires Valid()
      modifies this, net`connected, net`events, net`wire, net`coming, net`past, net.framer
      ensures Valid() && txId == if id.Some? then id.value else -1
      ensures rc == -1 || rc >= 0
      ensures rc == -1 ==> rxMsg == []
      ensures net.connected == if old(reconnectNeeded) then connects else old(net.connected)
      ensures var sent := net.connected && text != [] && Written(sends, |text|) == |text|;
        && (!sent ==> rc == -1)
        && (sent ==>
              && net.wire == old(net.wire) + text
              && net.coming == old(net.events)[LeadingChunks(old(net.events), backlog)..]
              && if rc >= 0 then Answered(rc, 0) else GaveUp(0, []))
      // with an id, an answer never carries another one, and only frames that do are passed over
      ensures rc >= 0 && id.Some? && id.value >= 0 ==>
        && (idOf(rxMsg).None? || idOf(rxMsg) == id)
        && (forall i :: 0 <= i < net.framer.taken - 1 ==> idOf(Done()[i]).Some? && idOf(Done()[i]) != id)
    {
      StoreRequest(text, id);
      var sent := SendRequest(connects, backlog, sends);
      rc := ReceiveResponse();
    }
  }
}
