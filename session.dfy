/**
 * One relay session (rws/ws.go `Client`): the text normalisation of `receive`, the
 * per-message step of `process`, the self-echo `filter`, and the subscription-set
 * state machine of `listener`. The four loops run concurrently in the source; here
 * each is a sequence of steps on one object.
 */
module Session {
  import opened Wrappers
  import opened Frames
  import opened Dispatch
  import opened Subscription
  import opened Seqs

  // ---------------------------------------------------------------------------
  // receive: newline replacement and trimming
  // ---------------------------------------------------------------------------

  /** Go's `unicode.IsSpace`, the test `bytes.TrimSpace` applies. */
  predicate IsSpace(c: char)
  {
    || c == '\t' || c == '\n' || c == '\U{000B}' || c == '\U{000C}' || c == '\r' || c == ' '
    || c == '\U{0085}' || c == '\U{00A0}' || c == '\U{1680}'
    || ('\U{2000}' <= c <= '\U{200A}')
    || c == '\U{2028}' || c == '\U{2029}' || c == '\U{202F}' || c == '\U{205F}' || c == '\U{3000}'
  }

  /** `r` is `m` with every newline turned into a space. */
  predicate NewlinesReplaced(m: Message, r: Message)
  {
    |r| == |m| && forall i :: 0 <= i < |m| ==> r[i] == (if m[i] == '\n' then ' ' else m[i])
  }

  /** `s` has no newline. */
  predicate NoNewline(s: Message)
  {
    forall i :: 0 <= i < |s| ==> s[i] != '\n'
  }

  /** Every character of `s` is white space. */
  predicate AllSpace(s: Message)
  {
    forall i :: 0 <= i < |s| ==> IsSpace(s[i])
  }

  /** `bytes.Replace(message, newline, space, -1)`. */
  function ReplaceNewlines(m: Message): (r: Message)
    ensures NewlinesReplaced(m, r)
  {
    seq(|m|, i requires 0 <= i < |m| => if m[i] == '\n' then ' ' else m[i])
  }

  /** Drops the leading white space of `s`. */
  function TrimLeft(s: Message): Message
  {
    if s != [] && IsSpace(s[0]) then TrimLeft(s[1..]) else s
  }

  /** What `TrimLeft` drops is a white-space prefix, and what it keeps does not start with one. */
  lemma {:induction false} TrimLeftSpec(s: Message)
    ensures var r := TrimLeft(s);
      && |r| <= |s| && r == s[|s| - |r|..] && AllSpace(s[..|s| - |r|])
      && (r != [] ==> !IsSpace(r[0]))
  {
    if s != [] && IsSpace(s[0]) {
      TrimLeftSpec(s[1..]);
      var r := TrimLeft(s[1..]);
      assert AllSpace(s[..|s| - |r|]) by {
        assert forall i :: 1 <= i < |s| - |r| ==> s[i] == s[1..][..|s| - 1 - |r|][i - 1];
      }
    }
  }

  /** Drops the trailing white space of `s`. */
  function TrimRight(s: Message): Message
  {
    if s != [] && IsSpace(s[|s| - 1]) then TrimRight(s[..|s| - 1]) else s
  }

  /** What `TrimRight` drops is a white-space suffix, and what it keeps does not end with one. */
  lemma {:induction false} TrimRightSpec(s: Message)
    ensures var r := TrimRight(s);
      && |r| <= |s| && r == s[..|r|] && AllSpace(s[|r|..])
      && (r != [] ==> !IsSpace(r[|r| - 1]))
  {
    if s != [] && IsSpace(s[|s| - 1]) {
      TrimRightSpec(s[..|s| - 1]);
      var r := TrimRight(s[..|s| - 1]);
      assert AllSpace(s[|r|..]) by {
        assert forall i :: |r| <= i < |s| - 1 ==> s[i] == s[..|s| - 1][|r|..][i - |r|];
      }
    }
  }

  /** `bytes.TrimSpace`. */
  function TrimSpace(s: Message): Message
  {
    TrimRight(TrimLeft(s))
  }

  /** `r` is `s[a..a + |r|]` and everything of `s` outside it is white space. */
  predicate TrimmedAt(s: Message, r: Message, a: int)
  {
    0 <= a <= |s| - |r| && r == s[a..a + |r|] && AllSpace(s[..a]) && AllSpace(s[a + |r|..])
  }

  /**
   * `bytes.TrimSpace` keeps a contiguous part of `s` that neither starts nor ends with
   * white space, and everything it cuts off on either side is white space.
   */
  lemma TrimSpaceSpec(s: Message)
    ensures var r := TrimSpace(s);
      && (r != [] ==> !IsSpace(r[0]) && !IsSpace(r[|r| - 1]))
      && TrimmedAt(s, r, |s| - |TrimLeft(s)|)
  {
    TrimLeftSpec(s);
    TrimRightSpec(TrimLeft(s));
    TrimmedEnds(TrimLeft(s));
    TrimmedParts(s, TrimLeft(s), TrimSpace(s));
  }

  lemma TrimmedEnds(l: Message)
    requires l != [] ==> !IsSpace(l[0])
    ensures var r := TrimRight(l); r != [] ==> !IsSpace(r[0]) && !IsSpace(r[|r| - 1])
  {
    var r := TrimRight(l);
    TrimRightSpec(l);
    if r != [] {
      assert r[0] == l[0];
    }
  }

  lemma TrimmedParts(s: Message, l: Message, r: Message)
    requires |l| <= |s| && l == s[|s| - |l|..] && AllSpace(s[..|s| - |l|])
    requires |r| <= |l| && r == l[..|r|] && AllSpace(l[|r|..])
    ensures TrimmedAt(s, r, |s| - |l|)
  {
    SliceOfDrop(s, |s| - |l|, |r|);
    DropOfDrop(s, |s| - |l|, |r|);
  }

  /** The normalisation of one inbound message in `receive`. */
  function Normalise(m: Message): Message
  {
    TrimSpace(ReplaceNewlines(m))
  }

  /**
   * A normalised message has no newline and neither starts nor ends with white space;
   * it is what is left of the message, newlines turned to spaces, once the white space
   * around it is cut off.
   */
  lemma NormaliseSpec(m: Message)
    ensures var x, r := ReplaceNewlines(m), Normalise(m);
      && NoNewline(r)
      && (r != [] ==> !IsSpace(r[0]) && !IsSpace(r[|r| - 1]))
      && TrimmedAt(x, r, |x| - |TrimLeft(x)|)
  {
    var x := ReplaceNewlines(m);
    TrimSpaceSpec(x);
    NoNewlineAfterReplace(m);
    NoNewlineAfterTrim(x);
  }

  lemma NoNewlineAfterReplace(m: Message)
    ensures NoNewline(ReplaceNewlines(m))
  {
    var r := ReplaceNewlines(m);
    forall i | 0 <= i < |r| ensures r[i] != '\n' {
    }
  }

  lemma NoNewlineAfterTrim(s: Message)
    requires NoNewline(s)
    ensures NoNewline(TrimSpace(s))
  {
    var r := TrimSpace(s);
    var a := |s| - |TrimLeft(s)|;
    TrimSpaceSpec(s);
    forall i | 0 <= i < |r| ensures r[i] != '\n' {
      assert r[i] == s[a + i];
    }
  }

  /** The messages `receive` forwards to the inbound queue, given the messages it read. */
  function Accepted(lines: seq<Message>): (r: seq<Message>)
    ensures |r| <= |lines|
  {
    if lines == [] then []
    else
      var n := Normalise(lines[0]);
      (if n != [] then [n] else []) + Accepted(lines[1..])
  }

  /** Forwarding keeps arrival order: the messages of a longer read sequence extend those of a prefix. */
  lemma {:induction false} AcceptedAppend(a: seq<Message>, b: seq<Message>)
    ensures Accepted(a + b) == Accepted(a) + Accepted(b)
  {
    if a == [] {
      EmptyConcat(a, b);
    } else {
      DropConcat(a, b);
      AcceptedAppend(a[1..], b);
    }
  }

  /** Every forwarded message is non-empty, has no newline and is trimmed. */
  lemma {:induction false} AcceptedWellFormed(lines: seq<Message>)
    ensures forall x :: x in Accepted(lines) ==>
      x != [] && NoNewline(x) && !IsSpace(x[0]) && !IsSpace(x[|x| - 1])
  {
    if lines != [] {
      NormaliseSpec(lines[0]);
      AcceptedWellFormed(lines[1..]);
    }
  }

  /** The reading loop of `receive`: normalises each message read and keeps the non-empty ones. */
  method ReadLoop(lines: seq<Message>) returns (forwarded: seq<Message>)
    ensures forwarded == Accepted(lines)
  {
    forwarded := [];
    var i := 0;
    while i < |lines|
      invariant 0 <= i <= |lines|
      invariant forwarded + Accepted(lines[i..]) == Accepted(lines)
    {
      var message := Normalise(lines[i]);
      ReadStep(forwarded, lines, i);
      if message != [] {
        forwarded := forwarded + [message];
      }
      i := i + 1;
    }
  }

  /** Reading `lines[i]` moves its normalised text, when non-empty, from what is due to what is forwarded. */
  lemma ReadStep(forwarded: seq<Message>, lines: seq<Message>, i: nat)
    requires i < |lines|
    ensures Normalise(lines[i]) != [] ==>
      (forwarded + [Normalise(lines[i])]) + Accepted(lines[i + 1..]) == forwarded + Accepted(lines[i..])
    ensures Normalise(lines[i]) == [] ==> forwarded + Accepted(lines[i + 1..]) == forwarded + Accepted(lines[i..])
  {
    var n := Normalise(lines[i]);
    var rest := Accepted(lines[i + 1..]);
    DropFrom(lines, i);
    AcceptedCons(lines[i..]);
    if n != [] {
      Assoc(forwarded, [n], rest);
    } else {
      EmptyConcat([], rest);
    }
  }

  lemma AcceptedCons(lines: seq<Message>)
    requires lines != []
    ensures Accepted(lines) == (if Normalise(lines[0]) != [] then [Normalise(lines[0])] else []) + Accepted(lines[1..])
  {
  }

  // ---------------------------------------------------------------------------
  // process: dispatch of one message
  // ---------------------------------------------------------------------------

  /**
   * The value `process` has to send for `action`; `runApp` gives the result of an
   * application handler. The built-in handlers always return nil.
   */
  function Output(action: Action, runApp: (string, Frame) -> Option<Value>): (out: Option<Value>)
    ensures action.Reply? ==> out == Some(Obj(action.frame))
    ensures action.Silent? ==> out == None
    ensures action.Run? && !action.handler.AppHandler? ==> out == None
    ensures action.Run? && action.handler.AppHandler? ==> out == runApp(action.handler.name, action.input)
  {
    match action
    case Reply(f) => Some(Obj(f))
    case Silent => None
    case Run(h, input) =>
      match h
      case AppHandler(name) => runApp(name, input)
      case _ => None
  }

  /** What is enqueued for an output: nothing for nil or when `json.Marshal` fails. */
  function Emit(marshal: Value -> Option<Message>, out: Option<Value>): (r: seq<Message>)
    ensures |r| <= 1
    ensures r != [] <==> out.Some? && marshal(out.value).Some?
    ensures r != [] ==> r[0] == marshal(out.value).value
  {
    if out.None? then []
    else match marshal(out.value)
      case None => []
      case Some(b) => [b]
  }

  /** The bus calls a dispatched action makes (in the model, only the built-in handlers make any). */
  function HandlerCalls(action: Action): (r: seq<BusCall>)
    ensures !action.Run? ==> r == []
    ensures action.Run? && action.handler.AppHandler? ==> r == []
    ensures action.Run? && action.handler == SubscribeHandler ==> r == SubscribeCalls(action.input)
    ensures action.Run? && action.handler == UnsubscribeHandler ==> r == UnsubscribeCalls(action.input)
  {
    match action
    case Run(SubscribeHandler, input) => SubscribeCalls(input)
    case Run(UnsubscribeHandler, input) => UnsubscribeCalls(input)
    case _ => []
  }

  /** Everything `process` enqueues for a run of inbound messages, in order. */
  function Replies(msgs: seq<Message>, handlers: map<string, Handler>, parse: Message -> Option<Frame>,
                   marshal: Value -> Option<Message>, runApp: (string, Frame) -> Option<Value>): (r: seq<Message>)
    ensures |r| <= |msgs|
  {
    if msgs == [] then []
    else
      Emit(marshal, Output(Decide(handlers, parse(msgs[0])), runApp))
      + Replies(msgs[1..], handlers, parse, marshal, runApp)
  }

  /** Every bus call `process` makes for a run of inbound messages, in order. */
  function Calls(msgs: seq<Message>, handlers: map<string, Handler>, parse: Message -> Option<Frame>): seq<BusCall>
  {
    if msgs == [] then []
    else HandlerCalls(Decide(handlers, parse(msgs[0]))) + Calls(msgs[1..], handlers, parse)
  }

  lemma {:induction false} RepliesAppend(a: seq<Message>, b: seq<Message>, handlers: map<string, Handler>,
                                         parse: Message -> Option<Frame>, marshal: Value -> Option<Message>,
                                         runApp: (string, Frame) -> Option<Value>)
    ensures Replies(a + b, handlers, parse, marshal, runApp)
         == Replies(a, handlers, parse, marshal, runApp) + Replies(b, handlers, parse, marshal, runApp)
  {
    if a == [] {
      EmptyConcat(a, b);
    } else {
      DropConcat(a, b);
      RepliesAppend(a[1..], b, handlers, parse, marshal, runApp);
    }
  }

  lemma {:induction false} CallsAppend(a: seq<Message>, b: seq<Message>, handlers: map<string, Handler>,
                                       parse: Message -> Option<Frame>)
    ensures Calls(a + b, handlers, parse) == Calls(a, handlers, parse) + Calls(b, handlers, parse)
  {
    if a == [] {
      EmptyConcat(a, b);
    } else {
      DropConcat(a, b);
      CallsAppend(a[1..], b, handlers, parse);
    }
  }

  /** Handling the head of `queue` moves its output from what is still due to what is done. */
  lemma ProcessedStep(out: seq<Message>, calls: seq<BusCall>, queue: seq<Message>, handlers: map<string, Handler>,
                      parse: Message -> Option<Frame>, marshal: Value -> Option<Message>,
                      runApp: (string, Frame) -> Option<Value>)
    requires queue != []
    ensures var a := Decide(handlers, parse(queue[0]));
      && (out + Emit(marshal, Output(a, runApp))) + Replies(queue[1..], handlers, parse, marshal, runApp)
         == out + Replies(queue, handlers, parse, marshal, runApp)
      && (calls + HandlerCalls(a)) + Calls(queue[1..], handlers, parse) == calls + Calls(queue, handlers, parse)
  {
    var a := Decide(handlers, parse(queue[0]));
    Assoc(out, Emit(marshal, Output(a, runApp)), Replies(queue[1..], handlers, parse, marshal, runApp));
    Assoc(calls, HandlerCalls(a), Calls(queue[1..], handlers, parse));
  }

  /** A message that does not decode is answered with a 400 "Invalid Request" error frame. */
  lemma MalformedIsInvalidRequest(handlers: map<string, Handler>, runApp: (string, Frame) -> Option<Value>)
    ensures Output(Decide(handlers, None), runApp)
      == Some(Obj(map["type" := Str("error"), "code" := Str("400"), "msg" := Str("Invalid Request")]))
  {
    var f := NewError("400", InvalidRequest);
    var g := map["type" := Str("error"), "code" := Str("400"), "msg" := Str("Invalid Request")];
    assert f.Keys == g.Keys;
    assert f == g;
  }

  /** The `{"type":"bogus"}` scenario: an unregistered type is answered with 400 "Unknown Request 'bogus'". */
  lemma UnknownTypeScenario(handlers: map<string, Handler>, runApp: (string, Frame) -> Option<Value>)
    requires "bogus" !in handlers
    ensures Output(Decide(handlers, Some(map["type" := Str("bogus")])), runApp)
      == Some(Obj(map["type" := Str("error"), "code" := Str("400"), "msg" := Str("Unknown Request 'bogus'")]))
  {
    var input := map["type" := Str("bogus")];
    assert TypeOf(input) == Some("bogus");
    var f := NewError("400", UnknownRequest("bogus"));
    var g := map["type" := Str("error"), "code" := Str("400"), "msg" := Str("Unknown Request 'bogus'")];
    assert UnknownRequest("bogus") == "Unknown Request 'bogus'";
    assert f.Keys == g.Keys;
    assert f == g;
  }

  // ---------------------------------------------------------------------------
  // listener: self-echo filter and forwarding
  // ---------------------------------------------------------------------------

  /** The frame carries a string `sender` equal to `id`. */
  predicate SentBy(f: Frame, id: string)
  {
    "sender" in f && f["sender"] == Str(id)
  }

  /** `filter`: drops data that does not decode or that this client sent itself. */
  function Filter(id: string, data: Message, parse: Message -> Option<Frame>): (r: Option<Message>)
    ensures r.Some? <==> parse(data).Some? && !SentBy(parse(data).value, id)
    ensures r.Some? ==> r.value == data
  {
    match parse(data)
    case None => None
    case Some(m) => if "sender" in m && m["sender"].Str? && m["sender"].s == id then None else Some(data)
  }

  /**
   * What the listener enqueues for a bus data message; `data` is None for a nil
   * payload, which `json.Unmarshal` rejects.
   */
  function Forward(filterOut: bool, id: string, data: Option<Message>, parse: Message -> Option<Frame>): (r: Option<Message>)
    ensures !filterOut ==> r == data
    ensures r.Some? ==> r == data
    ensures filterOut && data.Some? ==> r == Filter(id, data.value, parse)
    ensures filterOut && data.None? ==> r.None?
  {
    if !filterOut then data
    else if data.None? then None
    else Filter(id, data.value, parse)
  }

  /** With suppression on, data this client sent is never forwarded back to it. */
  lemma NoSelfEcho(id: string, data: Message, parse: Message -> Option<Frame>)
    requires parse(data).Some? && SentBy(parse(data).value, id)
    ensures Forward(true, id, Some(data), parse) == None
  {
  }

  // ---------------------------------------------------------------------------
  // listener: subscription set
  // ---------------------------------------------------------------------------

  /** The private channel every session listens on. */
  function PrivateChannel(id: string): string
  {
    "client:" + id
  }

  predicate IsSubscribeKind(kind: string)
  {
    kind == "subscribe" || kind == "psubscribe"
  }

  predicate IsUnsubscribeKind(kind: string)
  {
    kind == "unsubscribe" || kind == "punsubscribe"
  }

  /** The subscription set after one acknowledgement. */
  function Acked(cmap: set<string>, kind: string, channel: string): (r: set<string>)
    ensures IsSubscribeKind(kind) ==> channel in r
    ensures IsUnsubscribeKind(kind) ==> channel !in r
    ensures forall ch :: ch != channel ==> (ch in r <==> ch in cmap)
    ensures !IsSubscribeKind(kind) && !IsUnsubscribeKind(kind) ==> r == cmap
  {
    if IsSubscribeKind(kind) then cmap + {channel}
    else if IsUnsubscribeKind(kind) then cmap - {channel}
    else cmap
  }

  /** An acknowledgement from the bus: its kind, its channel and the remaining count. */
  datatype Ack = Ack(kind: string, channel: string, count: int)

  /** The subscription set after a run of acknowledgements. */
  function AckedAll(cmap: set<string>, acks: seq<Ack>): set<string>
    decreases |acks|
  {
    if acks == [] then cmap else AckedAll(Acked(cmap, acks[0].kind, acks[0].channel), acks[1..])
  }

  /** Index of the last acknowledgement of `acks` that adds or removes `ch`, or -1. */
  function LastAckFor(acks: seq<Ack>, ch: string): (r: int)
    ensures -1 <= r < |acks|
    ensures r >= 0 ==> acks[r].channel == ch && (IsSubscribeKind(acks[r].kind) || IsUnsubscribeKind(acks[r].kind))
    ensures forall k :: r < k < |acks| ==>
      !(acks[k].channel == ch && (IsSubscribeKind(acks[k].kind) || IsUnsubscribeKind(acks[k].kind)))
  {
    if acks == [] then -1
    else
      var last := acks[|acks| - 1];
      if last.channel == ch && (IsSubscribeKind(last.kind) || IsUnsubscribeKind(last.kind)) then |acks| - 1
      else LastAckFor(acks[..|acks| - 1], ch)
  }

  lemma {:induction false} AckedAllSnoc(cmap: set<string>, acks: seq<Ack>, a: Ack)
    ensures AckedAll(cmap, acks + [a]) == Acked(AckedAll(cmap, acks), a.kind, a.channel)
    decreases |acks|
  {
    if acks != [] {
      assert (acks + [a])[1..] == acks[1..] + [a];
      AckedAllSnoc(Acked(cmap, acks[0].kind, acks[0].channel), acks[1..], a);
    }
  }

  /**
   * The set is authoritative after the acknowledgements: a channel is in it exactly
   * when its last acknowledgement was a subscribe, or it had none and was there before.
   */
  lemma {:induction false} AckedAllMembership(cmap: set<string>, acks: seq<Ack>, ch: string)
    ensures var k := LastAckFor(acks, ch);
      ch in AckedAll(cmap, acks) <==> (if k < 0 then ch in cmap else IsSubscribeKind(acks[k].kind))
  {
    if acks != [] {
      var init, last := acks[..|acks| - 1], acks[|acks| - 1];
      assert acks == init + [last];
      AckedAllSnoc(cmap, init, last);
      AckedAllMembership(cmap, init, ch);
    }
  }

  /** The subscribe calls a new pass makes for the set enumerated as `order`, up to the first failure. */
  function PassCalls(order: seq<string>, fails: seq<bool>): (r: seq<BusCall>)
    requires |fails| == |order|
    ensures |r| <= |order|
    ensures forall c :: c in r ==> c.SubscribeCall? && |c.channels| == 1 && c.channels[0] in order
  {
    if order == [] then []
    else [SubscribeCall([order[0]])] + (if fails[0] then [] else PassCalls(order[1..], fails[1..]))
  }

  /** One single-channel subscribe call per channel of `chs`, in order. */
  function OneEach(chs: seq<string>): (r: seq<BusCall>)
    ensures |r| == |chs|
    ensures forall i :: 0 <= i < |chs| ==> r[i] == SubscribeCall([chs[i]])
  {
    if chs == [] then [] else [SubscribeCall([chs[0]])] + OneEach(chs[1..])
  }

  lemma OneEachSnoc(chs: seq<string>, ch: string)
    ensures OneEach(chs + [ch]) == OneEach(chs) + [SubscribeCall([ch])]
  {
    var a, b := OneEach(chs + [ch]), OneEach(chs) + [SubscribeCall([ch])];
    assert |a| == |b|;
    forall i | 0 <= i < |a| ensures a[i] == b[i] { }
  }

  /** While no call has failed, a pass has made one call per channel enumerated so far. */
  lemma {:induction false} PassCallsSplit(order: seq<string>, fails: seq<bool>, i: nat)
    requires |fails| == |order| && i <= |order| && true !in fails[..i]
    ensures PassCalls(order, fails) == OneEach(order[..i]) + PassCalls(order[i..], fails[i..])
  {
    if i > 0 {
      TailSlices(order, i);
      TailSlices(fails, i);
      PassCallsSplit(order[1..], fails[1..], i - 1);
    }
  }

  /** A pass with no failures subscribes every channel of the set, one call each. */
  lemma PassCallsCoverSet(order: seq<string>, fails: seq<bool>)
    requires |fails| == |order| && true !in fails
    ensures PassCalls(order, fails) == OneEach(order)
    ensures forall ch :: ch in order <==> SubscribeCall([ch]) in PassCalls(order, fails)
  {
    assert fails[..|order|] == fails;
    PassCallsSplit(order, fails, |order|);
    assert order[..|order|] == order;
    forall ch | SubscribeCall([ch]) in OneEach(order) ensures ch in order {
      var i :| 0 <= i < |order| && OneEach(order)[i] == SubscribeCall([ch]);
    }
  }

  /** A failing pass stops right after the call that failed. */
  lemma PassCallsStopAtFailure(order: seq<string>, fails: seq<bool>, k: nat)
    requires |fails| == |order| && k < |order| && fails[k] && true !in fails[..k]
    ensures PassCalls(order, fails) == OneEach(order[..k + 1])
  {
    PassCallsSplit(order, fails, k);
    assert order[k..][1..] == order[k + 1..];
    OneEachSnoc(order[..k], order[k]);
    assert order[..k] + [order[k]] == order[..k + 1];
  }

  predicate NoDuplicates(s: seq<string>)
  {
    forall i, j :: 0 <= i < j < |s| ==> s[i] != s[j]
  }

  /** A session: its queues, its bus connection and the listener's subscription set. */
  class Client {
    const id: string
    const psc: PubSub
    var inbound: seq<Message>
    var outbound: seq<Message>
    /** The channels the bus has confirmed (`cmap`). */
    var cmap: set<string>
    /** A listening pass is running. */
    var listening: bool
    /** The listener has returned. */
    var stopped: bool

    /** The session as `ServeWS` and the start of `listener` set it up. */
    constructor (id: string)
      ensures this.id == id && fresh(psc) && psc.calls == []
      ensures inbound == [] && outbound == []
      ensures cmap == {PrivateChannel(id)}
      ensures !listening && !stopped
    {
      this.id := id;
      psc := new PubSub();
      inbound, outbound := [], [];
      cmap := {PrivateChannel(id)};
      listening, stopped := false, false;
    }

    /** `receive` over the messages read before the connection closed. */
    method Receive(lines: seq<Message>)
      modifies this
      ensures inbound == old(inbound) + Accepted(lines)
      ensures outbound == old(outbound) && cmap == old(cmap)
      ensures listening == old(listening) && stopped == old(stopped)
    {
      var forwarded := ReadLoop(lines);
      inbound := inbound + forwarded;
    }

    /**
     * One turn of `process`: takes the next inbound message, decodes it with `parse`,
     * dispatches it and enqueues the encoded output, if any. `busFails` is the bus's
     * answer to a built-in handler's call.
     */
    method ProcessNext(d: Dispatcher, parse: Message -> Option<Frame>, marshal: Value -> Option<Message>,
                       runApp: (string, Frame) -> Option<Value>, busFails: bool)
      requires inbound != []
      modifies this, psc
      ensures inbound == old(inbound)[1..]
      ensures outbound == old(outbound) + Emit(marshal, Output(Decide(d.handlers, parse(old(inbound)[0])), runApp))
      ensures psc.calls == old(psc.calls) + HandlerCalls(Decide(d.handlers, parse(old(inbound)[0])))
      ensures cmap == old(cmap) && listening == old(listening) && stopped == old(stopped)
    {
      var message := inbound[0];
      inbound := inbound[1..];
      var output: Option<Value> := None;
      var input := parse(message);
      if input.None? {
        output := Some(Obj(NewError("400", InvalidRequest)));
      } else if "type" in input.value && input.value["type"].Str? {
        var t := input.value["type"].s;
        var f := d.Resolve(t);
        if f.Some? {
          match f.value
          case SubscribeHandler =>
            output := Subscribe(psc, input.value, busFails);
          case UnsubscribeHandler =>
            output := Unsubscribe(psc, input.value, busFails);
          case AppHandler(name) =>
            output := runApp(name, input.value);
        } else {
          output := Some(Obj(NewError("400", UnknownRequest(t))));
        }
      }
      if output.Some? {
        var response := marshal(output.value);
        if response.Some? {
          outbound := outbound + [response.value];
        }
      }
    }

    /** `process` draining every message queued so far, in order. */
    method ProcessPending(d: Dispatcher, parse: Message -> Option<Frame>, marshal: Value -> Option<Message>,
                          runApp: (string, Frame) -> Option<Value>, busFails: bool)
      modifies this, psc
      ensures inbound == []
      ensures outbound == old(outbound) + Replies(old(inbound), d.handlers, parse, marshal, runApp)
      ensures psc.calls == old(psc.calls) + Calls(old(inbound), d.handlers, parse)
      ensures cmap == old(cmap) && listening == old(listening) && stopped == old(stopped)
    {
      while inbound != []
        invariant outbound + Replies(inbound, d.handlers, parse, marshal, runApp)
               == old(outbound) + Replies(old(inbound), d.handlers, parse, marshal, runApp)
        invariant psc.calls + Calls(inbound, d.handlers, parse) == old(psc.calls) + Calls(old(inbound), d.handlers, parse)
        invariant cmap == old(cmap) && listening == old(listening) && stopped == old(stopped)
        decreases |inbound|
      {
        ghost var before, calls, queue := outbound, psc.calls, inbound;
        ProcessNext(d, parse, marshal, runApp, busFails);
        ProcessedStep(before, calls, queue, d.handlers, parse, marshal, runApp);
      }
    }

    /**
     * The start of a listening pass: subscribes every channel of the set, enumerated
     * as `order` (Go's map order), stopping at the first call that fails (`fails`).
     */
    method StartPass(order: seq<string>, fails: seq<bool>) returns (err: bool)
      requires !listening && !stopped
      requires |fails| == |order| && NoDuplicates(order)
      requires forall ch :: ch in cmap <==> ch in order
      modifies this, psc
      ensures psc.calls == old(psc.calls) + PassCalls(order, fails)
      ensures err == (true in fails)
      ensures listening == !err
      ensures cmap == old(cmap) && inbound == old(inbound) && outbound == old(outbound) && !stopped
    {
      err := false;
      var i := 0;
      while i < |order| && !err
        invariant 0 <= i <= |order|
        invariant !err ==> true !in fails[..i]
        invariant err ==> i > 0 && fails[i - 1] && true !in fails[..i - 1]
        invariant psc.calls == old(psc.calls) + OneEach(order[..i])
        invariant cmap == old(cmap) && inbound == old(inbound) && outbound == old(outbound) && !stopped
        invariant listening == old(listening)
        decreases |order| - i
      {
        assert fails[..i + 1] == fails[..i] + [fails[i]];
        OneEachSnoc(order[..i], order[i]);
        assert order[..i] + [order[i]] == order[..i + 1];
        err := psc.Send(SubscribeCall([order[i]]), fails[i]);
        i := i + 1;
      }
      if err {
        PassCallsStopAtFailure(order, fails, i - 1);
        assert true in fails by { assert fails[i - 1] == true; }
      } else {
        assert fails[..i] == fails;
        PassCallsCoverSet(order, fails);
        assert order[..i] == order;
      }
      listening := !err;
    }

    /**
     * A data message from the bus during a pass: forwarded to the outbound queue as
     * `Forward` decides (self-echo suppression when `filterOut`).
     */
    method OnMessage(data: Option<Message>, filterOut: bool, parse: Message -> Option<Frame>)
      requires listening
      modifies this
      ensures outbound == old(outbound) + (match Forward(filterOut, id, data, parse)
                                           case Some(m) => [m]
                                           case None => [])
      ensures inbound == old(inbound) && cmap == old(cmap)
      ensures listening && stopped == old(stopped)
    {
      if filterOut {
        if data.Some? {
          var kept := Filter(id, data.value, parse);
          if kept.Some? {
            outbound := outbound + [kept.value];
          }
        }
      } else if data.Some? {
        outbound := outbound + [data.value];
      }
    }

    /**
     * A subscription acknowledgement during a pass: the set follows the bus, and an
     * unsubscribe acknowledgement with no subscriptions left ends the pass.
     */
    method OnSubscription(kind: string, channel: string, count: int)
      requires listening
      modifies this
      ensures cmap == Acked(old(cmap), kind, channel)
      ensures listening == !(IsUnsubscribeKind(kind) && count == 0)
      ensures inbound == old(inbound) && outbound == old(outbound) && stopped == old(stopped)
    {
      if kind == "subscribe" || kind == "psubscribe" {
        cmap := cmap + {channel};
      } else if kind == "unsubscribe" || kind == "punsubscribe" {
        cmap := cmap - {channel};
        if count == 0 {
          listening := false;
        }
      }
    }

    /**
     * An error from `Receive` during a pass. It is only logged; the pass goes on unless
     * the connection itself has failed (`connFailed`, Go's `rconn.Err() != nil`).
     */
    method OnError(connFailed: bool)
      requires listening
      modifies this
      ensures listening == !connFailed
      ensures cmap == old(cmap) && inbound == old(inbound) && outbound == old(outbound)
      ensures stopped == old(stopped)
    {
      if connFailed {
        listening := false;
      }
    }

    /**
     * The end of a pass: the connection is closed and the listener returns if the
     * receiver has signalled `done`; otherwise a new pass follows with the same set.
     */
    method EndPass(doneSignalled: bool)
      requires !listening && !stopped
      modifies this
      ensures stopped == doneSignalled
      ensures !listening && cmap == old(cmap) && inbound == old(inbound) && outbound == old(outbound)
    {
      stopped := doneSignalled;
    }
  }
}
