/**
 * The built-in `subscribe` and `unsubscribe` handlers (rws/subscription.go) and the
 * bus connection they talk to, modelled as the log of calls made on it.
 */
module Subscription {
  import opened Wrappers
  import opened Frames
  import opened Seqs

  /** The topic prefix, fixed in the source rather than configurable. */
  const TopicPrefix: string := "sheet:"

  /** The pattern the unsubscribe handler's fallback `PUnsubscribe` is sent with. */
  const AllTopics: string := "sheet:*"

  /** One call made on the bus connection (redigo's `PubSubConn`). */
  datatype BusCall =
    | SubscribeCall(channels: seq<string>)
    | UnsubscribeCall(channels: seq<string>)
    | PUnsubscribeCall(patterns: seq<string>)

  /** The session's bus connection, seen through the calls made on it in order. */
  class PubSub {
    var calls: seq<BusCall>

    constructor ()
      ensures calls == []
    {
      calls := [];
    }

    /**
     * Makes one call on the bus; `fails` is the transport's answer (true: the call
     * returned an error). The call is made, and logged, either way.
     */
    method Send(call: BusCall, fails: bool) returns (err: bool)
      modifies this
      ensures calls == old(calls) + [call]
      ensures err == fails
    {
      calls := calls + [call];
      err := fails;
    }
  }

  /**
   * An element of a topic list that the handlers keep: its `%v` text starts with
   * "sheet:". Go renders every non-string JSON value starting with "<nil>", "true",
   * "false", a digit, "-", "[" or "map[", so only strings can qualify.
   */
  predicate Eligible(v: Value)
  {
    v.Str? && TopicPrefix <= v.s
  }

  /** The texts of the eligible elements of `chs`, in their original order. */
  function EligibleTopics(chs: seq<Value>): (r: seq<string>)
    ensures |r| <= |chs|
    ensures forall t :: t in r <==> Str(t) in chs && TopicPrefix <= t
  {
    if chs == [] then []
    else
      var rest := EligibleTopics(chs[1..]);
      assert chs == [chs[0]] + chs[1..];
      if Eligible(chs[0]) then [chs[0].s] + rest else rest
  }

  /** Filtering distributes over concatenation, so the kept elements keep their order. */
  lemma {:induction false} EligibleTopicsAppend(a: seq<Value>, b: seq<Value>)
    ensures EligibleTopics(a + b) == EligibleTopics(a) + EligibleTopics(b)
  {
    if a == [] {
      EmptyConcat(a, b);
    } else {
      DropConcat(a, b);
      EligibleTopicsAppend(a[1..], b);
    }
  }

  /** The `for` loop of both handlers that appends the eligible elements to `topics`. */
  method CollectTopics(chs: seq<Value>) returns (topics: seq<string>)
    ensures topics == EligibleTopics(chs)
  {
    topics := [];
    var i := 0;
    while i < |chs|
      invariant 0 <= i <= |chs|
      invariant topics == EligibleTopics(chs[..i])
    {
      assert chs[..i + 1] == chs[..i] + [chs[i]];
      EligibleTopicsAppend(chs[..i], [chs[i]]);
      if Eligible(chs[i]) {
        topics := topics + [chs[i].s];
      }
      i := i + 1;
    }
    assert chs[..i] == chs;
  }

  /** The bus calls `Subscribe` makes for request `req`. */
  function SubscribeCalls(req: Frame): (r: seq<BusCall>)
    ensures |r| <= 1
    ensures forall c :: c in r ==> c.SubscribeCall? && c.channels != []
    ensures ("topic" !in req || !(req["topic"].Str? || req["topic"].Arr?)) ==> r == []
    ensures "topic" in req && req["topic"].Str? ==>
      r == (if TopicPrefix <= req["topic"].s then [SubscribeCall([req["topic"].s])] else [])
    ensures "topic" in req && req["topic"].Arr? ==>
      r == (if EligibleTopics(req["topic"].items) == [] then []
            else [SubscribeCall(EligibleTopics(req["topic"].items))])
  {
    if "topic" !in req then []
    else
      match req["topic"]
      case Str(ch) => if TopicPrefix <= ch then [SubscribeCall([ch])] else []
      case Arr(chs) =>
        var topics := EligibleTopics(chs);
        if topics != [] then [SubscribeCall(topics)] else []
      case _ => []
  }

  /** The bus calls `Unsubscribe` makes for request `req`. */
  function UnsubscribeCalls(req: Frame): (r: seq<BusCall>)
    ensures |r| <= 1
    ensures forall c :: c in r ==> !c.SubscribeCall?
    ensures ("topic" !in req || !(req["topic"].Str? || req["topic"].Arr?)) ==> r == []
    ensures "topic" in req && req["topic"].Str? ==>
      r == (if TopicPrefix <= req["topic"].s then [UnsubscribeCall([req["topic"].s])] else [])
    ensures "topic" in req && req["topic"].Arr? ==>
      r == (if EligibleTopics(req["topic"].items) == [] then [PUnsubscribeCall([AllTopics])]
            else [UnsubscribeCall(EligibleTopics(req["topic"].items))])
  {
    if "topic" !in req then []
    else
      match req["topic"]
      case Str(ch) => if TopicPrefix <= ch then [UnsubscribeCall([ch])] else []
      case Arr(chs) =>
        var topics := EligibleTopics(chs);
        if topics != [] then [UnsubscribeCall(topics)] else [PUnsubscribeCall([AllTopics])]
      case _ => []
  }

  /**
   * The `subscribe` handler. `fails` is the bus's answer to the call, if one is made;
   * errors are only logged, so neither the calls nor the (always nil) reply depend on it.
   */
  method Subscribe(psc: PubSub, req: Frame, fails: bool) returns (reply: Option<Value>)
    modifies psc
    ensures psc.calls == old(psc.calls) + SubscribeCalls(req)
    ensures reply == None
  {
    reply := None;
    if "topic" in req && req["topic"].Str? {
      var ch := req["topic"].s;
      if TopicPrefix <= ch {
        var _ := psc.Send(SubscribeCall([ch]), fails);
      }
    } else if "topic" in req && req["topic"].Arr? {
      var topics := CollectTopics(req["topic"].items);
      if |topics| > 0 {
        var _ := psc.Send(SubscribeCall(topics), fails);
      }
    }
  }

  /** The `unsubscribe` handler; as `Subscribe`, with the pattern fallback for a list. */
  method Unsubscribe(psc: PubSub, req: Frame, fails: bool) returns (reply: Option<Value>)
    modifies psc
    ensures psc.calls == old(psc.calls) + UnsubscribeCalls(req)
    ensures reply == None
  {
    reply := None;
    if "topic" in req && req["topic"].Str? {
      var ch := req["topic"].s;
      if TopicPrefix <= ch {
        var _ := psc.Send(UnsubscribeCall([ch]), fails);
      }
    } else if "topic" in req && req["topic"].Arr? {
      var topics := CollectTopics(req["topic"].items);
      if |topics| > 0 {
        var _ := psc.Send(UnsubscribeCall(topics), fails);
      } else {
        var _ := psc.Send(PUnsubscribeCall([AllTopics]), fails);
      }
    }
  }

  /**
   * A topic list with no eligible element, the empty list included, issues exactly one
   * pattern unsubscribe of "sheet:*" and no other call.
   */
  lemma {:induction false} UnsubscribeNoEligibleUsesPattern(req: Frame)
    requires "topic" in req && req["topic"].Arr?
    requires forall i :: 0 <= i < |req["topic"].items| ==> !Eligible(req["topic"].items[i])
    ensures UnsubscribeCalls(req) == [PUnsubscribeCall(["sheet:*"])]
  {
    var chs := req["topic"].items;
    NoneEligible(chs);
  }

  /** A list with no eligible element keeps no topic. */
  lemma {:induction false} NoneEligible(chs: seq<Value>)
    requires forall i :: 0 <= i < |chs| ==> !Eligible(chs[i])
    ensures EligibleTopics(chs) == []
  {
    if chs != [] {
      assert !Eligible(chs[0]);
      NoneEligible(chs[1..]);
    }
  }

  /** The subscribe scenario: a single eligible topic leads to exactly that one subscription. */
  lemma SubscribeSingleTopic()
    ensures SubscribeCalls(map["type" := Str("subscribe"), "topic" := Str("sheet:42")])
      == [SubscribeCall(["sheet:42"])]
  {
    var req := map["type" := Str("subscribe"), "topic" := Str("sheet:42")];
    assert req["topic"] == Str("sheet:42");
  }
}
