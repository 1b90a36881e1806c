/**
 * The handler registry of the relay (rws/ws.go `Dispatcher`, `HandleFunc`) and the
 * decision `process` takes for one inbound message.
 */
module Dispatch {
  import opened Wrappers
  import opened Frames

  /**
   * A registered handler. The two built-in handlers of rws/subscription.go are
   * named; every other handler is an application function known by name.
   */
  datatype Handler = SubscribeHandler | UnsubscribeHandler | AppHandler(name: string)

  /** `Dispatcher`: the message type to handler table, written in place by `HandleFunc`. */
  class Dispatcher {
    var handlers: map<string, Handler>

    /** `NewDispatcher`: an empty table. */
    constructor ()
      ensures handlers == map[]
    {
      handlers := map[];
    }

    /** The handler registered for message type `t`, if any. */
    function Resolve(t: string): (h: Option<Handler>)
      reads this
      ensures h.Some? <==> t in handlers
      ensures h.Some? ==> h.value == handlers[t]
    {
      if t in handlers then Some(handlers[t]) else None
    }

    /** `HandleFunc(t, f)`: the last registration for a type wins; other types keep theirs. */
    method HandleFunc(t: string, f: Handler)
      modifies this
      ensures Resolve(t) == Some(f)
      ensures forall u :: u != t ==> Resolve(u) == old(Resolve(u))
      ensures handlers == old(handlers)[t := f]
    {
      handlers := handlers[t := f];
    }
  }

  /** The string under `type` in a decoded message, if it is a string. */
  function TypeOf(input: Frame): (t: Option<string>)
    ensures t.Some? <==> "type" in input && input["type"].Str?
    ensures t.Some? ==> input["type"] == Str(t.value)
  {
    if "type" in input && input["type"].Str? then Some(input["type"].s) else None
  }

  /** What `process` does with one message: reply with an error, run a handler, or stay silent. */
  datatype Action = Reply(frame: Frame) | Run(handler: Handler, input: Frame) | Silent

  /** The error text for a message that does not decode. */
  const InvalidRequest: string := "Invalid Request"

  /** The error text for a message type with no handler. */
  function UnknownRequest(t: string): string
  {
    "Unknown Request '" + t + "'"
  }

  /**
   * The dispatch decision of `process` for a message whose decoding gave `parsed`
   * (None when `json.Unmarshal` failed).
   */
  function Decide(handlers: map<string, Handler>, parsed: Option<Frame>): (a: Action)
    ensures parsed.None? ==> a == Reply(NewError("400", InvalidRequest))
    ensures parsed.Some? && TypeOf(parsed.value).Some? && TypeOf(parsed.value).value in handlers ==>
      a == Run(handlers[TypeOf(parsed.value).value], parsed.value)
    ensures parsed.Some? && TypeOf(parsed.value).Some? && TypeOf(parsed.value).value !in handlers ==>
      a == Reply(NewError("400", UnknownRequest(TypeOf(parsed.value).value)))
    ensures parsed.Some? && TypeOf(parsed.value).None? ==> a == Silent
  {
    match parsed
    case None => Reply(NewError("400", InvalidRequest))
    case Some(input) =>
      match TypeOf(input)
      case None => Silent
      case Some(t) =>
        if t in handlers then Run(handlers[t], input) else Reply(NewError("400", UnknownRequest(t)))
  }

  /** Every error reply the dispatcher produces is a 400 error frame with a message. */
  lemma DecideErrorsAre400(handlers: map<string, Handler>, parsed: Option<Frame>)
    ensures Decide(handlers, parsed).Reply? ==>
      var f := Decide(handlers, parsed).frame;
      f.Keys == {"type", "code", "msg"} && f["type"] == Str("error") && f["code"] == Str("400")
  {
  }

  /** A handler runs exactly when the message decoded with a registered string type. */
  lemma DecideRunsIffRegistered(handlers: map<string, Handler>, parsed: Option<Frame>)
    ensures Decide(handlers, parsed).Run? <==>
      parsed.Some? && TypeOf(parsed.value).Some? && TypeOf(parsed.value).value in handlers
  {
  }
}
