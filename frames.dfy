/**
 * The message envelope of the relay (rws/ws.go): decoded JSON values, frames,
 * and the frame constructors `NewError`, `NewReply` and `Wrap`.
 */
module Frames {

  /**
   * A JSON value as `encoding/json` decodes it into an `interface{}`.
   * Numbers are never inspected by the relay and are kept as integers.
   */
  datatype Value =
    | Null
    | Bool(b: bool)
    | Num(n: int)
    | Str(s: string)
    | Arr(items: seq<Value>)
    | Obj(fields: map<string, Value>)

  /** A decoded JSON object, Go's `map[string]interface{}`. */
  type Frame = map<string, Value>

  /** A raw text message as read from, or written to, the socket or the bus. */
  type Message = string

  /** The key under which `Wrap` stores a non-map payload, misspelled as in the source. */
  const PayloadKey: string := "paylaod"

  /** `NewError(code, text)`: an error frame; `msg` is present exactly when `text` is non-empty. */
  function NewError(code: string, text: string): (f: Frame)
    ensures f.Keys == {"type", "code"} + (if text != "" then {"msg"} else {})
    ensures f["type"] == Str("error") && f["code"] == Str(code)
    ensures text != "" ==> f["msg"] == Str(text)
  {
    var m := map["type" := Str("error"), "code" := Str(code)];
    if text != "" then m["msg" := Str(text)] else m
  }

  /** `NewReply(t, sender)`: a reply frame; `sender` is present exactly when it is non-empty. */
  function NewReply(t: string, sender: string): (f: Frame)
    ensures f.Keys == {"type"} + (if sender != "" then {"sender"} else {})
    ensures f["type"] == Str(t)
    ensures sender != "" ==> f["sender"] == Str(sender)
  {
    var m := map["type" := Str(t)];
    if sender != "" then m["sender" := Str(sender)] else m
  }

  /**
   * What `Wrap` does to a map payload: `type` is overwritten, `sender` only when the
   * argument is non-empty (so an existing sender survives an empty one), every other
   * key is kept.
   */
  function Stamp(m: Frame, t: string, sender: string): (r: Frame)
    ensures r.Keys == m.Keys + {"type"} + (if sender != "" then {"sender"} else {})
    ensures r["type"] == Str(t)
    ensures sender != "" ==> r["sender"] == Str(sender)
    ensures sender == "" && "sender" in m ==> r["sender"] == m["sender"]
    ensures forall k :: k in m && k != "type" && k != "sender" ==> r[k] == m[k]
  {
    var typed := m["type" := Str(t)];
    if sender != "" then typed["sender" := Str(sender)] else typed
  }

  /** A Go map value: a reference, so an update through one alias is seen by all. */
  class MapRef {
    var fields: Frame

    constructor (fields: Frame)
      ensures this.fields == fields
    {
      this.fields := fields;
    }
  }

  /**
   * The payload handed to `Wrap`: either a `map[string]interface{}` (shared with the
   * caller) or any other Go value, by its JSON encoding. A struct, a map of another type
   * or a pointer to a map (as `NewError` returns) is such a value, even though it
   * encodes as a JSON object.
   */
  datatype Payload = Shared(ref: MapRef) | Plain(v: Value)

  /**
   * `Wrap(t, sender, payload)`. A map payload is updated in place and returned itself,
   * so the caller's map changes too; any other payload is nested under the key
   * "paylaod" of a fresh reply frame.
   */
  method Wrap(t: string, sender: string, payload: Payload) returns (r: MapRef)
    modifies if payload.Shared? then {payload.ref} else {}
    ensures payload.Shared? ==> r == payload.ref && r.fields == Stamp(old(payload.ref.fields), t, sender)
    ensures payload.Plain? ==> fresh(r) && r.fields == NewReply(t, sender)[PayloadKey := payload.v]
  {
    match payload
    case Shared(m) =>
      m.fields := m.fields["type" := Str(t)];
      if sender != "" {
        m.fields := m.fields["sender" := Str(sender)];
      }
      r := m;
    case Plain(v) =>
      r := new MapRef(NewReply(t, sender));
      r.fields := r.fields[PayloadKey := v];
  }

  /** Wrapping an empty map gives the same frame as `NewReply`. */
  lemma StampEmptyIsReply(t: string, sender: string)
    ensures Stamp(map[], t, sender) == NewReply(t, sender)
  {
    var a, b := Stamp(map[], t, sender), NewReply(t, sender);
    assert a.Keys == b.Keys;
    forall k | k in a ensures a[k] == b[k] { }
  }

  /** Wrapping twice with the same arguments changes nothing the second time. */
  lemma StampIdempotent(m: Frame, t: string, sender: string)
    ensures Stamp(Stamp(m, t, sender), t, sender) == Stamp(m, t, sender)
  {
    var once := Stamp(m, t, sender);
    var twice := Stamp(once, t, sender);
    assert twice.Keys == once.Keys;
    forall k | k in once ensures twice[k] == once[k] { }
  }
}
