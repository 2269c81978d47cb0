/** Wire data shared by the relay and its clients.

    The relay receives `{type, roomId, content}` objects and sends back
    `{type: "joined", roomId, url}` and `{type: "message", roomId, content}`.
    Decoding text into these values is done by the runtime's JSON parser and is
    not part of this model; `Value` stands for whatever that parser yields. */
module Envelope {

  /** A parsed JSON value, plus `Undefined` for a field that is absent. */
  datatype Value =
    | Undefined
    | Null
    | Bool(b: bool)
    | Num(x: real)
    | Str(s: string)
    | Arr(items: seq<Value>)
    | Obj(fields: seq<(string, Value)>)

  /** JavaScript truthiness: `undefined`, `null`, `false`, `0` and `""` are
      falsy; every other value, including an empty array or object, is truthy. */
  predicate Truthy(v: Value) {
    match v
    case Undefined => false
    case Null => false
    case Bool(b) => b
    case Num(x) => x != 0.0
    case Str(s) => s != ""
    case Arr(_) => true
    case Obj(_) => true
  }

  /** An inbound envelope, `{type, roomId, content}`. */
  datatype Request = Request(kind: string, roomId: string, content: Value)

  /** An outbound envelope. */
  datatype Reply =
    | Joined(roomId: string, url: Value)         // {type: "joined", roomId, url}
    | Relayed(roomId: string, content: Value)    // {type: "message", roomId, content}
}
