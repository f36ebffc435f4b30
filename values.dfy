/** Values that cross the host/shell boundary or are held in host props.
    Serialisation is abstract: a message carries these values, not their JSON text. */
module Values {

  datatype Option<+T> = None | Some(value: T)

  /** A JavaScript value as far as this system looks at it. Numbers are integers
      here; a function value is a `Callback`. */
  datatype Value =
    | Null
    | Bool(b: bool)
    | Num(n: int)
    | Str(s: string)
    | List(items: seq<Value>)
    | Record(fields: map<string, Value>)
    | Function(f: Callback)

  /** A host-supplied callback. `id` is its identity; `reply` is what it passes to
      the responder it is handed, if it calls it at all. */
  datatype Callback = Callback(id: nat, reply: Option<Value>)
}
