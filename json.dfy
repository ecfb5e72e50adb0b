/** JSON-shaped values as the response helper handles them: the envelope is a
    plain object, i.e. a finite map from keys to values. */
module Json {

  /** An optional value; `None` stands for a JavaScript `undefined` (a key the
      caller did not supply). */
  datatype Option<+T> = None | Some(value: T) {

    /** The supplied value, or `default` when none was supplied: the meaning
        of a destructuring default such as `{ code = 200 }`. */
    function GetOr(default: T): T {
      match this
      case Some(v) => v
      case None => default
    }
  }

  /** A JSON value. Numbers are integers here (see README, "Left out"). */
  datatype Value =
    | Null
    | Bool(b: bool)
    | Num(n: int)
    | Str(s: string)
    | Arr(items: seq<Value>)
    | Obj(fields: map<string, Value>)

  /** A response envelope (or any plain object of fields). */
  type Envelope = map<string, Value>
}
