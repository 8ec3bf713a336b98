/** Small value types shared by every module of the model. */
module Common {

  /** A value that may be missing (`null` or a failed lookup). */
  datatype Option<T> = None | Some(value: T)

  /** The outcome of an operation that can fail with an error of type E. */
  datatype Result<T, E> = Ok(value: T) | Err(error: E)

  /**
   * A value of a request body or of a data object passed between layers, as far as the
   * core looks at it: absent (`undefined`), `null`, a string, a number or a boolean.
   */
  datatype Value = Undefined | Null | Str(s: string) | Num(n: int) | Bool(b: bool)

  /** JavaScript truthiness: `undefined`, `null`, "", 0 and false are falsy. */
  predicate Truthy(v: Value)
  {
    match v
    case Str(s) => s != ""
    case Num(n) => n != 0
    case Bool(b) => b
    case _ => false
  }

  /** `v || d`. */
  function Or(v: Value, d: Value): (r: Value)
    ensures Truthy(v) ==> r == v
    ensures !Truthy(v) ==> r == d
  {
    if Truthy(v) then v else d
  }

  /** A request body or data object: its keys in order, each with its value. */
  type Body = seq<(string, Value)>

  /** `body[key]`: the value of the last entry for `key` (a later duplicate wins), or `undefined`. */
  function Get(body: Body, key: string): (v: Value)
    ensures v != Undefined ==> exists i :: 0 <= i < |body| && body[i] == (key, v)
    ensures (forall i :: 0 <= i < |body| ==> body[i].0 != key) ==> v == Undefined
  {
    if body == [] then Undefined
    else if body[|body| - 1].0 == key then body[|body| - 1].1
    else
      var v := Get(body[..|body| - 1], key);
      assert forall i :: 0 <= i < |body| - 1 ==> body[..|body| - 1][i] == body[i];
      v
  }
}
