/**
 * Decoded JSON bodies and the two Python operations the plugin applies to
 * them: the membership test `key in data` and the subscription `data[key]`.
 * Python raises a TypeError when either is applied to a value of the wrong
 * kind; both are written out here so that the plugin's behaviour on an
 * unexpected body is part of the model.
 */
module Json {
  import opened Results

  /** A value produced by decoding a JSON document. Numbers keep their literal text. */
  datatype Json =
    | Null
    | Bool(b: bool)
    | Num(literal: string)
    | Str(s: string)
    | Arr(items: seq<Json>)
    | Obj(fields: map<string, Json>)

  /** The exceptions Python raises for `in` and `[]` on a decoded body. */
  datatype PyError =
    | TypeError   // `in` on a number, boolean or None; a string key on a list or string
    | KeyError(key: string)

  /** `needle` occurs as a contiguous slice of `hay` (Python's `needle in hay` on strings). */
  predicate IsSubstring(needle: string, hay: string)
  {
    needle <= hay || (hay != [] && IsSubstring(needle, hay[1..]))
  }

  /**
   * Python's `key in data` for a string `key`: key membership on a dict,
   * element equality on a list, substring search on a string, and a
   * TypeError on every other kind of value.
   */
  function Contains(data: Json, key: string): (r: Result<bool, PyError>)
    ensures r.Err? <==> (data.Null? || data.Bool? || data.Num?)
    ensures data.Obj? ==> r == Ok(key in data.fields)
  {
    match data
    case Obj(fields) => Ok(key in fields)
    case Arr(items) => Ok(Str(key) in items)
    case Str(s) => Ok(IsSubstring(key, s))
    case _ => Err(TypeError)
  }

  /**
   * Python's `data[key]` for a string `key`: the field of a dict, a
   * KeyError when the dict lacks it, and a TypeError on every other kind
   * of value (lists and strings are indexed by integers only).
   */
  function GetItem(data: Json, key: string): (r: Result<Json, PyError>)
    ensures r.Ok? <==> data.Obj? && key in data.fields
    ensures r.Ok? ==> r.value == data.fields[key]
    ensures r.Err? && data.Obj? ==> r.error == KeyError(key)
  {
    match data
    case Obj(fields) => if key in fields then Ok(fields[key]) else Err(KeyError(key))
    case _ => Err(TypeError)
  }
}
