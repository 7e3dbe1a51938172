/** JSON values as the converter reads them from a TriviaQA file, the
    exceptions the script can raise on malformed input, and a Result type
    that carries them. */
module Values {

  /** A decoded JSON value (numbers restricted to integers). */
  datatype Json =
    | JNull
    | JBool(b: bool)
    | JNum(n: int)
    | JStr(s: string)
    | JArr(items: seq<Json>)
    | JObj(fields: map<string, Json>)

  /** A Python `dict` with string keys, as the script manipulates them. */
  type Dict = map<string, Json>

  /** The exceptions that abort the script on malformed input:
      a missing dictionary key, or a value of the wrong JSON type
      (Python's TypeError and AttributeError alike). */
  datatype Error = KeyError(key: string) | TypeError

  datatype Result<+T> = Success(value: T) | Failure(error: Error) {
    predicate IsFailure() { Failure? }

    function PropagateFailure<U>(): Result<U>
      requires Failure?
    {
      Failure(error)
    }

    function Extract(): T
      requires Success?
    {
      value
    }
  }

  datatype Option<+T> = None | Some(value: T)

  /** `d[key]`: the value, or the KeyError Python raises. */
  function Lookup(d: Dict, key: string): (r: Result<Json>)
    ensures r.Success? <==> key in d
    ensures r.Success? ==> r.value == d[key]
    ensures r.Failure? ==> r.error == KeyError(key)
  {
    if key in d then Success(d[key]) else Failure(KeyError(key))
  }

  /** The elements `for x in s` visits for a string: its characters, each
      a one-character string. */
  function Chars(s: string): (r: seq<Json>)
    ensures |r| == |s|
  {
    if s == [] then [] else [JStr([s[0]])] + Chars(s[1..])
  }
}
