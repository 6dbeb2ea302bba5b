/** JSON values as Python sees them, and the outcome of a request. */
module Json {

  /** A dict is a finite map, so equality ignores key order as Python's does. */
  datatype Json =
    | Null
    | Bool(b: bool)
    | Num(n: int)
    | Str(s: string)
    | Arr(items: seq<Json>)
    | Obj(fields: map<string, Json>)

  /** How a request can end without a result. The first four are the store's own exceptions; Integrity is SQLite's,
      Format the codec's SignatureFormatError, Broken any other Python exception, and Crashed the death of the
      process. */
  datatype Fault = Invalid | Conflict | NotFound | Unauthorized | Integrity | Format | Broken | Crashed

  datatype Outcome<+T> = Ok(value: T) | Fail(fault: Fault) {
    predicate IsFailure() {
      Fail?
    }

    function PropagateFailure<U>(): Outcome<U>
      requires Fail?
    {
      Fail(fault)
    }

    function Extract(): T
      requires Ok?
    {
      value
    }
  }

  datatype Option<+T> = None | Some(value: T)

  /** A check that a request must pass to go on. */
  datatype Check = Pass | Refuse(fault: Fault) {
    predicate IsFailure() {
      Refuse?
    }

    function PropagateFailure<U>(): Outcome<U>
      requires Refuse?
    {
      Fail(fault)
    }
  }

  function Need(condition: bool, fault: Fault): Check {
    if condition then Pass else Refuse(fault)
  }

  /** `document.get(key)`: None both for a missing key and for an explicit null. */
  function Get(document: Json, key: string): Json
    requires document.Obj?
  {
    if key in document.fields then document.fields[key] else Null
  }

  function GetOr(document: Json, key: string, default: Json): Json
    requires document.Obj?
  {
    if key in document.fields then document.fields[key] else default
  }

  function Without(document: Json, keys: set<string>): Json
    requires document.Obj?
  {
    Obj(document.fields - keys)
  }

  function FromOption(o: Option<string>): Json {
    match o
    case None => Null
    case Some(s) => Str(s)
  }

  function Strings(items: seq<string>): (r: seq<Json>)
    ensures |r| == |items|
  {
    seq(|items|, i requires 0 <= i < |items| => Str(items[i]))
  }
}
