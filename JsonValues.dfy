/** The dictionary form a project is saved in: the JSON values Python's
    `json` module produces and accepts, and the errors that reading a
    record back out of one can raise. */
module JsonValues {

  datatype Value =
    | Null
    | Bool(b: bool)
    | Num(n: real)
    | Str(s: string)
    | Arr(items: seq<Value>)
    | Obj(fields: map<string, Value>)

  /** What `from_dict` raises on malformed input: indexing something that is
      not a dictionary, a missing key (`KeyError`), or a value of the wrong
      kind. */
  datatype DecodeError = NotAnObject | MissingKey(key: string) | WrongType(key: string)

  datatype Result<+T> = Ok(value: T) | Err(error: DecodeError) {
    predicate IsFailure() {
      Err?
    }

    function PropagateFailure<U>(): Result<U>
      requires Err?
    {
      Err(error)
    }

    function Extract(): T
      requires Ok?
    {
      value
    }
  }

  /** `d[key]` for a key whose value must be a string. */
  function GetString(fields: map<string, Value>, key: string): (r: Result<string>)
    ensures r.Ok? <==> key in fields && fields[key].Str?
    ensures r.Ok? ==> fields[key] == Str(r.value)
    ensures key !in fields ==> r == Err(MissingKey(key))
  {
    if key !in fields then Err(MissingKey(key))
    else if fields[key].Str? then Ok(fields[key].s)
    else Err(WrongType(key))
  }

  /** `d[key]` for a key whose value must be a number. */
  function GetNumber(fields: map<string, Value>, key: string): (r: Result<real>)
    ensures r.Ok? <==> key in fields && fields[key].Num?
    ensures r.Ok? ==> fields[key] == Num(r.value)
    ensures key !in fields ==> r == Err(MissingKey(key))
  {
    if key !in fields then Err(MissingKey(key))
    else if fields[key].Num? then Ok(fields[key].n)
    else Err(WrongType(key))
  }

  /** `d.get(key, default)` for a string value. */
  function GetStringOr(fields: map<string, Value>, key: string, default: string): (r: Result<string>)
    ensures key !in fields ==> r == Ok(default)
    ensures key in fields ==> (r.Ok? <==> fields[key].Str?)
    ensures key in fields && r.Ok? ==> fields[key] == Str(r.value)
  {
    if key !in fields then Ok(default)
    else if fields[key].Str? then Ok(fields[key].s)
    else Err(WrongType(key))
  }

  /** `d.get(key, [])` for a list value. */
  function GetListOr(fields: map<string, Value>, key: string): (r: Result<seq<Value>>)
    ensures key !in fields ==> r == Ok([])
    ensures key in fields ==> (r.Ok? <==> fields[key].Arr?)
    ensures key in fields && r.Ok? ==> fields[key] == Arr(r.value)
  {
    if key !in fields then Ok([])
    else if fields[key].Arr? then Ok(fields[key].items)
    else Err(WrongType(key))
  }

  /** A list comprehension `[f(x) for x in xs]`. */
  function MapSeq<A, B>(f: A -> B, xs: seq<A>): (ys: seq<B>)
    ensures |ys| == |xs|
    ensures forall i :: 0 <= i < |xs| ==> ys[i] == f(xs[i])
  {
    seq(|xs|, i requires 0 <= i < |xs| => f(xs[i]))
  }

  /** Decoding every element of a list in order, stopping at the first
      element that raises; this is what a loop of `from_dict` calls does. */
  function DecodeAll<T>(xs: seq<Value>, decode: Value -> Result<T>): (r: Result<seq<T>>)
    ensures r.Ok? <==> forall i :: 0 <= i < |xs| ==> decode(xs[i]).Ok?
    ensures r.Ok? ==> |r.value| == |xs| && forall i :: 0 <= i < |xs| ==> decode(xs[i]) == Ok(r.value[i])
  {
    if xs == [] then Ok([])
    else
      var front := xs[..|xs| - 1];
      match DecodeAll(front, decode)
      case Err(e) => Err(e)
      case Ok(vs) =>
        match decode(xs[|xs| - 1])
        case Err(e) => Err(e)
        case Ok(v) => Ok(vs + [v])
  }

  /** Decoding the encodings of a list gives the list back when decoding
      undoes encoding element by element. */
  lemma DecodeAllOfEncoded<T>(vs: seq<T>, encode: T -> Value, decode: Value -> Result<T>)
    requires forall i :: 0 <= i < |vs| ==> decode(encode(vs[i])) == Ok(vs[i])
    ensures DecodeAll(MapSeq(encode, vs), decode) == Ok(vs)
  {
    var xs := MapSeq(encode, vs);
    if vs != [] {
      var r := DecodeAll(xs, decode);
      assert r.Ok?;
      assert |r.value| == |vs|;
      forall i | 0 <= i < |vs| ensures r.value[i] == vs[i] {
        assert decode(xs[i]) == Ok(r.value[i]);
      }
      assert r.value == vs;
    }
  }

  /** The first element that fails decides the error of the whole list. */
  lemma {:induction false} DecodeAllFirstError<T>(xs: seq<Value>, decode: Value -> Result<T>, j: nat)
    requires j <= |xs| && DecodeAll(xs[..j], decode).Err?
    ensures DecodeAll(xs, decode) == DecodeAll(xs[..j], decode)
    decreases |xs| - j
  {
    if j < |xs| {
      assert xs[..j + 1][..j] == xs[..j];
      DecodeAllFirstError(xs, decode, j + 1);
    } else {
      assert xs[..j] == xs;
    }
  }
}
