/**
 * Shared vocabulary: the dynamic Python values that flow through mnamer's
 * metadata records, the exceptions its code can raise, and the Option and
 * Result wrappers used to model absent values and raised exceptions.
 */
module Values {

  datatype Option<+T> = None | Some(value: T)

  /** The Python exception classes the modelled code can raise. */
  datatype Error =
    | TypeError
    | ValueError
    | KeyError
    | AttributeError
    | IndexError
    | EOFError
    | NotImplemented

  /** A value or the exception that was raised instead. */
  datatype Result<+T> = Ok(value: T) | Err(error: Error) {
    predicate IsFailure() { Err? }

    function PropagateFailure<U>(): Result<U>
      requires Err?
    {
      Err(error)
    }

    function Extract(): T
      requires Ok?
    {
      value
    }
  }

  /** mnamer.types.MediaType: an Enum whose values are "movie" and "episode". */
  datatype MediaType = Movie | Episode

  function MediaValue(m: MediaType): (r: string)
    ensures r == "movie" || r == "episode"
  {
    match m
    case Movie => "movie"
    case Episode => "episode"
  }

  /**
   * A Python object as it can appear in a guessit attribute map or in a
   * metadata field: str, int, datetime.date, babelfish.Language (only its
   * alpha2 code is observable), MediaType, list, or any other object.
   */
  datatype Value =
    | Str(s: string)
    | Int(i: int)
    | Date(year: int, month: int, day: int)
    | Lang(alpha2: string)
    | Media(media: MediaType)
    | List(items: seq<Value>)
    | Other(id: nat)

  /** The values `isinstance(v, (int, str, date, Language))` accepts. */
  predicate IsScalar(v: Value) {
    v.Int? || v.Str? || v.Date? || v.Lang?
  }

  /** Python truthiness, `bool(v)`; None is falsy. */
  predicate Truthy(v: Option<Value>) {
    match v
    case None => false
    case Some(Str(s)) => s != ""
    case Some(Int(i)) => i != 0
    case Some(List(items)) => items != []
    case Some(_) => true
  }

  /** An ordered Python dict: a sequence of key/value pairs. */
  type Dict = seq<(string, Value)>

  predicate DistinctKeys(d: Dict) {
    forall i, j :: 0 <= i < j < |d| ==> d[i].0 != d[j].0
  }

  function Get(d: Dict, k: string): (r: Option<Value>)
    ensures r.Some? <==> exists i :: 0 <= i < |d| && d[i].0 == k
  {
    if d == [] then None
    else if d[0].0 == k then Some(d[0].1)
    else Get(d[1..], k)
  }

  lemma GetAt(d: Dict, i: nat)
    requires DistinctKeys(d) && i < |d|
    ensures Get(d, d[i].0) == Some(d[i].1)
  {
    if i > 0 {
      assert DistinctKeys(d[1..]) by {
        forall a, b | 0 <= a < b < |d[1..]| ensures d[1..][a].0 != d[1..][b].0 {
          assert d[1..][a] == d[a + 1] && d[1..][b] == d[b + 1];
        }
      }
      GetAt(d[1..], i - 1);
    }
  }
}
