/** Values shared by every part of the model: bytes, Python-style results and
    exceptions, JSON documents with the rules Python applies to them
    (subscript, `len`, `in`, truthiness, `str`), decimal rendering of
    integers, how a Python call binds to a signature, and the first-match
    search behind `next(filter(...), None)` and `find`. */
module Values {

  newtype byte = x: int | 0 <= x < 256

  datatype Option<+T> = None | Some(value: T)

  /** The exceptions the modelled code raises, propagates or swallows. */
  datatype Error =
    | KeyError       // a dict subscript with a missing key
    | TypeError      // subscript, len, `in`, concatenation or a call on the wrong kind of value
    | ValueError     // a stream write for a record without an image id, or a URL `urlparse` rejects
    | OSError        // the output file could not be opened for writing
    | AlbumNotFound  // the unsee.co listing answered with its "not-found" sentinel
    | GraphqlErrors  // a GraphQL response carried a non-empty `errors` array
    | NotModelled    // str() of a list or object value, whose rendering this model leaves out

  datatype Result<+T> = Ok(value: T) | Err(error: Error)

  /** A decoded JSON document. Objects are unordered. */
  datatype Json =
    | JNull
    | JBool(b: bool)
    | JNum(n: int)
    | JStr(s: string)
    | JArr(items: seq<Json>)
    | JObj(fields: map<string, Json>)

  /** The two parts of `urlparse(album_url)` the album-id extractions read. */
  datatype Url = Url(netloc: string, path: string)

  /** `j[key]`: only a dict can be subscripted with a string. */
  function Get(j: Json, key: string): Result<Json>
  {
    match j
    case JObj(fields) => if key in fields then Ok(fields[key]) else Err(KeyError)
    case _ => Err(TypeError)
  }

  /** `key in j`: keys of a dict, elements of a list, substrings of a str. */
  function Contains(j: Json, key: string): Result<bool>
  {
    match j
    case JObj(fields) => Ok(key in fields)
    case JArr(items) => Ok(JStr(key) in items)
    case JStr(s) => Ok(IsSubstring(key, s))
    case _ => Err(TypeError)
  }

  predicate IsSubstring(needle: string, hay: string)
    decreases |hay|
  {
    needle <= hay || (hay != [] && IsSubstring(needle, hay[1..]))
  }

  /** `len(j)`. */
  function Len(j: Json): Result<nat>
  {
    match j
    case JStr(s) => Ok(|s|)
    case JArr(items) => Ok(|items|)
    case JObj(fields) => Ok(|fields|)
    case _ => Err(TypeError)
  }

  /** `bool(j)`. */
  predicate Truthy(j: Json)
  {
    match j
    case JNull => false
    case JBool(b) => b
    case JNum(n) => n != 0
    case JStr(s) => s != []
    case JArr(items) => items != []
    case JObj(fields) => fields != map[]
  }

  /** `str(j)` for the scalar values; None for a list or an object. */
  function PyText(j: Json): Option<string>
  {
    match j
    case JNull => Some("None")
    case JBool(b) => Some(if b then "True" else "False")
    case JNum(n) => Some(IntToString(n))
    case JStr(s) => Some(s)
    case _ => None
  }

  function DigitChar(d: nat): char
    requires d < 10
  {
    (48 + d) as char
  }

  /** `str(n)` for a natural number: its decimal digits, most significant first. */
  function NatToString(n: nat): (r: string)
    ensures |r| >= 1
    decreases n
  {
    if n < 10 then [DigitChar(n)] else NatToString(n / 10) + [DigitChar(n % 10)]
  }

  function IntToString(n: int): string
  {
    if n < 0 then "-" + NatToString(-n) else NatToString(n)
  }

  /** Distinct numbers have distinct decimal renderings. */
  lemma {:induction false} NatToStringInjective(a: nat, b: nat)
    requires NatToString(a) == NatToString(b)
    ensures a == b
    decreases a
  {
    if a < 10 && b < 10 {
      assert NatToString(a)[0] == DigitChar(a);
    } else if a >= 10 && b >= 10 {
      var sa, sb := NatToString(a / 10), NatToString(b / 10);
      assert NatToString(a) == sa + [DigitChar(a % 10)];
      assert NatToString(b) == sb + [DigitChar(b % 10)];
      assert |sa| == |sb|;
      assert sa == NatToString(a)[..|sa|];
      assert sb == NatToString(b)[..|sb|];
      NatToStringInjective(a / 10, b / 10);
      assert DigitChar(a % 10) == NatToString(a)[|sa|];
    }
  }

  /** Whether a Python call with `positional` positional arguments and the
      keyword arguments `keywords` binds to a signature whose
      positional-or-keyword parameters are `params`, of which the first
      `required` have no default. A call that does not bind raises TypeError. */
  predicate Binds(params: seq<string>, required: nat, positional: nat, keywords: set<string>)
  {
    && positional <= |params|
    && (forall k :: k in keywords ==> k in params[positional..])
    && (forall j :: 0 <= j < required && j < |params| ==> j < positional || params[j] in keywords)
  }

  /** The index of the first element for which `f` answers true, scanning in
      order; an exception raised by `f` propagates, and elements after the
      first match are never examined. This is `next(filter(f, s), None)` and
      the `find` helper of unsee/unsee_dl.py. */
  function FirstWhere<T>(f: T -> Result<bool>, s: seq<T>): (r: Result<Option<nat>>)
    ensures r.Ok? && r.value.Some? ==> r.value.value < |s| && f(s[r.value.value]) == Ok(true)
    ensures r.Ok? && r.value.Some? ==> forall j :: 0 <= j < r.value.value ==> f(s[j]) == Ok(false)
    ensures r == Ok(None) ==> forall j :: 0 <= j < |s| ==> f(s[j]) == Ok(false)
    decreases |s|
  {
    if s == [] then Ok(None)
    else match f(s[0])
      case Err(e) => Err(e)
      case Ok(hit) =>
        if hit then Ok(Some(0))
        else match FirstWhere(f, s[1..])
          case Ok(Some(k)) => Ok(Some(k + 1))
          case other => other
  }

  /** When `FirstWhere` fails, it is because `f` raised on an element all of
      whose predecessors answered false. */
  lemma {:induction false} FirstWhereError<T>(f: T -> Result<bool>, s: seq<T>)
    requires FirstWhere(f, s).Err?
    ensures exists k :: 0 <= k < |s| && f(s[k]) == Err(FirstWhere(f, s).error)
                        && forall j :: 0 <= j < k ==> f(s[j]) == Ok(false)
    decreases |s|
  {
    if f(s[0]).Err? {
      assert f(s[0]) == Err(FirstWhere(f, s).error);
    } else {
      FirstWhereError(f, s[1..]);
      var k :| 0 <= k < |s[1..]| && f(s[1..][k]) == Err(FirstWhere(f, s[1..]).error)
               && forall j :: 0 <= j < k ==> f(s[1..][j]) == Ok(false);
      assert f(s[k + 1]) == Err(FirstWhere(f, s).error);
      forall j | 0 <= j < k + 1 ensures f(s[j]) == Ok(false) {
        if j > 0 { assert s[j] == s[1..][j - 1]; }
      }
    }
  }

  /** A search result over a suffix, as an index into the whole sequence. */
  function ShiftFound(r: Result<Option<nat>>, n: nat): Result<Option<nat>>
  {
    match r
    case Ok(Some(k)) => Ok(Some(k + n))
    case other => other
  }

  /** Elements that answered false can be skipped: the search over `s` is
      the search over `s[i..]`, offset by `i`. */
  lemma {:induction false} FirstWhereSkip<T>(f: T -> Result<bool>, s: seq<T>, i: nat)
    requires i <= |s|
    requires forall j :: 0 <= j < i ==> f(s[j]) == Ok(false)
    ensures FirstWhere(f, s) == ShiftFound(FirstWhere(f, s[i..]), i)
    decreases i
  {
    if i > 0 {
      assert f(s[0]) == Ok(false);
      forall j | 0 <= j < i - 1 ensures f(s[1..][j]) == Ok(false) {
        assert s[1..][j] == s[j + 1];
      }
      FirstWhereSkip(f, s[1..], i - 1);
      assert s[1..][i - 1..] == s[i..];
    } else {
      assert s[0..] == s;
      assert ShiftFound(FirstWhere(f, s), 0) == FirstWhere(f, s);
    }
  }

  /** Python's `list.remove(x)`: drops the first element equal to `x`. */
  function ListRemove<T(==)>(s: seq<T>, x: T): Result<seq<T>>
    decreases |s|
  {
    if s == [] then Err(ValueError)
    else if s[0] == x then Ok(s[1..])
    else match ListRemove(s[1..], x)
      case Ok(t) => Ok([s[0]] + t)
      case Err(e) => Err(e)
  }

  /** If no element before index k equals s[k], `list.remove(s[k])` removes index k. */
  lemma {:induction false} ListRemoveAt<T>(s: seq<T>, k: nat)
    requires k < |s|
    requires forall j :: 0 <= j < k ==> s[j] != s[k]
    ensures ListRemove(s, s[k]) == Ok(s[..k] + s[k + 1..])
    decreases k
  {
    if k > 0 {
      assert s[0] != s[k];
      assert s[1..][k - 1] == s[k];
      forall j | 0 <= j < k - 1 ensures s[1..][j] != s[1..][k - 1] {
        assert s[1..][j] == s[j + 1];
      }
      ListRemoveAt(s[1..], k - 1);
      var t := s[1..][..k - 1] + s[1..][k..];
      assert ListRemove(s[1..], s[k]) == Ok(t);
      assert ListRemove(s, s[k]) == Ok([s[0]] + t);
      assert [s[0]] + t == s[..k] + s[k + 1..];
    } else {
      assert s[..0] + s[1..] == s[1..];
    }
  }
}
