/** Values shared by every handler: optional request fields, JavaScript
    truthiness, and the HTTP reply a handler sends. */
module Common {

  datatype Option<T> = None | Some(value: T) {
    function GetOr(default: T): T {
      match this
      case Some(v) => v
      case None => default
    }
  }

  /** A document identifier (a Mongo ObjectId, compared as its string form). */
  type Id = string

  /** A timestamp in milliseconds since the Unix epoch. */
  type Time = int

  /** What a handler sends back: a success status with its JSON value, an
      error status with the `message` of the JSON error body, or the catch
      block's error status whose message is the text of the exception raised
      (a schema validation error), which the model does not spell out. */
  datatype Reply<T> = Ok(code: int, value: T) | Fail(code: int, message: string) | Thrown(code: int)

  /** JavaScript truthiness of an optional string taken from a request:
      an absent field and the empty string are both falsy. */
  predicate Truthy(s: Option<string>) {
    s.Some? && s.value != ""
  }

  /** The JavaScript expression `s || fallback` for an optional string. */
  function OrElse(s: Option<string>, fallback: string): string {
    if Truthy(s) then s.value else fallback
  }

  /** A JSON value from a request body, for the one handler that applies
      `Boolean(...)` to an arbitrary body field. */
  datatype JsValue = JsUndefined | JsNull | JsBool(b: bool) | JsNumber(n: int) | JsString(s: string) | JsObject

  /** `Boolean(v)` in JavaScript (NaN is not representable here). */
  predicate JsTruthy(v: JsValue) {
    match v
    case JsUndefined => false
    case JsNull => false
    case JsBool(b) => b
    case JsNumber(n) => n != 0
    case JsString(s) => s != ""
    case JsObject => true
  }

  /** The first index whose element satisfies `p`, if any (what `findOne`
      and `findById` return over a collection held as a sequence). */
  function FindFirst<T>(s: seq<T>, p: T -> bool): (r: Option<nat>)
    ensures r.Some? ==> r.value < |s| && p(s[r.value])
    ensures r.Some? ==> forall j :: 0 <= j < r.value ==> !p(s[j])
    ensures r.None? <==> forall j :: 0 <= j < |s| ==> !p(s[j])
  {
    if |s| == 0 then None
    else if p(s[0]) then Some(0)
    else match FindFirst(s[1..], p)
      case None => None
      case Some(k) => Some(k + 1)
  }

  /** The elements of `s` that satisfy `p`, in order (what `find(filter)`
      returns before sorting). */
  function Filter<T>(s: seq<T>, p: T -> bool): (r: seq<T>)
    ensures |r| <= |s|
    ensures forall i :: 0 <= i < |r| ==> r[i] in s && p(r[i])
    ensures forall i :: 0 <= i < |s| && p(s[i]) ==> s[i] in r
  {
    if |s| == 0 then []
    else if p(s[0]) then [s[0]] + Filter(s[1..], p)
    else Filter(s[1..], p)
  }

  /** Filtering keeps every matching document as often as `s` holds it and
      drops every other one: the result's size is the number of matches. */
  lemma {:induction false} FilterCounts<T>(s: seq<T>, p: T -> bool)
    ensures multiset(Filter(s, p)) <= multiset(s)
    ensures forall i :: 0 <= i < |s| ==> multiset(Filter(s, p))[s[i]] == if p(s[i]) then multiset(s)[s[i]] else 0
    decreases |s|
  {
    if |s| > 0 {
      var t := s[1..];
      assert s == [s[0]] + t;
      FilterCounts(t, p);
      var r := Filter(s, p);
      assert multiset(r) == (if p(s[0]) then multiset{s[0]} else multiset{}) + multiset(Filter(t, p));
      forall i | 0 <= i < |s|
        ensures multiset(r)[s[i]] == if p(s[i]) then multiset(s)[s[i]] else 0
      {
        var x := s[i];
        if x !in t {
          assert multiset(Filter(t, p))[x] == 0;
        } else {
          var k :| 0 <= k < |t| && t[k] == x;
        }
      }
    }
  }

  /** Filtering keeps the store order: two matching documents appear in
      the result in the order they have in `s`. */
  lemma FilterKeepsOrder<T>(s: seq<T>, p: T -> bool, i: nat, j: nat)
    requires i < j < |s| && p(s[i]) && p(s[j])
    ensures exists a, b :: 0 <= a < b < |Filter(s, p)| && Filter(s, p)[a] == s[i] && Filter(s, p)[b] == s[j]
  {
    var front, back := s[..j], s[j..];
    assert s == front + back;
    FilterConcat(front, back, p);
    assert back[0] == s[j] && back[1..] == s[j + 1..];
    var fr, br := Filter(front, p), Filter(back, p);
    assert br == [s[j]] + Filter(s[j + 1..], p);
    assert front[i] == s[i];
    var a :| 0 <= a < |fr| && fr[a] == s[i];
    var r := Filter(s, p);
    assert r == fr + br;
    assert r[a] == s[i] && r[|fr|] == s[j];
  }

  /** Filtering two sequences joined is filtering each. */
  lemma {:induction false} FilterConcat<T>(a: seq<T>, b: seq<T>, p: T -> bool)
    ensures Filter(a + b, p) == Filter(a, p) + Filter(b, p)
    decreases |a|
  {
    if |a| == 0 {
      assert a + b == b;
    } else {
      assert (a + b)[0] == a[0] && (a + b)[1..] == a[1..] + b;
      FilterConcat(a[1..], b, p);
    }
  }

  /** `s` without the element at index `i` (what `findByIdAndDelete` leaves). */
  function RemoveAt<T>(s: seq<T>, i: nat): (r: seq<T>)
    requires i < |s|
    ensures |r| == |s| - 1
    ensures forall j :: 0 <= j < i ==> r[j] == s[j]
    ensures forall j :: i <= j < |r| ==> r[j] == s[j + 1]
  {
    s[..i] + s[i + 1..]
  }
}
