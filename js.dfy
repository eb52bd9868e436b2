/** The handful of JavaScript built-ins the dashboard's refinement logic is
    written with, given as functions over Dafny values: optional values,
    Array.prototype.findIndex / find / every / filter(Boolean), Math.min,
    the `Number(x) || 0` coercion and String() on a year entry. */
module Js {

  /** A value that may be absent (JSON null, a missing field, undefined). */
  datatype Option<T> = None | Some(value: T) {
    /** `x ?? d` and `x || d` where only absence makes the fallback apply. */
    function GetOr(d: T): T {
      match this
      case Some(v) => v
      case None => d
    }
  }

  /** A numeric field before the `|| 0` fallback: None stands for a field
      that is missing or null, or whose `Number(...)` is NaN. */
  type Num = Option<real>

  /** `Number(v) || 0`: NaN becomes 0, every number stays itself. */
  function ToNumOrZero(v: Num): (r: real)
    ensures r == 0.0 <==> (v.None? || v.value == 0.0)
    ensures v.Some? ==> r == v.value
  {
    match v
    case None => 0.0
    case Some(x) => x
  }

  /** `Math.min(a, b)` on integers. */
  function Min(a: int, b: int): (r: int)
    ensures r <= a && r <= b && (r == a || r == b)
  {
    if a <= b then a else b
  }

  /** `s.findIndex(p)`: the first index whose element satisfies p, or -1. */
  function FindIndex<T>(s: seq<T>, p: T -> bool): (k: int)
    ensures -1 <= k < |s|
    ensures k == -1 <==> forall j :: 0 <= j < |s| ==> !p(s[j])
    ensures 0 <= k ==> p(s[k]) && forall j :: 0 <= j < k ==> !p(s[j])
  {
    if |s| == 0 then -1
    else if p(s[0]) then 0
    else
      var k := FindIndex(s[1..], p);
      assert forall j :: 1 <= j < |s| ==> s[j] == s[1..][j - 1];
      if k == -1 then -1 else k + 1
  }

  /** `s.indexOf(x)`: the first position holding x, or -1. */
  function IndexOf<T(==)>(s: seq<T>, x: T): (k: int)
    ensures -1 <= k < |s|
    ensures k == -1 <==> x !in s
    ensures 0 <= k ==> s[k] == x && x !in s[..k]
  {
    var k := FindIndex(s, y => y == x);
    assert 0 <= k ==> forall y :: y in s[..k] ==> y != x by {
      if 0 <= k {
        forall y | y in s[..k] ensures y != x {
          var j :| 0 <= j < k && s[..k][j] == y;
          assert s[j] == y;
        }
      }
    }
    k
  }

  /** `s.find(p)`: the first element satisfying p, or undefined (None). */
  function Find<T>(s: seq<T>, p: T -> bool): (r: Option<T>)
    ensures r.None? <==> forall j :: 0 <= j < |s| ==> !p(s[j])
    ensures r.Some? ==> exists k :: 0 <= k < |s| && s[k] == r.value && p(s[k]) &&
                                  forall j :: 0 <= j < k ==> !p(s[j])
  {
    var k := FindIndex(s, p);
    if k == -1 then None else Some(s[k])
  }

  /** `s.every(p)`; true on the empty sequence. */
  function Every<T>(s: seq<T>, p: T -> bool): (r: bool)
    ensures r <==> forall j :: 0 <= j < |s| ==> p(s[j])
  {
    if |s| == 0 then true
    else
      assert forall j :: 1 <= j < |s| ==> s[j] == s[1..][j - 1];
      p(s[0]) && Every(s[1..], p)
  }

  /** `s.filter(Boolean)` on a list of strings, where "" stands for every
      falsy entry (null, undefined, the empty string). */
  function FilterTruthy(s: seq<string>): (r: seq<string>)
    ensures |r| <= |s|
    ensures forall x :: x in r <==> x in s && x != ""
    ensures forall x :: multiset(r)[x] == (if x == "" then 0 else multiset(s)[x])
  {
    if |s| == 0 then []
    else
      assert s == [s[0]] + s[1..];
      assert forall x :: x in s <==> x == s[0] || x in s[1..];
      if s[0] == "" then FilterTruthy(s[1..])
      else [s[0]] + FilterTruthy(s[1..])
  }

  /** Filtering keeps the order of the entries: it distributes over
      concatenation. */
  lemma {:induction false} FilterTruthyOfConcat(a: seq<string>, b: seq<string>)
    ensures FilterTruthy(a + b) == FilterTruthy(a) + FilterTruthy(b)
  {
    if |a| > 0 {
      assert (a + b)[0] == a[0];
      assert (a + b)[1..] == a[1..] + b;
      FilterTruthyOfConcat(a[1..], b);
    } else {
      assert a + b == b;
    }
  }

  /** The first kept entry is the first truthy entry of the input. */
  lemma {:induction false} FilterTruthyFirst(s: seq<string>, i: int)
    requires 0 <= i < |s| && s[i] != ""
    requires forall j :: 0 <= j < i ==> s[j] == ""
    ensures |FilterTruthy(s)| > 0 && FilterTruthy(s)[0] == s[i]
  {
    if i > 0 {
      assert forall j :: 0 <= j < i - 1 ==> s[1..][j] == s[j + 1];
      FilterTruthyFirst(s[1..], i - 1);
    }
  }

  /** Filtering a list with no falsy entry gives the list back. */
  lemma {:induction false} FilterTruthyKeepsTruthyList(s: seq<string>)
    requires forall j :: 0 <= j < |s| ==> s[j] != ""
    ensures FilterTruthy(s) == s
  {
    if |s| > 0 {
      assert forall j :: 0 <= j < |s| - 1 ==> s[1..][j] == s[j + 1];
      FilterTruthyKeepsTruthyList(s[1..]);
      assert [s[0]] + s[1..] == s;
    }
  }

  /** `String(y)` for an entry of the year list: JSON null prints as "null". */
  function YearText(y: Option<string>): (r: string)
    ensures y.Some? ==> r == y.value
    ensures y.None? ==> r == "null"
  {
    match y
    case None => "null"
    case Some(s) => s
  }
}
