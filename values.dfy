/** Field values of a plugin document and the parts of Python 2 semantics the
    reconciliation logic leans on: truthiness, `dict.get`, and the ordering used
    by `>`, `==`, `max` and `min` on values of possibly different types. */
module Values {

  /** A document field: None, an integer, a (unicode) string or a list of strings. */
  datatype Val = None | Int(i: int) | Str(s: string) | List(items: seq<string>)

  /** A plugin document: field name to value. */
  type Record = map<string, Val>

  /** The failures the core can raise. */
  datatype Error =
    | InvalidInput        // no usable name to derive a slug from (`assert name`)
    | SlugSpaceExhausted  // the base slug and every suffixed slug are taken
    | Untokenizable       // a search field is neither a string, a list nor None
    | Unsortable          // a sort-key field cannot be negated (it is not an integer)
    | KeyError            // a required field is missing
    | TypeError           // a field cannot be turned into a set

  datatype Result<T> = Ok(value: T) | Err(error: Error)

  /** Python truthiness: None, 0, "" and [] are false. */
  predicate Truthy(v: Val) {
    match v
    case None => false
    case Int(i) => i != 0
    case Str(s) => s != []
    case List(xs) => xs != []
  }

  /** `r.get(k)`: the value under `k`, None when `k` is missing. */
  function Get(r: Record, k: string): Val {
    if k in r then r[k] else None
  }

  /** `r.get(k, d)`. */
  function GetOr(r: Record, k: string, d: Val): Val {
    if k in r then r[k] else d
  }

  /** Python 2 orders values of different types: None first, then numbers,
      then other types by type name ('list' before 'str' and 'unicode'). */
  function TypeRank(v: Val): int {
    match v
    case None => 0
    case Int(_) => 1
    case List(_) => 2
    case Str(_) => 3
  }

  /** Three-way comparison of two strings by code point. */
  function StrCmp(a: string, b: string): (c: int)
    ensures -1 <= c <= 1
    ensures c == 0 ==> |a| == |b|
  {
    if a == [] && b == [] then 0
    else if a == [] then -1
    else if b == [] then 1
    else if a[0] < b[0] then -1
    else if a[0] > b[0] then 1
    else StrCmp(a[1..], b[1..])
  }

  /** Three-way comparison of two lists of strings: the first differing
      element decides, otherwise the shorter list is smaller. */
  function ListCmp(a: seq<string>, b: seq<string>): (c: int)
    ensures -1 <= c <= 1
  {
    if a == [] && b == [] then 0
    else if a == [] then -1
    else if b == [] then 1
    else if a[0] != b[0] then StrCmp(a[0], b[0])
    else ListCmp(a[1..], b[1..])
  }

  /** Python 2's three-way comparison `cmp(a, b)` on field values. */
  function Compare(a: Val, b: Val): (c: int)
    ensures -1 <= c <= 1
  {
    if TypeRank(a) < TypeRank(b) then -1
    else if TypeRank(a) > TypeRank(b) then 1
    else match (a, b)
      case (Int(x), Int(y)) => if x < y then -1 else if x > y then 1 else 0
      case (Str(x), Str(y)) => StrCmp(x, y)
      case (List(x), List(y)) => ListCmp(x, y)
      case _ => 0
  }

  /** `a > b`. */
  predicate Gt(a: Val, b: Val) {
    Compare(a, b) > 0
  }

  /** `max(a, b)`: the second argument replaces the first only when greater. */
  function Max(a: Val, b: Val): (r: Val)
    ensures r == a || r == b
    ensures Gt(b, a) ==> r == b
  {
    if Gt(b, a) then b else a
  }

  /** `min(a, b)`: the second argument replaces the first only when smaller. */
  function Min(a: Val, b: Val): (r: Val)
    ensures r == a || r == b
    ensures Compare(b, a) < 0 ==> r == b
  {
    if Compare(b, a) < 0 then b else a
  }

  lemma {:induction false} StrCmpAntisymmetric(a: string, b: string)
    ensures StrCmp(a, b) == -StrCmp(b, a)
    decreases |a|
  {
    if a != [] && b != [] && a[0] == b[0] {
      StrCmpAntisymmetric(a[1..], b[1..]);
    }
  }

  lemma {:induction false} StrCmpZeroIffEqual(a: string, b: string)
    ensures StrCmp(a, b) == 0 <==> a == b
    decreases |a|
  {
    if a != [] && b != [] && a[0] == b[0] {
      StrCmpZeroIffEqual(a[1..], b[1..]);
      if a[1..] == b[1..] {
        assert a == [a[0]] + a[1..] && b == [b[0]] + b[1..];
      }
    }
  }

  lemma {:induction false} ListCmpAntisymmetric(a: seq<string>, b: seq<string>)
    ensures ListCmp(a, b) == -ListCmp(b, a)
    decreases |a|
  {
    if a != [] && b != [] {
      if a[0] != b[0] {
        StrCmpAntisymmetric(a[0], b[0]);
      } else {
        ListCmpAntisymmetric(a[1..], b[1..]);
      }
    }
  }

  lemma {:induction false} ListCmpZeroIffEqual(a: seq<string>, b: seq<string>)
    ensures ListCmp(a, b) == 0 <==> a == b
    decreases |a|
  {
    if a != [] && b != [] {
      if a[0] != b[0] {
        StrCmpZeroIffEqual(a[0], b[0]);
      } else {
        ListCmpZeroIffEqual(a[1..], b[1..]);
        if a[1..] == b[1..] {
          assert a == [a[0]] + a[1..] && b == [b[0]] + b[1..];
        }
      }
    }
  }

  /** Swapping the operands negates the comparison. */
  lemma CompareAntisymmetric(a: Val, b: Val)
    ensures Compare(a, b) == -Compare(b, a)
  {
    match (a, b)
    case (Str(x), Str(y)) => StrCmpAntisymmetric(x, y);
    case (List(x), List(y)) => ListCmpAntisymmetric(x, y);
    case _ =>
  }

  /** Comparison says "equal" exactly for equal values, so Python's `==`
      and `cmp(a, b) == 0` agree on field values. */
  lemma CompareZeroIffEqual(a: Val, b: Val)
    ensures Compare(a, b) == 0 <==> a == b
  {
    match (a, b)
    case (Str(x), Str(y)) => StrCmpZeroIffEqual(x, y);
    case (List(x), List(y)) => ListCmpZeroIffEqual(x, y);
    case _ =>
  }

  /** `max` returns one of its arguments and neither argument is greater than it. */
  lemma MaxIsUpperBound(a: Val, b: Val)
    ensures Max(a, b) == a || Max(a, b) == b
    ensures !Gt(a, Max(a, b)) && !Gt(b, Max(a, b))
  {
    CompareAntisymmetric(a, b);
    CompareZeroIffEqual(a, a);
    CompareZeroIffEqual(b, b);
  }

  /** `min` returns one of its arguments and neither argument is smaller than it. */
  lemma MinIsLowerBound(a: Val, b: Val)
    ensures Min(a, b) == a || Min(a, b) == b
    ensures Compare(a, Min(a, b)) >= 0 && Compare(b, Min(a, b)) >= 0
  {
    CompareAntisymmetric(a, b);
    CompareZeroIffEqual(a, a);
    CompareZeroIffEqual(b, b);
  }

  /** The values of a list of results, or the first error among them: the
      error a loop that stops at the first failure would report. */
  function Collect<T>(rs: seq<Result<T>>): (r: Result<seq<T>>)
    ensures r.Ok? <==> forall i :: 0 <= i < |rs| ==> rs[i].Ok?
    ensures r.Ok? ==> |r.value| == |rs| && forall i :: 0 <= i < |rs| ==> rs[i] == Ok(r.value[i])
    ensures r.Err? ==> exists i :: 0 <= i < |rs| && rs[i] == Err(r.error) && forall j :: 0 <= j < i ==> rs[j].Ok?
    decreases |rs|
  {
    if rs == [] then Ok([])
    else
      var n := |rs| - 1;
      var prefix := Collect(rs[..n]);
      assert forall i :: 0 <= i < n ==> rs[..n][i] == rs[i];
      match prefix
      case Err(e) => Err(e)
      case Ok(vs) =>
        match rs[n]
        case Err(e) => Err(e)
        case Ok(v) => Ok(vs + [v])
  }

  /** When every result succeeds, the collection is their values. */
  lemma CollectOk<T>(rs: seq<Result<T>>, vs: seq<T>)
    requires |rs| == |vs| && forall i :: 0 <= i < |rs| ==> rs[i] == Ok(vs[i])
    ensures Collect(rs) == Ok(vs)
  {
    var r := Collect(rs);
    assert r.Ok?;
    assert r.value == vs;
  }

  /** Two successes collect into the pair of their values. */
  lemma CollectTwo<T>(rs: seq<Result<T>>, a: T, b: T)
    requires |rs| == 2 && rs[0] == Ok(a) && rs[1] == Ok(b)
    ensures Collect(rs) == Ok([a, b])
  {
    CollectOk(rs, [a, b]);
  }

  /** When the `i`-th result is the first failure, the collection fails with it. */
  lemma {:induction false} CollectStopsAt<T>(rs: seq<Result<T>>, i: nat)
    requires i < |rs| && Collect(rs[..i]).Ok? && rs[i].Err?
    ensures Collect(rs) == Err(rs[i].error)
    decreases |rs|
  {
    var n := |rs| - 1;
    if i < n {
      assert rs[..n][..i] == rs[..i];
      CollectStopsAt(rs[..n], i);
    } else {
      assert rs[..n] == rs[..i];
    }
  }
}
