/**
 * The JSON values the aggregator reads from its messages. Most of them are copied
 * from a message into a snapshot without being looked at (coordinates,
 * timestamps, measurements); the few that are inspected are compared with
 * string literals, tested for truthiness or compared with zero.
 */
module Json {
  import opened Wrappers

  /** A JSON scalar. `Null` is also what Python's `dict.get` returns for a missing key. */
  datatype Scalar = Null | Bool(b: bool) | Num(x: real) | Str(s: string)

  /** Python truthiness of a scalar (`if value:`). */
  predicate Truthy(v: Scalar) {
    match v
    case Null => false
    case Bool(b) => b
    case Num(x) => x != 0.0
    case Str(s) => s != ""
  }

  /**
   * An identity field read with `data.get(...)` that passes the source's
   * `if not x: return` guard: present, not null and not the empty string.
   */
  predicate Present(id: Option<string>)
    ensures Present(id) <==> Truthy(IdValue(id))
  {
    id.Some? && id.value != ""
  }

  /** The JSON value an optional string field holds: null when it is missing. */
  function IdValue(id: Option<string>): Scalar {
    match id
    case None => Null
    case Some(s) => Str(s)
  }

  /** `m.get(k, default)` on a JSON object of scalars. */
  function GetOr(m: map<string, Scalar>, k: string, default: Scalar): (r: Scalar)
    ensures k in m ==> r == m[k]
    ensures k !in m ==> r == default
  {
    if k in m then m[k] else default
  }

  /** `m.get(k)`: null for a missing key. */
  function Get(m: map<string, Scalar>, k: string): (r: Scalar)
    ensures k !in m ==> r == Null
    ensures k in m ==> r == m[k]
  {
    GetOr(m, k, Null)
  }

  /** Python's `int(x)` on a float: truncation toward zero. */
  function Trunc(x: real): (n: int)
    ensures 0.0 <= x ==> n as real <= x < n as real + 1.0
    ensures x < 0.0 ==> n as real - 1.0 < x <= n as real
  {
    if 0.0 <= x then x.Floor else -((-x).Floor)
  }

  /** Python's `p in s` on strings: `p` occurs in `s` as a contiguous substring. */
  predicate IsSubstring(p: string, s: string)
    decreases |s|
  {
    p <= s || (|s| > 0 && IsSubstring(p, s[1..]))
  }

  /** `p` occurs in `s` starting at position `i`. */
  ghost predicate OccursAt(p: string, s: string, i: int) {
    0 <= i <= |s| - |p| && s[i..i + |p|] == p
  }

  /** Dropping the first character shifts every occurrence one place left. */
  lemma OccursShift(p: string, s: string, i: nat)
    requires |s| > 0
    ensures OccursAt(p, s[1..], i) <==> OccursAt(p, s, i + 1)
  {
    if 0 <= i <= |s| - 1 - |p| {
      assert s[1..][i..i + |p|] == s[i + 1..i + 1 + |p|];
    }
  }

  /** `IsSubstring` agrees with the positional definition of a substring. */
  lemma {:induction false} IsSubstringAt(p: string, s: string)
    ensures IsSubstring(p, s) <==> exists i :: OccursAt(p, s, i)
    decreases |s|
  {
    if p <= s {
      assert OccursAt(p, s, 0);
    } else if |s| > 0 {
      IsSubstringAt(p, s[1..]);
      if IsSubstring(p, s[1..]) {
        var i :| OccursAt(p, s[1..], i);
        OccursShift(p, s, i);
      }
      if exists i :: OccursAt(p, s, i) {
        var i :| OccursAt(p, s, i);
        assert i != 0;
        OccursShift(p, s, i - 1);
      }
    }
  }
}
