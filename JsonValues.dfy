/**
 * JSON values as the Flask service receives them, together with the two
 * pieces of Python semantics the request handler relies on: truthiness
 * (`x or {}`) and the membership operator (`key in item`).
 */
module JsonValues {
  import opened Results

  datatype Json =
    | JNull
    | JBool(b: bool)
    | JNum(n: real)
    | JStr(s: string)
    | JArr(items: seq<Json>)
    | JObj(fields: map<string, Json>)

  /** Python's `bool(v)` for a decoded JSON value. */
  predicate Truthy(v: Json) {
    match v
    case JNull => false
    case JBool(b) => b
    case JNum(n) => n != 0.0
    case JStr(s) => s != ""
    case JArr(items) => items != []
    case JObj(fields) => fields != map[]
  }

  /** `p` occurs as a contiguous block of `s` (Python's `p in s` on two strings). */
  predicate IsInfix(p: string, s: string)
    decreases |s|
  {
    if |p| > |s| then false
    else s[..|p|] == p || (s != [] && IsInfix(p, s[1..]))
  }

  lemma {:induction false} IsInfixAt(p: string, s: string, i: nat)
    requires i + |p| <= |s| && s[i..i + |p|] == p
    ensures IsInfix(p, s)
    decreases i
  {
    if i > 0 {
      assert s[1..][i - 1..i - 1 + |p|] == s[i..i + |p|];
      IsInfixAt(p, s[1..], i - 1);
    }
  }

  /** `p` sits in `s` starting at index `i`. */
  predicate OccursAt(p: string, s: string, i: nat) {
    i + |p| <= |s| && s[i..i + |p|] == p
  }

  /** The recursive search finds `p` exactly when it occurs somewhere in `s`. */
  lemma {:induction false} IsInfixIff(p: string, s: string)
    ensures IsInfix(p, s) <==> exists i: nat :: OccursAt(p, s, i)
    decreases |s|
  {
    if exists i: nat :: OccursAt(p, s, i) {
      var i: nat :| OccursAt(p, s, i);
      IsInfixAt(p, s, i);
    }
    if IsInfix(p, s) {
      if s[..|p|] == p {
        assert OccursAt(p, s, 0);
      } else {
        IsInfixIff(p, s[1..]);
        var j: nat :| OccursAt(p, s[1..], j);
        assert s[j + 1..j + 1 + |p|] == s[1..][j..j + |p|];
        assert OccursAt(p, s, j + 1);
      }
    }
  }

  /**
   * Python's `key in container` for a string key: dictionary membership,
   * substring search, or list membership; `None` when Python raises
   * `TypeError` (numbers, booleans and `None` are not containers).
   */
  function Contains(container: Json, key: string): (r: Option<bool>)
    ensures container.JObj? ==> r == Some(key in container.fields)
    ensures container.JArr? ==> r == Some(JStr(key) in container.items)
    ensures container.JStr? ==> r == Some(exists i: nat :: OccursAt(key, container.s, i))
    ensures r.None? <==> (container.JNull? || container.JBool? || container.JNum?)
  {
    match container
    case JObj(fields) => Some(key in fields)
    case JStr(s) => IsInfixIff(key, s); Some(IsInfix(key, s))
    case JArr(items) => Some(JStr(key) in items)
    case _ => None
  }
}
