/**
 * The few JavaScript value semantics the TypeScript sources rely on: optional values,
 * JSON values as `JSON.parse` and `req.json()` produce them, truthiness, the `||`
 * operator and `String.prototype.replace` with a string pattern.
 */
module Js {

  /** `undefined` (None) or a value. */
  datatype Option<+T> = None | Some(value: T) {
    function GetOr(default: T): T {
      if Some? then value else default
    }
  }

  /** The success or failure of a call whose failure carries a value. */
  datatype Result<+T, +E> = Ok(value: T) | Err(error: E)

  /** A parsed JSON value. Numbers are restricted to integers in this model. */
  datatype Json =
    | JNull
    | JBool(b: bool)
    | JNum(n: int)
    | JStr(s: string)
    | JArr(items: seq<Json>)
    | JObj(fields: map<string, Json>)

  /**
   * `v.key` for a value that is not null: the member of an object, `undefined`
   * (None) for a missing member or for any value that is not an object.
   * Reading a member of `null` throws; callers decide that case first.
   */
  function Field(v: Json, key: string): Option<Json> {
    if v.JObj? && key in v.fields then Some(v.fields[key]) else None
  }

  /** JavaScript truthiness of a possibly undefined JSON value. */
  predicate Truthy(v: Option<Json>) {
    match v
    case None => false
    case Some(JNull) => false
    case Some(JBool(b)) => b
    case Some(JNum(n)) => n != 0
    case Some(JStr(s)) => s != ""
    case Some(JArr(_)) => true
    case Some(JObj(_)) => true
  }

  /** `a || b`: the left operand when it is truthy, otherwise the right one. */
  function Or(a: Option<Json>, b: Json): (r: Json)
    ensures Truthy(a) ==> Some(r) == a
    ensures !Truthy(a) ==> r == b
    ensures Truthy(Some(b)) ==> Truthy(Some(r))
  {
    if Truthy(a) then a.value else b
  }

  /**
   * `s.replace(pat, rep)` with a string pattern: only the leftmost occurrence of
   * `pat` is replaced; without one, `s` comes back unchanged.
   */
  function ReplaceFirst(s: string, pat: string, rep: string): string
    decreases |s|
  {
    if |pat| <= |s| && s[..|pat|] == pat then rep + s[|pat|..]
    else if s == [] then s
    else [s[0]] + ReplaceFirst(s[1..], pat, rep)
  }

  /**
   * `s.replace(c, d)` with a one-character string pattern, scanning character by
   * character: the first `c` becomes `d`.
   */
  function ReplaceFirstChar(s: string, c: char, d: char): (r: string)
    ensures |r| == |s|
  {
    if s == [] then []
    else if s[0] == c then [d] + s[1..]
    else [s[0]] + ReplaceFirstChar(s[1..], c, d)
  }

  /** The character-wise scan is `replace` with the one-character pattern. */
  lemma {:induction false} ReplaceFirstCharAgrees(s: string, c: char, d: char)
    ensures ReplaceFirstChar(s, c, d) == ReplaceFirst(s, [c], [d])
  {
    if s != [] {
      if s[0] == c {
        assert s[..1] == [c];
      } else {
        assert s[..1] != [c];
        ReplaceFirstCharAgrees(s[1..], c, d);
      }
    }
  }

  /** `c` occurs at most once in `s`. */
  predicate AtMostOnce(s: string, c: char) {
    forall i, j :: 0 <= i < j < |s| && s[i] == c ==> s[j] != c
  }

  /** Replacing the first `c` by another character leaves no `c` when there was at most one. */
  lemma {:induction false} ReplaceFirstClearsSingle(s: string, c: char, d: char)
    requires c != d
    requires AtMostOnce(s, c)
    ensures c !in ReplaceFirstChar(s, c, d)
  {
    if s == [] {
    } else if s[0] == c {
      forall k | 0 <= k < |s[1..]| ensures s[1..][k] != c {
        assert s[1..][k] == s[k + 1];
      }
    } else {
      assert AtMostOnce(s[1..], c) by {
        forall i, j | 0 <= i < j < |s[1..]| && s[1..][i] == c ensures s[1..][j] != c {
          assert s[1..][i] == s[i + 1] && s[1..][j] == s[j + 1];
        }
      }
      ReplaceFirstClearsSingle(s[1..], c, d);
    }
  }

  /** Without any occurrence of `c`, replacing the first `c` changes nothing. */
  lemma {:induction false} ReplaceFirstAbsent(s: string, c: char, d: char)
    requires c !in s
    ensures ReplaceFirstChar(s, c, d) == s
  {
    if s != [] {
      assert c !in s[1..] by {
        forall k | 0 <= k < |s[1..]| ensures s[1..][k] != c {
          assert s[1..][k] == s[k + 1];
        }
      }
      ReplaceFirstAbsent(s[1..], c, d);
      assert s == [s[0]] + s[1..];
    }
  }
}
