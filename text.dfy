/**
  * Strings as the list pipelines see them: lower-casing (`String.prototype.toLowerCase`,
  * modelled on the ASCII letters only) and substring search (`String.prototype.includes`).
  */
module Text {

  /** The ASCII upper-case letters. */
  predicate IsUpper(c: char) {
    'A' <= c <= 'Z'
  }

  /** Lower-cases one character: ASCII letters move down by 32, everything else is kept. */
  function LowerChar(c: char): char {
    if IsUpper(c) then (c as int + 32) as char else c
  }

  /** `s.toLowerCase()`, character by character. */
  function ToLower(s: string): (r: string)
    ensures |r| == |s|
    ensures forall i :: 0 <= i < |s| ==> r[i] == LowerChar(s[i])
  {
    if s == [] then [] else [LowerChar(s[0])] + ToLower(s[1..])
  }

  /** A lower-cased string holds no upper-case letter, and lower-casing it again changes nothing. */
  lemma ToLowerIdempotent(s: string)
    ensures forall i :: 0 <= i < |s| ==> !IsUpper(ToLower(s)[i])
    ensures ToLower(ToLower(s)) == ToLower(s)
  {
    var l := ToLower(s);
    forall i | 0 <= i < |s|
      ensures !IsUpper(l[i]) && LowerChar(l[i]) == l[i]
    {
      assert l[i] == LowerChar(s[i]);
    }
  }

  /** `t` occurs in `s` starting at index `i`. */
  predicate OccursAt(s: string, t: string, i: nat) {
    i + |t| <= |s| && s[i..i + |t|] == t
  }

  /** `s.includes(t)`: whether `t` is a contiguous part of `s`. */
  function Contains(s: string, t: string): (r: bool)
    ensures r <==> exists i: nat :: OccursAt(s, t, i)
  {
    if |t| > |s| then
      assert forall i: nat :: !OccursAt(s, t, i);
      false
    else if s[..|t|] == t then
      assert OccursAt(s, t, 0);
      true
    else
      var rest := Contains(s[1..], t);
      assert forall i: nat :: OccursAt(s[1..], t, i) <==> OccursAt(s, t, i + 1) by {
        forall i: nat ensures OccursAt(s[1..], t, i) <==> OccursAt(s, t, i + 1) {
          if i + 1 + |t| <= |s| {
            assert s[1..][i..i + |t|] == s[i + 1..i + 1 + |t|];
          }
        }
      }
      assert forall i: nat :: OccursAt(s, t, i) ==> i > 0;
      assert rest ==> exists i: nat :: OccursAt(s, t, i) by {
        if rest {
          var j: nat :| OccursAt(s[1..], t, j);
          assert OccursAt(s, t, j + 1);
        }
      }
      assert (exists i: nat :: OccursAt(s, t, i)) ==> rest by {
        if exists i: nat :: OccursAt(s, t, i) {
          var j: nat :| OccursAt(s, t, j);
          assert OccursAt(s[1..], t, j - 1);
        }
      }
      rest
  }

  /** Every string includes the empty string (so an empty search text would keep every item). */
  lemma ContainsEmpty(s: string)
    ensures Contains(s, "")
  {
    assert OccursAt(s, "", 0);
  }

  /** Lower-casing both strings keeps an occurrence where it was: a match survives any change of case. */
  lemma LowerKeepsOccurrence(s: string, t: string, i: nat)
    requires OccursAt(s, t, i)
    ensures OccursAt(ToLower(s), ToLower(t), i)
    ensures Contains(ToLower(s), ToLower(t))
  {
    var ls, lt := ToLower(s), ToLower(t);
    var w := ls[i..i + |t|];
    forall k | 0 <= k < |t| ensures w[k] == lt[k] {
      calc {
        w[k];
        ls[i + k];
        LowerChar(s[i + k]);
        { assert s[i + k] == s[i..i + |t|][k]; }
        LowerChar(t[k]);
        lt[k];
      }
    }
    assert w == lt;
    assert OccursAt(ls, lt, i);
  }
}
