/** The two string primitives the model needs: searching for a character and ASCII upper-casing. */
module Strings {

  /** Position of the first `c` in `s`, or `|s|` when `s` holds no `c`. */
  function IndexOf(s: string, c: char): (i: nat)
    ensures i <= |s|
    ensures i < |s| ==> s[i] == c
    ensures forall j :: 0 <= j < i ==> s[j] != c
  {
    if s == [] then 0
    else if s[0] == c then 0
    else 1 + IndexOf(s[1..], c)
  }

  /** Searching a concatenation finds the first occurrence in the left part, if any. */
  lemma IndexOfAppend(a: string, b: string, c: char)
    ensures IndexOf(a + b, c) == if IndexOf(a, c) < |a| then IndexOf(a, c) else |a| + IndexOf(b, c)
  {
    var i := IndexOf(a + b, c);
    var k := IndexOf(a, c);
    if k < |a| {
      assert (a + b)[k] == c;
    } else {
      var m := IndexOf(b, c);
      assert forall j :: 0 <= j < |a| ==> (a + b)[j] != c;
      if m < |b| {
        assert (a + b)[|a| + m] == c;
      }
      assert forall j :: |a| <= j < |a| + m ==> (a + b)[j] == b[j - |a|];
    }
  }

  predicate IsLower(c: char) {
    'a' <= c <= 'z'
  }

  predicate IsLetter(c: char) {
    IsLower(c) || 'A' <= c <= 'Z'
  }

  /** ASCII `toUpperCase` of one character: `a`..`z` move to `A`..`Z`, everything else is kept. */
  function UpperChar(c: char): (u: char)
    ensures !IsLower(u)
    ensures IsLower(c) ==> u as int == c as int - 32
    ensures !IsLower(c) ==> u == c
  {
    if IsLower(c) then (c as int - 32) as char else c
  }

  /** JavaScript's `String.prototype.toUpperCase`, restricted to ASCII. */
  function ToUpper(s: string): (r: string)
    ensures |r| == |s|
    ensures forall i :: 0 <= i < |s| ==> r[i] == UpperChar(s[i])
    ensures forall i :: 0 <= i < |r| ==> !IsLower(r[i])
  {
    seq(|s|, i requires 0 <= i < |s| => UpperChar(s[i]))
  }

  /** Upper-casing is idempotent, and it never introduces a character that is not a letter. */
  lemma ToUpperIdempotent(s: string)
    ensures ToUpper(ToUpper(s)) == ToUpper(s)
    ensures forall c :: !IsLetter(c) && c !in s ==> c !in ToUpper(s)
  {
    var u := ToUpper(s);
    assert forall c :: !IsLetter(c) && c in u ==> c in s by {
      forall c | !IsLetter(c) && c in u
        ensures c in s
      {
        var i :| 0 <= i < |u| && u[i] == c;
        assert UpperChar(s[i]) == c;
      }
    }
  }
}
