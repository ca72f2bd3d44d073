/**
 * The `.env` file format the deployment script writes and the client reads back:
 * one `KEY=value` entry per line.
 */
module EnvFile {
  import Strings

  /** One entry as the deployment script writes it, newline-terminated. */
  function Line(key: string, value: string): string {
    key + "=" + value + "\n"
  }

  /** Splits one line at its first `=`; a line without `=` is a key with an empty value. */
  function Entry(line: string): (e: (string, string))
    ensures '=' !in e.0
    ensures '=' in line ==> e.0 + "=" + e.1 == line
    ensures '=' !in line ==> e == (line, "")
  {
    var i := Strings.IndexOf(line, '=');
    if i < |line| then
      assert line == line[..i] + "=" + line[i + 1..];
      (line[..i], line[i + 1..])
    else (line, "")
  }

  /** Splitting is the inverse of joining, as long as the key holds no `=`. */
  lemma EntryOfJoin(key: string, value: string)
    requires '=' !in key
    ensures Entry(key + "=" + value) == (key, value)
  {
    var line := key + "=" + value;
    assert line == key + ("=" + value);
    Strings.IndexOfAppend(key, "=" + value, '=');
    assert Strings.IndexOf(key, '=') == |key|;
    assert Strings.IndexOf(line, '=') == |key|;
    assert line[..|key|] == key;
    assert (key + "=" + value)[|key| + 1..] == value;
  }

  /** The entries of a file in file order; blank lines carry no entry. */
  function Parse(s: string): seq<(string, string)>
    decreases |s|
  {
    if s == [] then []
    else
      var n := Strings.IndexOf(s, '\n');
      var rest := if n < |s| then s[n + 1..] else [];
      if n == 0 then Parse(rest)
      else [Entry(s[..n])] + Parse(rest)
  }

  /** One unfolding of `Parse` at a line that ends in a newline at position `n`. */
  lemma {:induction false} ParseAtNewline(s: string, n: nat)
    requires n < |s| && s[n] == '\n' && '\n' !in s[..n]
    ensures Parse(s) == (if n == 0 then [] else [Entry(s[..n])]) + Parse(s[n + 1..])
  {
    assert forall j :: 0 <= j < n ==> s[j] == s[..n][j];
    assert Strings.IndexOf(s, '\n') == n;
  }

  /** One unfolding of `Parse` at a last line that has no newline. */
  lemma {:induction false} ParseLastLine(s: string)
    requires s != [] && '\n' !in s
    ensures Parse(s) == [Entry(s)]
  {
    var i := Strings.IndexOf(s, '\n');
    assert i == |s|;
    assert s[..i] == s;
  }

  /**
   * Joining two files with a newline in between keeps the entries of both, in order,
   * whether or not the first one ends in a newline.
   */
  lemma {:induction false} ParseAppend(a: string, b: string)
    ensures Parse(a + "\n" + b) == Parse(a) + Parse(b)
    decreases |a|, 1
  {
    var k := Strings.IndexOf(a, '\n');
    if k < |a| {
      ParseAppendFirstLine(a, b, k);
    } else {
      ParseAppendLastLine(a, b);
    }
  }

  /** `ParseAppend` when `a` has a line break at `k`: peel off the first line, then recurse. */
  lemma {:induction false} ParseAppendFirstLine(a: string, b: string, k: nat)
    requires k < |a| && a[k] == '\n' && '\n' !in a[..k]
    ensures Parse(a + "\n" + b) == Parse(a) + Parse(b)
    decreases |a|, 0
  {
    var s := a + "\n" + b;
    var tail := a[k + 1..];
    var first := if k == 0 then [] else [Entry(a[..k])];
    assert s[..k] == a[..k];
    assert s[k] == '\n';
    assert s[k + 1..] == tail + "\n" + b;
    ParseAtNewline(s, k);
    assert Parse(s) == first + Parse(tail + "\n" + b);
    ParseAtNewline(a, k);
    assert Parse(a) == first + Parse(tail);
    ParseAppend(tail, b);
    Regroup(Parse(s), Parse(a), first, Parse(tail), Parse(b));
  }

  /** Regrouping a shared first part: if `x = f + (t + u)` and `y = f + t`, then `x = y + u`. */
  lemma Regroup<E>(x: seq<E>, y: seq<E>, f: seq<E>, t: seq<E>, u: seq<E>)
    requires x == f + (t + u) && y == f + t
    ensures x == y + u
  {
  }

  /** `ParseAppend` when `a` holds no line break: it is one line, or nothing. */
  lemma {:induction false} ParseAppendLastLine(a: string, b: string)
    requires '\n' !in a
    ensures Parse(a + "\n" + b) == Parse(a) + Parse(b)
  {
    var s := a + "\n" + b;
    assert s[..|a|] == a;
    assert s[|a|] == '\n';
    assert s[|a| + 1..] == b;
    ParseAtNewline(s, |a|);
    if a != [] {
      ParseLastLine(a);
    }
  }

  /** A written line reads back as exactly its own entry, followed by whatever comes after it. */
  lemma ParseLine(key: string, value: string, rest: string)
    requires '=' !in key && '\n' !in key && '\n' !in value
    ensures Parse(Line(key, value) + rest) == [(key, value)] + Parse(rest)
  {
    var line := key + "=" + value;
    var s := Line(key, value) + rest;
    assert s == line + ("\n" + rest);
    assert '\n' !in line;
    Strings.IndexOfAppend(line, "\n" + rest, '\n');
    assert s[..|line|] == line;
    assert s[|line| + 1..] == rest;
    EntryOfJoin(key, value);
  }

  /** A file that ends at a line end can be extended without disturbing its entries. */
  lemma {:induction false} ParseAfterLineEnd(a: string, b: string)
    requires a == [] || a[|a| - 1] == '\n'
    ensures Parse(a + b) == Parse(a) + Parse(b)
  {
    if a == [] {
      assert a + b == b;
    } else {
      var init := a[..|a| - 1];
      assert a == init + "\n";
      assert a + b == init + "\n" + b;
      ParseAppend(init, b);
      ParseTrailingNewline(init);
    }
  }

  /** A final newline adds no entry. */
  lemma {:induction false} ParseTrailingNewline(a: string)
    ensures Parse(a + "\n") == Parse(a)
  {
    var empty: string := [];
    assert a + "\n" == a + "\n" + empty;
    ParseAppend(a, empty);
  }
}
