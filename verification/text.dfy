/**
 * The Python 2 string built-ins the core relies on: argument-less
 * `str.split()`, `sep.join(parts)`, `str.split(c)`, `str.startswith`,
 * ASCII `upper`/`lower`, `str.replace` on one character, `s[:-1]`,
 * `os.path.join` and `os.path.basename`, and the flattening that the
 * source writes as a nested list comprehension.
 */
module Text {

  /** The bytes Python 2's `str.isspace` accepts: space, \t, \n, \v, \f, \r. */
  predicate IsSpace(c: char) {
    c == ' ' || ('\t' <= c <= '\r')
  }

  predicate NoSpace(s: string) {
    forall i :: 0 <= i < |s| ==> !IsSpace(s[i])
  }

  /** A token as argument-less `split()` yields it: non-empty, no whitespace. */
  predicate IsToken(t: string) {
    |t| > 0 && NoSpace(t)
  }

  predicate AllTokens(ts: seq<string>) {
    forall i :: 0 <= i < |ts| ==> IsToken(ts[i])
  }

  /** Length of the leading run of non-whitespace characters. */
  function TokenLength(s: string): (n: nat)
    ensures n <= |s|
    ensures NoSpace(s[..n])
    ensures n < |s| ==> IsSpace(s[n])
  {
    if s == [] || IsSpace(s[0]) then 0 else 1 + TokenLength(s[1..])
  }

  /** `s.split()`: the maximal runs of non-whitespace, in order. */
  function Split(s: string): (ts: seq<string>)
    ensures AllTokens(ts)
    decreases |s|
  {
    if s == [] then []
    else if IsSpace(s[0]) then Split(s[1..])
    else
      var n := TokenLength(s);
      [s[..n]] + Split(s[n..])
  }

  /** `sep.join(parts)`. */
  function Join(sep: string, parts: seq<string>): string {
    if |parts| == 0 then ""
    else if |parts| == 1 then parts[0]
    else parts[0] + sep + Join(sep, parts[1..])
  }

  /** `s.split(c)` for a one-character separator: never empty, and no part holds `c`. */
  function SplitOn(s: string, c: char): (parts: seq<string>)
    ensures |parts| >= 1
    ensures forall i :: 0 <= i < |parts| ==> c !in parts[i]
  {
    if s == [] then [""]
    else
      var rest := SplitOn(s[1..], c);
      if s[0] == c then [""] + rest else [[s[0]] + rest[0]] + rest[1..]
  }

  /** Number of occurrences of `c` in `s`. */
  function Occurrences(s: string, c: char): nat {
    if s == [] then 0 else (if s[0] == c then 1 else 0) + Occurrences(s[1..], c)
  }

  /** The characters of `s` that are not whitespace, in order. */
  function NonSpace(s: string): string {
    if s == [] then "" else (if IsSpace(s[0]) then "" else [s[0]]) + NonSpace(s[1..])
  }

  /** `s.startswith(p)`. */
  predicate StartsWith(s: string, p: string) {
    |p| <= |s| && s[..|p|] == p
  }

  function UpperChar(c: char): char {
    if 'a' <= c <= 'z' then (c as int - 32) as char else c
  }

  function LowerChar(c: char): char {
    if 'A' <= c <= 'Z' then (c as int + 32) as char else c
  }

  /** `s.upper()` on ASCII text. */
  function Upper(s: string): (r: string)
    ensures |r| == |s|
  {
    seq(|s|, i requires 0 <= i < |s| => UpperChar(s[i]))
  }

  /** `s.lower()` on ASCII text. */
  function Lower(s: string): (r: string)
    ensures |r| == |s|
  {
    seq(|s|, i requires 0 <= i < |s| => LowerChar(s[i]))
  }

  predicate HasNoUpper(s: string) {
    forall i :: 0 <= i < |s| ==> !('A' <= s[i] <= 'Z')
  }

  /** `s.replace(a, b)` for single characters. */
  function ReplaceChar(s: string, a: char, b: char): (r: string)
    ensures |r| == |s|
  {
    seq(|s|, i requires 0 <= i < |s| => if s[i] == a then b else s[i])
  }

  /** `s[:-1]`: all but the last character; "" stays "". */
  function DropLast(s: string): (r: string)
    ensures |s| > 0 ==> s == r + [s[|s| - 1]]
    ensures |s| == 0 ==> r == ""
  {
    if |s| == 0 then "" else s[..|s| - 1]
  }

  /** `os.path.join(a, b)` (posixpath): an absolute `b` replaces `a`. */
  function PathJoin(a: string, b: string): string {
    if |b| > 0 && b[0] == '/' then b
    else if a == "" || a[|a| - 1] == '/' then a + b
    else a + "/" + b
  }

  /** `os.path.basename(p)`: everything after the last '/'. */
  function Basename(p: string): (r: string)
    ensures '/' !in r
    ensures |r| <= |p| && p[|p| - |r|..] == r
  {
    if p == [] || p[|p| - 1] == '/' then ""
    else Basename(p[..|p| - 1]) + [p[|p| - 1]]
  }

  /** The concatenation of a sequence of sequences, in order. */
  function Flatten<T>(ss: seq<seq<T>>): seq<T> {
    if ss == [] then [] else ss[0] + Flatten(ss[1..])
  }

  /** `[y for x in xs for y in f(x)]`. */
  function FlatMap<A, B>(xs: seq<A>, f: A -> seq<B>): seq<B> {
    if xs == [] then [] else f(xs[0]) + FlatMap(xs[1..], f)
  }

  /** `[w.lower() for w in ws]`. */
  function LowerAll(ws: seq<string>): (r: seq<string>)
    ensures |r| == |ws|
  {
    seq(|ws|, i requires 0 <= i < |ws| => Lower(ws[i]))
  }

  // ---------------------------------------------------------------------
  // Lemmas about split and join

  lemma {:induction false} TokenLengthOfToken(t: string, rest: string)
    requires NoSpace(t)
    requires rest == [] || IsSpace(rest[0])
    ensures TokenLength(t + rest) == |t|
  {
    if t != [] {
      assert (t + rest)[1..] == t[1..] + rest;
      TokenLengthOfToken(t[1..], rest);
    }
  }

  /** Splitting a space-joined list of tokens gives back the tokens. */
  lemma {:induction false} SplitJoin(ts: seq<string>)
    requires AllTokens(ts)
    ensures Split(Join(" ", ts)) == ts
  {
    if |ts| == 1 {
      var t := ts[0];
      TokenLengthOfToken(t, "");
      assert t + "" == t;
      assert t[|t|..] == "";
    } else if |ts| > 1 {
      var t, j := ts[0], Join(" ", ts[1..]);
      var s := t + " " + j;
      assert s == t + (" " + j);
      TokenLengthOfToken(t, " " + j);
      assert s[..|t|] == t;
      assert s[|t|..] == " " + j;
      assert (" " + j)[1..] == j;
      SplitJoin(ts[1..]);
      assert ts == [t] + ts[1..];
    }
  }

  /** A space-joined list of tokens starts and ends with a non-space and
      has no whitespace other than single ' ' separators. */
  lemma {:induction false} JoinShape(ts: seq<string>)
    requires AllTokens(ts)
    ensures var r := Join(" ", ts);
      && (r == "" <==> ts == [])
      && (r != "" ==> !IsSpace(r[0]) && !IsSpace(r[|r| - 1]))
      && (forall i :: 0 <= i < |r| && IsSpace(r[i]) ==> r[i] == ' ')
      && (forall i :: 0 <= i < |r| - 1 ==> !(IsSpace(r[i]) && IsSpace(r[i + 1])))
  {
    if |ts| > 1 {
      var t, j := ts[0], Join(" ", ts[1..]);
      JoinShape(ts[1..]);
      var r := t + " " + j;
      assert r == Join(" ", ts);
      assert forall i :: 0 <= i < |t| ==> r[i] == t[i];
      assert r[|t|] == ' ';
      assert forall i :: |t| < i < |r| ==> r[i] == j[i - |t| - 1];
    }
  }

  lemma {:induction false} NonSpaceAppend(a: string, b: string)
    ensures NonSpace(a + b) == NonSpace(a) + NonSpace(b)
  {
    if a == [] {
      assert a + b == b;
    } else {
      assert (a + b)[0] == a[0];
      assert (a + b)[1..] == a[1..] + b;
      NonSpaceAppend(a[1..], b);
    }
  }

  lemma {:induction false} NonSpaceOfToken(t: string)
    requires NoSpace(t)
    ensures NonSpace(t) == t
  {
    if t != [] {
      assert t == [t[0]] + t[1..];
      NonSpaceOfToken(t[1..]);
    }
  }

  lemma {:induction false} NonSpaceOfJoin(ts: seq<string>)
    requires AllTokens(ts)
    ensures NonSpace(Join(" ", ts)) == Flatten(ts)
  {
    if |ts| == 1 {
      NonSpaceOfToken(ts[0]);
    } else if |ts| > 1 {
      NonSpaceOfJoin(ts[1..]);
      NonSpaceOfToken(ts[0]);
      NonSpaceAppend(ts[0] + " ", Join(" ", ts[1..]));
      NonSpaceAppend(ts[0], " ");
    }
  }

  /** The tokens of `s`, concatenated, are exactly its non-space characters. */
  lemma {:induction false} NonSpaceOfSplit(s: string)
    ensures Flatten(Split(s)) == NonSpace(s)
    decreases |s|
  {
    if s != [] {
      if IsSpace(s[0]) {
        NonSpaceOfSplit(s[1..]);
      } else {
        var n := TokenLength(s);
        assert s == s[..n] + s[n..];
        NonSpaceAppend(s[..n], s[n..]);
        NonSpaceOfToken(s[..n]);
        NonSpaceOfSplit(s[n..]);
      }
    }
  }

  // ---------------------------------------------------------------------
  // Lemmas about split on one character

  /** `s.split(c)` has one more part than `s` has occurrences of `c`. */
  lemma {:induction false} SplitOnCount(s: string, c: char)
    ensures |SplitOn(s, c)| == Occurrences(s, c) + 1
  {
    if s != [] {
      SplitOnCount(s[1..], c);
    }
  }

  /** A character occurs nowhere exactly when its count is zero. */
  lemma {:induction false} OccurrencesZero(s: string, c: char)
    ensures Occurrences(s, c) == 0 <==> c !in s
  {
    if s != [] {
      OccurrencesZero(s[1..], c);
      assert s == [s[0]] + s[1..];
    }
  }

  /** Joining the parts of `s.split(c)` with `c` gives back `s`. */
  lemma {:induction false} JoinSplitOn(s: string, c: char)
    ensures Join([c], SplitOn(s, c)) == s
  {
    if s != [] {
      var rest := SplitOn(s[1..], c);
      JoinSplitOn(s[1..], c);
      if s[0] == c {
        assert SplitOn(s, c) == [""] + rest;
        JoinConsLeft([c], "", rest);
        assert s == [c] + s[1..];
      } else {
        var parts := SplitOn(s, c);
        assert parts == [[s[0]] + rest[0]] + rest[1..];
        assert rest == [rest[0]] + rest[1..];
        JoinHead([c], [s[0]], rest);
      }
    }
  }

  /** Join of a list whose head is the empty string. */
  lemma JoinConsLeft(sep: string, head: string, rest: seq<string>)
    requires |rest| >= 1 && head == ""
    ensures Join(sep, [head] + rest) == sep + Join(sep, rest)
  {
    assert ([head] + rest)[1..] == rest;
  }

  /** Prepending a string to the first part prepends it to the join. */
  lemma JoinHead(sep: string, x: string, parts: seq<string>)
    requires |parts| >= 1
    ensures Join(sep, [x + parts[0]] + parts[1..]) == x + Join(sep, parts)
  {
    var q := [x + parts[0]] + parts[1..];
    if |parts| > 1 {
      assert q[1..] == parts[1..];
    }
  }

  /** Splitting on `c` undoes joining with `c` when no part holds `c`. */
  lemma {:induction false} SplitOnJoin(parts: seq<string>, c: char)
    requires |parts| >= 1
    requires forall i :: 0 <= i < |parts| ==> c !in parts[i]
    ensures SplitOn(Join([c], parts), c) == parts
    decreases |parts|, |parts[0]|
  {
    var p := parts[0];
    if p == [] {
      if |parts| > 1 {
        SplitOnJoin(parts[1..], c);
        var s := Join([c], parts);
        assert s == [c] + Join([c], parts[1..]);
        assert s[1..] == Join([c], parts[1..]);
        assert parts == [""] + parts[1..];
      }
    } else {
      assert p[0] != c by { assert p[0] in p; }
      assert c !in p[1..] by {
        forall k | 0 <= k < |p[1..]| ensures p[1..][k] != c { assert p[1..][k] == p[k + 1]; }
      }
      var tail := [p[1..]] + parts[1..];
      SplitOnJoin(tail, c);
      var s := Join([c], parts);
      assert [p[0]] + p[1..] == p;
      assert [[p[0]] + tail[0]] + tail[1..] == parts;
      JoinHead([c], [p[0]], tail);
      assert s == [p[0]] + Join([c], tail);
      assert s[1..] == Join([c], tail);
    }
  }

  // ---------------------------------------------------------------------
  // Flatten

  lemma {:induction false} FlattenAppend<T>(a: seq<seq<T>>, b: seq<seq<T>>)
    ensures Flatten(a + b) == Flatten(a) + Flatten(b)
  {
    if a == [] {
      assert a + b == b;
    } else {
      assert (a + b)[0] == a[0];
      assert (a + b)[1..] == a[1..] + b;
      FlattenAppend(a[1..], b);
    }
  }

  /** Every element of a flattened sequence comes from one of the parts, and back. */
  lemma {:induction false} InFlatten<T>(ss: seq<seq<T>>, x: T)
    ensures x in Flatten(ss) <==> exists i :: 0 <= i < |ss| && x in ss[i]
  {
    if ss != [] {
      InFlatten(ss[1..], x);
      if x in Flatten(ss[1..]) {
        var i :| 0 <= i < |ss[1..]| && x in ss[1..][i];
        assert x in ss[i + 1];
      }
      if exists i :: 0 <= i < |ss| && x in ss[i] {
        var i :| 0 <= i < |ss| && x in ss[i];
        if i > 0 {
          assert x in ss[1..][i - 1];
        }
      }
    }
  }

  lemma {:induction false} FlatMapAppend<A, B>(a: seq<A>, b: seq<A>, f: A -> seq<B>)
    ensures FlatMap(a + b, f) == FlatMap(a, f) + FlatMap(b, f)
  {
    if a == [] {
      assert a + b == b;
    } else {
      assert (a + b)[0] == a[0];
      assert (a + b)[1..] == a[1..] + b;
      FlatMapAppend(a[1..], b, f);
    }
  }

  lemma {:induction false} InFlatMap<A, B>(xs: seq<A>, f: A -> seq<B>, y: B)
    ensures y in FlatMap(xs, f) <==> exists i :: 0 <= i < |xs| && y in f(xs[i])
  {
    if xs != [] {
      InFlatMap(xs[1..], f, y);
      if y in FlatMap(xs[1..], f) {
        var i :| 0 <= i < |xs[1..]| && y in f(xs[1..][i]);
        assert xs[1..][i] == xs[i + 1];
      }
      if exists i :: 0 <= i < |xs| && y in f(xs[i]) {
        var i :| 0 <= i < |xs| && y in f(xs[i]);
        if i > 0 {
          assert xs[1..][i - 1] == xs[i];
        }
      }
    }
  }

  lemma LowerHasNoUpper(s: string)
    ensures HasNoUpper(Lower(s))
  {
  }

  lemma LowerAllAppend(a: seq<string>, b: seq<string>)
    ensures LowerAll(a + b) == LowerAll(a) + LowerAll(b)
  {
  }

  lemma {:induction false} NonSpaceEmpty(s: string)
    ensures NonSpace(s) == "" <==> forall i :: 0 <= i < |s| ==> IsSpace(s[i])
  {
    if s != [] {
      NonSpaceEmpty(s[1..]);
      assert forall i :: 1 <= i < |s| ==> s[i] == s[1..][i - 1];
    }
  }
}
