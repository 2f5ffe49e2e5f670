/**
 * String operations the client's name and SQL building relies on: Java's
 * `Collectors.joining`, `String.replace` of a single character, `toLowerCase(Locale.ENGLISH)`
 * on ASCII letters, and, as a reference for round-trip statements, splitting on a separator.
 */
module Text {

  /** `t` occurs in `s` starting at index `i` */
  predicate OccursAt(s: string, t: string, i: nat) {
    i + |t| <= |s| && s[i..i + |t|] == t
  }

  predicate Contains(s: string, t: string) {
    exists i: nat | i <= |s| :: OccursAt(s, t, i)
  }

  lemma OccursAfterPrefix(a: string, t: string, b: string)
    ensures OccursAt(a + t + b, t, |a|)
  {
    assert (a + t + b)[|a|..|a| + |t|] == t;
  }

  lemma ContainsMiddle(a: string, t: string, b: string)
    ensures Contains(a + t + b, t)
  {
    OccursAfterPrefix(a, t, b);
  }

  /** `String.join(sep, xs)`: the elements in order with `sep` between neighbours */
  function Join(xs: seq<string>, sep: string): string
    decreases |xs|
  {
    if |xs| == 0 then ""
    else if |xs| == 1 then xs[0]
    else xs[0] + sep + Join(xs[1..], sep)
  }

  /** `Collectors.joining(sep, prefix, suffix)` */
  function Joining(xs: seq<string>, sep: string, prefix: string, suffix: string): string {
    prefix + Join(xs, sep) + suffix
  }

  /** Splits `s` at every occurrence of `sep`; the reference against which renderings are read back. */
  function Split(s: string, sep: char): (r: seq<string>)
    ensures |r| >= 1
    decreases |s|
  {
    if |s| == 0 then [""]
    else
      var rest := Split(s[1..], sep);
      if s[0] == sep then [""] + rest else [[s[0]] + rest[0]] + rest[1..]
  }

  lemma {:induction false} SplitWithoutSeparator(s: string, sep: char)
    requires sep !in s
    ensures Split(s, sep) == [s]
    decreases |s|
  {
    if |s| > 0 {
      assert sep !in s[1..];
      SplitWithoutSeparator(s[1..], sep);
      assert [s[0]] + s[1..] == s;
    }
  }

  /** Splitting peels off a separator-free first field. */
  lemma {:induction false} SplitAfterField(a: string, sep: char, b: string)
    requires sep !in a
    ensures Split(a + [sep] + b, sep) == [a] + Split(b, sep)
    decreases |a|
  {
    var s := a + [sep] + b;
    if |a| == 0 {
      assert s[1..] == b;
    } else {
      assert s[1..] == a[1..] + [sep] + b;
      assert sep !in a[1..];
      SplitAfterField(a[1..], sep, b);
      assert [a[0]] + a[1..] == a;
    }
  }

  /** Splitting undoes joining when no element contains the separator. */
  lemma {:induction false} SplitJoin(xs: seq<string>, sep: char)
    requires |xs| >= 1
    requires forall i :: 0 <= i < |xs| ==> sep !in xs[i]
    ensures Split(Join(xs, [sep]), sep) == xs
    decreases |xs|
  {
    if |xs| == 1 {
      SplitWithoutSeparator(xs[0], sep);
    } else {
      SplitJoin(xs[1..], sep);
      SplitAfterField(xs[0], sep, Join(xs[1..], [sep]));
    }
  }

  /** Java's `Character.toLowerCase` restricted to the ASCII letters a UUID string can hold */
  function LowerAscii(c: char): (r: char)
    ensures !('A' <= r <= 'Z')
    ensures !('A' <= c <= 'Z') ==> r == c
  {
    if 'A' <= c <= 'Z' then (c as int + 32) as char else c
  }

  /** `s.toLowerCase(Locale.ENGLISH)` on ASCII text */
  function ToLowerAscii(s: string): (r: string)
    ensures |r| == |s|
    ensures forall i :: 0 <= i < |s| ==> r[i] == LowerAscii(s[i])
  {
    seq(|s|, i requires 0 <= i < |s| => LowerAscii(s[i]))
  }

  /** `s.replace(String.valueOf(c), "")`: every occurrence of `c` dropped, the rest kept in order */
  function RemoveChar(s: string, c: char): (r: string)
    ensures c !in r
    ensures |r| <= |s|
    ensures forall x :: x in r ==> x in s
    decreases |s|
  {
    if |s| == 0 then ""
    else if s[0] == c then RemoveChar(s[1..], c)
    else [s[0]] + RemoveChar(s[1..], c)
  }

  /** Removal keeps every other character: the result is `s` exactly when `c` was absent. */
  lemma {:induction false} RemoveCharIdentity(s: string, c: char)
    ensures RemoveChar(s, c) == s <==> c !in s
    decreases |s|
  {
    if |s| > 0 {
      RemoveCharIdentity(s[1..], c);
      assert [s[0]] + s[1..] == s;
      if s[0] == c {
        assert c in s;
      } else {
        assert c in s <==> c in s[1..];
      }
    }
  }

  /** Removal distributes over concatenation, so it keeps the order of what remains. */
  lemma {:induction false} RemoveCharConcat(a: string, b: string, c: char)
    ensures RemoveChar(a + b, c) == RemoveChar(a, c) + RemoveChar(b, c)
    decreases |a|
  {
    if |a| > 0 {
      assert (a + b)[1..] == a[1..] + b;
      RemoveCharConcat(a[1..], b, c);
    } else {
      assert a + b == b;
    }
  }
}

/** Ordered occurrence of several pieces, each after the end of the previous one. */
module TextOrder {
  import opened Text

  ghost predicate AppearInOrder(s: string, pieces: seq<string>)
    decreases |pieces|
  {
    |pieces| == 0 ||
    exists i: nat :: OccursAt(s, pieces[0], i) && AppearInOrder(s[i + |pieces[0]|..], pieces[1..])
  }

  lemma AppearInOrderCons(a: string, p: string, b: string, rest: seq<string>)
    requires AppearInOrder(b, rest)
    ensures AppearInOrder(a + p + b, [p] + rest)
  {
    var s, pieces := a + p + b, [p] + rest;
    OccursAfterPrefix(a, p, b);
    assert s[|a| + |p|..] == b;
    assert pieces[0] == p && pieces[1..] == rest;
    assert OccursAt(s, pieces[0], |a|) && AppearInOrder(s[|a| + |pieces[0]|..], pieces[1..]);
  }
}
