/** String helpers shared by the SQL builders and the annotation-processor model. */
module Text {

  /** `items` separated by `sep`, as `String.join` produces it. */
  function Join(items: seq<string>, sep: string): string
  {
    if |items| == 0 then ""
    else if |items| == 1 then items[0]
    else Join(items[..|items| - 1], sep) + sep + items[|items| - 1]
  }

  /** Every item followed by `sep`: what a buffer holds after a loop that appends item, then sep. */
  function Terminated(items: seq<string>, sep: string): string
  {
    if |items| == 0 then "" else Terminated(items[..|items| - 1], sep) + items[|items| - 1] + sep
  }

  /** `n` copies of `s`. */
  function Repeat(s: string, n: nat): (r: seq<string>)
    ensures |r| == n && forall i :: 0 <= i < n ==> r[i] == s
  {
    seq(n, _ => s)
  }

  lemma AppendAssoc<T>(a: seq<T>, b: seq<T>, c: seq<T>)
    ensures (a + b) + c == a + (b + c)
  {
  }

  lemma RepeatSnoc(s: string, n: nat)
    ensures Repeat(s, n + 1) == Repeat(s, n) + [s]
  {
    assert Repeat(s, n + 1)[..n] == Repeat(s, n);
  }

  lemma TerminatedSnoc(items: seq<string>, x: string, sep: string)
    ensures Terminated(items + [x], sep) == Terminated(items, sep) + x + sep
  {
    assert (items + [x])[..|items|] == items;
  }

  /** A terminated list is the joined list plus one trailing separator, which a cut-back removes. */
  lemma {:induction false} TerminatedIsJoinThenSeparator(items: seq<string>, sep: string)
    requires |items| > 0
    ensures Terminated(items, sep) == Join(items, sep) + sep
  {
    if |items| > 1 {
      TerminatedIsJoinThenSeparator(items[..|items| - 1], sep);
    }
  }

  /** Removing the last `n` characters restores what was there before `suffix` was appended. */
  lemma CutBackSuffix(prefix: string, suffix: string)
    ensures (prefix + suffix)[..|prefix + suffix| - |suffix|] == prefix
  {
  }

  /** Number of occurrences of `c` in `s`. */
  function Occurrences(s: string, c: char): nat
  {
    if |s| == 0 then 0
    else Occurrences(s[..|s| - 1], c) + (if s[|s| - 1] == c then 1 else 0)
  }

  lemma {:induction false} OccurrencesAppend(a: string, b: string, c: char)
    ensures Occurrences(a + b, c) == Occurrences(a, c) + Occurrences(b, c)
  {
    if |b| == 0 {
      assert a + b == a;
    } else {
      assert (a + b)[..|a + b| - 1] == a + b[..|b| - 1];
      OccurrencesAppend(a, b[..|b| - 1], c);
    }
  }

  lemma {:induction false} OccurrencesAbsent(s: string, c: char)
    ensures Occurrences(s, c) == 0 <==> c !in s
  {
    if |s| > 0 {
      OccurrencesAbsent(s[..|s| - 1], c);
      assert s == s[..|s| - 1] + [s[|s| - 1]];
    }
  }

  /** Joining items that each hold `k` copies of `c`, with a separator holding none. */
  lemma {:induction false} OccurrencesInJoin(items: seq<string>, sep: string, c: char, k: nat)
    requires forall i :: 0 <= i < |items| ==> Occurrences(items[i], c) == k
    requires Occurrences(sep, c) == 0
    ensures Occurrences(Join(items, sep), c) == k * |items|
  {
    if |items| > 1 {
      var init := items[..|items| - 1];
      var last := items[|items| - 1];
      forall i | 0 <= i < |init| ensures Occurrences(init[i], c) == k {
        assert init[i] == items[i];
      }
      OccurrencesInJoin(init, sep, c, k);
      assert Join(items, sep) == Join(init, sep) + sep + last;
      OccurrencesAppend(Join(init, sep), sep, c);
      OccurrencesAppend(Join(init, sep) + sep, last, c);
      MulSucc(k, |init|);
    }
  }

  lemma MulSucc(k: nat, n: nat)
    ensures k * (n + 1) == k * n + k
  {
  }

  /** Java's `String.trim`: drops leading and trailing characters at or below U+0020. */
  function Trim(s: string): (r: string)
    ensures |r| <= |s|
  {
    TrimEnd(TrimStart(s))
  }

  function TrimStart(s: string): (r: string)
    ensures |r| <= |s|
  {
    if |s| > 0 && s[0] <= ' ' then TrimStart(s[1..]) else s
  }

  function TrimEnd(s: string): (r: string)
    ensures |r| <= |s|
  {
    if |s| > 0 && s[|s| - 1] <= ' ' then TrimEnd(s[..|s| - 1]) else s
  }

  /** The trimmed text has no blank at either end, and is empty exactly when the text is all blanks. */
  lemma TrimSpec(s: string)
    ensures Trim(s) == "" || (Trim(s)[0] > ' ' && Trim(s)[|Trim(s)| - 1] > ' ')
    ensures Trim(s) == "" <==> forall i :: 0 <= i < |s| ==> s[i] <= ' '
  {
    var t := TrimStart(s);
    TrimStartSpec(s);
    TrimEndSpec(t);
    var r := TrimEnd(t);
    if r != "" {
      assert r[0] == t[0];
    }
  }

  /** `TrimStart` keeps a suffix starting with a non-blank, and drops only blanks. */
  lemma {:induction false} TrimStartSpec(s: string)
    ensures TrimStart(s) == s[|s| - |TrimStart(s)|..]
    ensures TrimStart(s) == "" || TrimStart(s)[0] > ' '
    ensures forall i :: 0 <= i < |s| - |TrimStart(s)| ==> s[i] <= ' '
  {
    if |s| > 0 && s[0] <= ' ' {
      TrimStartSpec(s[1..]);
      assert forall i :: 1 <= i < |s| ==> s[i] == s[1..][i - 1];
    }
  }

  /** `TrimEnd` keeps a prefix ending with a non-blank, and drops only blanks. */
  lemma {:induction false} TrimEndSpec(s: string)
    ensures TrimEnd(s) == s[..|TrimEnd(s)|]
    ensures TrimEnd(s) == "" || TrimEnd(s)[|TrimEnd(s)| - 1] > ' '
    ensures forall i :: |TrimEnd(s)| <= i < |s| ==> s[i] <= ' '
  {
    if |s| > 0 && s[|s| - 1] <= ' ' {
      TrimEndSpec(s[..|s| - 1]);
    }
  }

  /** Index of the last `c` in `s`. */
  function LastIndexOf(s: string, c: char): (k: nat)
    requires c in s
    ensures k < |s| && s[k] == c && c !in s[k + 1..]
  {
    if s[|s| - 1] == c then |s| - 1 else LastIndexOf(s[..|s| - 1], c)
  }

  /**
   * The pieces of `s` between occurrences of `sep`, empty pieces included
   * (`String.split` with a one-character pattern, before it drops trailing empty pieces).
   */
  function Split(s: string, sep: char): (r: seq<string>)
    ensures |r| > 0
    ensures forall i :: 0 <= i < |r| ==> sep !in r[i]
    ensures Join(r, [sep]) == s
    decreases |s|
  {
    if sep !in s then [s]
    else
      var k := LastIndexOf(s, sep);
      var init := Split(s[..k], sep);
      assert (init + [s[k + 1..]])[..|init|] == init;
      assert s == s[..k] + [sep] + s[k + 1..];
      init + [s[k + 1..]]
  }
}
