/** Searching a string for a character. */
module Text {
  /** strings.Index(s, string(c)), or |s| when absent. */
  function IndexOf(s: string, c: char): (n: nat)
    ensures n <= |s|
  {
    if s == "" || s[0] == c then 0 else 1 + IndexOf(s[1..], c)
  }

  lemma {:induction false} IndexOfFirst(s: string, c: char, n: nat)
    requires n <= |s| && (n < |s| ==> s[n] == c) && c !in s[..n]
    ensures IndexOf(s, c) == n
  {
    if n > 0 {
      assert s[..n][0] == s[0] && s[..n][1..] == s[1..][..n - 1];
      IndexOfFirst(s[1..], c, n - 1);
    }
  }

  lemma {:induction false} IndexOfFinds(s: string, c: char)
    ensures var n := IndexOf(s, c); c !in s[..n] && (n < |s| ==> s[n] == c)
  {
    if s != "" && s[0] != c {
      IndexOfFinds(s[1..], c);
      var n := IndexOf(s, c);
      assert s[..n] == [s[0]] + s[1..][..n - 1];
    }
  }

  lemma {:induction false} IndexOfExtended(s: string, t: string, c: char)
    ensures IndexOf(s + t, c) == if IndexOf(s, c) < |s| then IndexOf(s, c) else |s| + IndexOf(t, c)
  {
    if s == "" {
      assert s + t == t;
    } else {
      assert (s + t)[0] == s[0] && (s + t)[1..] == s[1..] + t;
      IndexOfExtended(s[1..], t, c);
    }
  }
}
