/**
 The two Kotlin string operations the chain relies on: rendering a
 `String?` inside a string template, and `String?.plus`. Both render an
 absent value as the four letters "null". Also a character count.
 */
module Text {
  import opened Nullable

  /** How Kotlin writes a nullable string into a template (`"$request"`). */
  function Render(s: Option<string>): string {
    match s
    case Some(t) => t
    case None => "null"
  }

  /** Kotlin's `String?.plus(String)`, the operator behind `request += text`
      on a nullable variable: never null, and a null left side reads "null". */
  function Concat(s: Option<string>, suffix: string): (r: string)
    ensures Render(s) <= r
    ensures |r| == |Render(s)| + |suffix|
    ensures r[|Render(s)|..] == suffix
  {
    Render(s) + suffix
  }

  /** Number of positions of `s` that hold `ch`. */
  function Occurrences(s: string, ch: char): nat {
    if |s| == 0 then 0
    else (if s[0] == ch then 1 else 0) + Occurrences(s[1..], ch)
  }

  /** Counting distributes over concatenation. */
  lemma {:induction false} OccurrencesAppend(a: string, b: string, ch: char)
    ensures Occurrences(a + b, ch) == Occurrences(a, ch) + Occurrences(b, ch)
  {
    if |a| == 0 {
      assert a + b == b;
    } else {
      assert (a + b)[1..] == a[1..] + b;
      OccurrencesAppend(a[1..], b, ch);
    }
  }

  /** A character that does not occur is counted zero times, and conversely. */
  lemma {:induction false} OccurrencesZero(s: string, ch: char)
    ensures Occurrences(s, ch) == 0 <==> ch !in s
  {
    if |s| > 0 {
      OccurrencesZero(s[1..], ch);
      assert s == [s[0]] + s[1..];
    }
  }
}
