/** Position labels of a contest's problems: A, B, … Z, AA, AB, … */
module ContestLetters {
  predicate IsLetter(c: char) {
    'A' <= c <= 'Z' || 'a' <= c <= 'z'
  }

  predicate AllLetters(s: string) {
    forall i :: 0 <= i < |s| ==> IsLetter(s[i])
  }

  predicate AllCapitals(s: string) {
    forall i :: 0 <= i < |s| ==> 'A' <= s[i] <= 'Z'
  }

  function Capital(c: char): char {
    if 'a' <= c <= 'z' then (c as int - 32) as char else c
  }

  function UpperCase(s: string): (u: string)
    ensures |u| == |s|
    ensures AllLetters(s) ==> AllCapitals(u)
    ensures forall i :: 0 <= i < |s| && 'A' <= s[i] <= 'Z' ==> u[i] == s[i]
    ensures forall i :: 0 <= i < |s| && 'a' <= s[i] <= 'z' ==> u[i] as int == s[i] as int - 32
  {
    seq(|s|, i requires 0 <= i < |s| => Capital(s[i]))
  }

  /** The label of a position: base 26 with digits 1 to 26, no digit for zero. */
  function Label(n: int): (s: string)
    ensures AllCapitals(s)
    ensures s == "" <==> n < 0
    decreases n + 1
  {
    if n < 0 then "" else Label(n / 26 - 1) + [(65 + n % 26) as char]
  }

  /** The number a run of capitals stands for, "" being 0 and "A" being 1. */
  function Value(s: string): (n: int)
    requires AllCapitals(s)
    ensures n >= |s|
  {
    if s == "" then 0 else Value(s[..|s| - 1]) * 26 + (s[|s| - 1] as int - 64)
  }

  lemma {:induction false} ValueOfLabel(n: int)
    requires n >= -1
    ensures Value(Label(n)) == n + 1
    decreases n + 1
  {
    if n >= 0 {
      ValueOfLabel(n / 26 - 1);
      assert Label(n)[..|Label(n)| - 1] == Label(n / 26 - 1);
    }
  }

  lemma {:induction false} LabelOfValue(s: string)
    requires AllCapitals(s)
    ensures Label(Value(s) - 1) == s
  {
    if s != "" {
      var front, digit := s[..|s| - 1], s[|s| - 1] as int - 65;
      LabelOfValue(front);
      var n := Value(s) - 1;
      assert n == Value(front) * 26 + digit && 0 <= digit < 26;
      assert n / 26 == Value(front) && n % 26 == digit;
      assert front + [s[|s| - 1]] == s;
    }
  }

  /** What a shorter-first, then alphabetical, list of labels puts first. */
  ghost predicate Before(s: string, t: string) {
    |s| < |t| || (|s| == |t| && exists k :: DiffersFirstAt(s, t, k))
  }

  ghost predicate DiffersFirstAt(s: string, t: string, k: int) {
    0 <= k < |s| && k < |t| && s[..k] == t[..k] && s[k] < t[k]
  }

  /** Labels are handed out in the order a spreadsheet names its columns. */
  lemma {:induction false} LabelsAscend(i: int, j: int)
    requires -1 <= i < j
    ensures Before(Label(i), Label(j))
    decreases j
  {
    if i >= 0 {
      var (a, b) := (Label(i), Label(j));
      var (s, t) := (Label(i / 26 - 1), Label(j / 26 - 1));
      assert a[..|s|] == s && b[..|t|] == t;
      if i / 26 < j / 26 {
        LabelsAscend(i / 26 - 1, j / 26 - 1);
        if |s| == |t| {
          var k :| DiffersFirstAt(s, t, k);
          assert a[..k] == s[..k] && b[..k] == t[..k];
          assert DiffersFirstAt(a, b, k);
        }
      } else {
        assert DiffersFirstAt(a, b, |s|);
      }
    }
  }

  method IndexToLetter(index: int) returns (text: string)
    ensures text == Label(index)
  {
    text := "";
    var n := index;
    while n >= 0
      invariant n >= -1 || n == index
      invariant Label(n) + text == Label(index)
      decreases n + 1
    {
      text := [(65 + n % 26) as char] + text;
      n := n / 26 - 1;
    }
  }

  /** A word that is not a non-empty run of letters is answered -1. */
  function IndexOf(word: string): int {
    if word == "" || !AllLetters(word) then -1 else Value(UpperCase(word)) - 1
  }

  method LetterToIndex(letter: string) returns (index: int)
    ensures index == IndexOf(letter)
  {
    if letter == "" || !AllLetters(letter) { return -1; }
    var upper, n := UpperCase(letter), 0;
    for i := 0 to |upper|
      invariant n == Value(upper[..i])
    {
      n := n * 26 + (upper[i] as int - 64);
      assert upper[..i + 1][..i] == upper[..i];
    }
    assert upper[..|upper|] == upper;
    return n - 1;
  }

  /** Every position is found again from its own label. */
  lemma IndexRoundTrip(n: int)
    requires n >= 0
    ensures IndexOf(Label(n)) == n
  {
    ValueOfLabel(n);
    assert UpperCase(Label(n)) == Label(n);
  }

  /** Every word of letters, in either case, is the label of the position it names. */
  lemma LetterRoundTrip(word: string)
    requires word != "" && AllLetters(word)
    ensures IndexOf(word) >= 0 && Label(IndexOf(word)) == UpperCase(word)
  {
    LabelOfValue(UpperCase(word));
  }

  /** Only a non-empty run of letters names a position at all. */
  lemma OnlyLettersName(word: string)
    ensures IndexOf(word) == -1
       <==> word == "" || exists i :: 0 <= i < |word| && !('A' <= word[i] <= 'Z') && !('a' <= word[i] <= 'z')
    ensures IndexOf(word) >= -1
  {
    if word != "" && AllLetters(word) {
      LetterRoundTrip(word);
    }
  }

  /** A word names a position exactly when it is that position's label, case aside. */
  lemma NamesExactly(word: string, n: int)
    requires n >= 0
    ensures IndexOf(word) == n <==> AllLetters(word) && UpperCase(word) == Label(n)
  {
    if IndexOf(word) == n {
      LetterRoundTrip(word);
    } else if AllLetters(word) && UpperCase(word) == Label(n) {
      ValueOfLabel(n);
    }
  }
}
