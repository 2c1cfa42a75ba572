/** Counting parentheses in generated script text. */
module Parens {
  /** What one character adds to the count of open parentheses. */
  function Delta(c: char): int {
    if c == '(' then 1 else if c == ')' then -1 else 0
  }

  /** Opening minus closing parentheses. */
  function Balance(s: string): int
    decreases |s|
  {
    if |s| == 0 then 0 else Balance(s[..|s| - 1]) + Delta(s[|s| - 1])
  }

  predicate NoParens(s: string) {
    '(' !in s && ')' !in s
  }

  lemma {:induction false} BalanceConcat(a: string, b: string)
    ensures Balance(a + b) == Balance(a) + Balance(b)
    decreases |b|
  {
    if |b| == 0 {
      assert a + b == a;
    } else {
      var b' := b[..|b| - 1];
      assert (a + b)[..|a + b| - 1] == a + b';
      BalanceConcat(a, b');
    }
  }

  lemma {:induction false} NoParensBalanced(s: string)
    requires NoParens(s)
    ensures Balance(s) == 0
    decreases |s|
  {
    if |s| > 0 {
      assert s[|s| - 1] in s;
      var s' := s[..|s| - 1];
      assert forall c :: c in s' ==> c in s;
      NoParensBalanced(s');
    }
  }
}
