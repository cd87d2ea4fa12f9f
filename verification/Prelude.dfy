/** Failure-carrying results, text and set helpers shared by the other modules. */
module Prelude {
  datatype Option<+T> = None | Some(value: T)

  datatype Result<+T, +E> = Ok(value: T) | Err(error: E)

  function Min(a: int, b: int): int {
    if a < b then a else b
  }

  function Max(a: int, b: int): int {
    if a < b then b else a
  }

  function LowerCase(s: string): string {
    seq(|s|, i requires 0 <= i < |s| => if 'A' <= s[i] <= 'Z' then s[i] - 'A' + 'a' else s[i])
  }

  predicate Contains(s: string, part: string) {
    part <= s || (s != [] && Contains(s[1..], part))
  }

  lemma Halves<T>(s: seq<T>, i: nat)
    requires i <= |s|
    ensures s == s[..i] + s[i..]
  {
  }

  lemma {:induction false} SizeWithin(s: set<nat>, m: nat, k: nat)
    requires forall j <- s :: m <= j < m + k
    ensures |s| <= k
  {
    if k == 0 {
      assert s == {};
    } else {
      var last := m + k - 1;
      SizeWithin(s - {last}, m, k - 1);
      if last in s { assert s == s - {last} + {last}; } else { assert s == s - {last}; }
    }
  }
}
