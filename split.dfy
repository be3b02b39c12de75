/**
 * The allocation value: how much one participant owes toward an expense.
 *
 * The source's Split wraps readonly props; a datatype value is immutable in
 * the same way, and its destructors are the userId and amount getters.
 */
module Splits {

  datatype Split = Split(userId: string, amount: int) {

    /**
     * `adjustAmount`: a new Split for the same participant whose amount is
     * newAmount rounded to cents. Amounts are already whole cents here, so
     * the rounding keeps newAmount as it is; the receiver is a value and
     * cannot change.
     */
    function AdjustAmount(newAmount: int): (r: Split)
      ensures r.userId == userId
      ensures r.amount == newAmount
    {
      Split(userId, newAmount)
    }
  }

  /** `splits.reduce((sum, s) => sum + s.amount, 0)`, folded from the left. */
  function Total(splits: seq<Split>): int {
    if |splits| == 0 then 0 else Total(splits[..|splits| - 1]) + splits[|splits| - 1].amount
  }

  /** Adjusting twice to the same amount gives what adjusting once gives. */
  lemma AdjustAmountIdempotent(s: Split, newAmount: int)
    ensures s.AdjustAmount(newAmount).AdjustAmount(newAmount) == s.AdjustAmount(newAmount)
  {
  }

  /** The getters return what the Split was built from. */
  lemma GettersReturnProps(userId: string, amount: int)
    ensures Split(userId, amount).userId == userId && Split(userId, amount).amount == amount
  {
  }

  /** Total of a concatenation is the sum of the totals. */
  lemma {:induction false} TotalAppend(a: seq<Split>, b: seq<Split>)
    ensures Total(a + b) == Total(a) + Total(b)
    decreases |b|
  {
    if |b| == 0 {
      assert a + b == a;
    } else {
      var b' := b[..|b| - 1];
      assert (a + b)[..|a + b| - 1] == a + b';
      TotalAppend(a, b');
    }
  }

  /** Total of a split followed by more splits. */
  lemma TotalCons(first: Split, rest: seq<Split>)
    ensures Total([first] + rest) == first.amount + Total(rest)
  {
    TotalAppend([first], rest);
    assert [first][..0] == [];
  }

  /** Changing the first amount by d changes the total by d. */
  lemma {:induction false} TotalShiftFirst(s: seq<Split>, d: int)
    requires |s| > 0
    ensures Total(s[0 := s[0].AdjustAmount(s[0].amount + d)]) == Total(s) + d
  {
    var t := s[0 := s[0].AdjustAmount(s[0].amount + d)];
    assert s == [s[0]] + s[1..];
    assert t == [t[0]] + s[1..];
    TotalAppend([s[0]], s[1..]);
    TotalAppend([t[0]], s[1..]);
    assert Total([s[0]]) == s[0].amount by {
      assert [s[0]][..0] == [];
    }
    assert Total([t[0]]) == t[0].amount by {
      assert [t[0]][..0] == [];
    }
  }
}
