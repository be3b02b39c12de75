/**
 * Expense and its construction gate `Expense.create`: an Expense exists only
 * when its description is not blank, its amount is positive, it has at least
 * one split, and its splits add up to the amount to within a cent.
 */
module Expenses {
  import opened Money
  import opened Results
  import opened Splits
  import Text

  /** The fields an Expense is created from (the optional date is not modelled). */
  datatype ExpenseProps = ExpenseProps(
    description: string,
    amount: int,
    payerId: string,
    groupId: string,
    splits: seq<Split>)

  /** An Expense entity: its identity and its props, read through the amount and splits getters. */
  datatype Expense = Expense(id: string, props: ExpenseProps)

  /**
   * `Expense.create`: the checks run in the source's order and the first that
   * fails decides the error; on success the Expense holds exactly the props.
   */
  function Create(props: ExpenseProps, id: string): (r: Result<Expense>)
    ensures Text.IsBlank(props.description) ==> r == Fail(DescriptionEmpty)
    ensures !Text.IsBlank(props.description) && props.amount <= 0 ==> r == Fail(AmountNotPositive)
    ensures !Text.IsBlank(props.description) && props.amount > 0 && |props.splits| == 0 ==> r == Fail(NoSplits)
    ensures !Text.IsBlank(props.description) && props.amount > 0 && |props.splits| > 0
            && !Reconciles(Total(props.splits), props.amount) ==>
              r == Fail(AmountMismatch(props.amount, Total(props.splits)))
    ensures r.Ok? <==> !Text.IsBlank(props.description) && props.amount > 0 && |props.splits| > 0
                       && Reconciles(Total(props.splits), props.amount)
    ensures r.Ok? ==> r.value == Expense(id, props)
  {
    Text.TrimEmptyIffBlank(props.description);
    if |Text.Trim(props.description)| == 0 then Fail(DescriptionEmpty)
    else if props.amount <= 0 then Fail(AmountNotPositive)
    else if |props.splits| == 0 then Fail(NoSplits)
    else
      var totalSplitAmount := Total(props.splits);
      if Abs(totalSplitAmount - props.amount) > ConservationSlackCents then
        Fail(AmountMismatch(props.amount, totalSplitAmount))
      else
        Ok(Expense(id, props))
  }

  /** Every Expense that `create` builds keeps the conservation invariant. */
  lemma CreatedExpenseReconciles(props: ExpenseProps, id: string)
    requires Create(props, id).Ok?
    ensures var e := Create(props, id).value;
            e.props.amount > 0 && |e.props.splits| > 0 && Abs(Total(e.props.splits) - e.props.amount) <= 1
  {
  }

  /** 33.33 + 33.33 + 33.33 against 100 is off by one cent and passes. */
  lemma OneCentShortPasses()
    ensures Create(ExpenseProps("除不盡的測試", 10000, "user-1", "group-999",
                                [Split("u1", 3333), Split("u2", 3333), Split("u3", 3333)]), "e").Ok?
  {
    var splits := [Split("u1", 3333), Split("u2", 3333), Split("u3", 3333)];
    assert Total(splits[..1]) == 3333 by {
      assert splits[..1][..0] == [];
    }
    assert splits[..2][..1] == splits[..1];
    assert Total(splits) == 9999;
    assert !Text.IsBlank("除不盡的測試") by {
      assert !Text.IsWhitespace("除不盡的測試"[0]);
    }
  }

  /** 50 + 40 against 100 is off by ten and fails with the mismatch. */
  lemma TenShortFails()
    ensures Create(ExpenseProps("算錯錢的帳單", 10000, "user-1", "group-999",
                                [Split("user-1", 5000), Split("user-2", 4000)]), "e")
            == Fail(AmountMismatch(10000, 9000))
  {
    var splits := [Split("user-1", 5000), Split("user-2", 4000)];
    assert splits[..1][..0] == [];
    assert Total(splits) == 9000;
    assert !Text.IsBlank("算錯錢的帳單") by {
      assert !Text.IsWhitespace("算錯錢的帳單"[0]);
    }
  }

  /** An amount of 0 with no splits reports the amount, not the missing splits. */
  lemma ZeroAmountReportedFirst()
    ensures Create(ExpenseProps("免費的東西", 0, "user-1", "group-999", []), "e") == Fail(AmountNotPositive)
  {
    assert !Text.IsBlank("免費的東西") by {
      assert !Text.IsWhitespace("免費的東西"[0]);
    }
  }
}
