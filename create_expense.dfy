/**
 * CreateExpenseUseCase.execute: look up the group, check that the payer is a
 * member, compute the splits for the requested split type, build the Expense
 * and save it. The first failing step ends the run, and only a run that
 * passes every step saves, exactly once.
 *
 * The group repository is represented by its two answers (is the group there,
 * is the payer in it); the expense repository by the sequence of Expenses
 * saved so far.
 */
module CreateExpense {
  import opened Results
  import opened Splits
  import opened Expenses
  import opened SplitService
  import Money
  import Text

  /** The split type tag with the payload it selects. */
  datatype SplitData =
    | Equal(memberIds: seq<string>)
    | Percentage(percentageMap: seq<(string, int)>)
    | Exact(amountMap: seq<(string, int)>)
    | Unrecognized

  datatype CreateExpenseRequest = CreateExpenseRequest(
    description: string,
    totalAmount: int,
    payerId: string,
    groupId: string,
    splitData: SplitData)

  /** EXACT: one split per key, carrying its amount as given, in key order. */
  function ExactSplits(amountMap: seq<(string, int)>): (r: seq<Split>)
    ensures |r| == |amountMap|
    ensures forall i :: 0 <= i < |r| ==> r[i].userId == amountMap[i].0 && r[i].amount == amountMap[i].1
  {
    seq(|amountMap|, i requires 0 <= i < |amountMap| => Split(amountMap[i].0, amountMap[i].1))
  }

  /** The splits the request's split type produces, or the calculator's failure. */
  function SplitsFor(totalAmount: int, data: SplitData): Result<seq<Split>> {
    match data
    case Equal(ids) => Ok(EqualSplits(totalAmount, ids))
    case Percentage(m) => PercentageSplits(totalAmount, m)
    case Exact(m) => Ok(ExactSplits(m))
    case Unrecognized => Fail(UnknownSplitType)
  }

  function PropsFor(req: CreateExpenseRequest, splits: seq<Split>): ExpenseProps {
    ExpenseProps(req.description, req.totalAmount, req.payerId, req.groupId, splits)
  }

  /**
   * What one run of execute decides: the Expense to save, or the failure it
   * returns. The steps fail in the source's order.
   */
  function Outcome(req: CreateExpenseRequest, groupFound: bool, payerInGroup: bool, expenseId: string)
    : (r: Result<Expense>)
    ensures !groupFound ==> r == Fail(GroupNotFound)
    ensures groupFound && !payerInGroup ==> r == Fail(PayerNotInGroup)
    ensures groupFound && payerInGroup && req.splitData.Unrecognized? ==> r == Fail(UnknownSplitType)
    ensures groupFound && payerInGroup && req.splitData.Percentage?
            && PercentageSplits(req.totalAmount, req.splitData.percentageMap).Fail? ==>
              r == Fail(PercentageSplits(req.totalAmount, req.splitData.percentageMap).error)
    ensures groupFound && payerInGroup && SplitsFor(req.totalAmount, req.splitData).Fail? ==>
              r == Fail(SplitsFor(req.totalAmount, req.splitData).error)
    ensures groupFound && payerInGroup && SplitsFor(req.totalAmount, req.splitData).Ok?
            && Create(PropsFor(req, SplitsFor(req.totalAmount, req.splitData).value), expenseId).Fail? ==>
              r == Fail(Create(PropsFor(req, SplitsFor(req.totalAmount, req.splitData).value), expenseId).error)
    ensures r.Ok? <==> groupFound && payerInGroup && SplitsFor(req.totalAmount, req.splitData).Ok?
                       && Create(PropsFor(req, SplitsFor(req.totalAmount, req.splitData).value), expenseId).Ok?
    ensures r.Ok? ==> r.value.id == expenseId && r.value.props.amount == req.totalAmount
                      && r.value.props.description == req.description
                      && r.value.props.payerId == req.payerId && r.value.props.groupId == req.groupId
                      && r.value.props.splits == SplitsFor(req.totalAmount, req.splitData).value
                      && Money.Reconciles(Total(r.value.props.splits), req.totalAmount)
  {
    if !groupFound then Fail(GroupNotFound)
    else if !payerInGroup then Fail(PayerNotInGroup)
    else
      var splitsResult := SplitsFor(req.totalAmount, req.splitData);
      if splitsResult.Fail? then Fail(splitsResult.error)
      else Create(PropsFor(req, splitsResult.value), expenseId)
  }

  /** EXACT amounts that miss the total by more than a cent fail in Expense.create. */
  lemma ExactMismatchFails(req: CreateExpenseRequest, expenseId: string)
    requires req.splitData.Exact? && |req.splitData.amountMap| > 0
    requires req.totalAmount > 0 && !Text.IsBlank(req.description)
    requires !Money.Reconciles(Total(ExactSplits(req.splitData.amountMap)), req.totalAmount)
    ensures Outcome(req, true, true, expenseId)
            == Fail(AmountMismatch(req.totalAmount, Total(ExactSplits(req.splitData.amountMap))))
  {
  }

  /** A valid request with an equal split over the group's members is saved with splits that add up. */
  lemma EqualRequestSucceeds(req: CreateExpenseRequest, expenseId: string)
    requires req.splitData.Equal? && |req.splitData.memberIds| > 0
    requires req.totalAmount > 0 && !Text.IsBlank(req.description)
    ensures Outcome(req, true, true, expenseId).Ok?
    ensures Total(Outcome(req, true, true, expenseId).value.props.splits) == req.totalAmount
  {
    EqualSplitsCorrect(req.totalAmount, req.splitData.memberIds);
  }

  /** A valid request whose percentages add up to 100% is saved with splits that add up. */
  lemma PercentageRequestSucceeds(req: CreateExpenseRequest, expenseId: string)
    requires req.splitData.Percentage?
    requires Money.IsFullPercentage(TotalPercentage(req.splitData.percentageMap))
    requires req.totalAmount > 0 && !Text.IsBlank(req.description)
    ensures Outcome(req, true, true, expenseId).Ok?
    ensures Total(Outcome(req, true, true, expenseId).value.props.splits) == req.totalAmount
  {
    PercentageSplitsCorrect(req.totalAmount, req.splitData.percentageMap);
  }

  class CreateExpenseUseCase {
    /** Every Expense handed to the expense repository's save, in order. */
    var saved: seq<Expense>

    constructor ()
      ensures saved == []
    {
      saved := [];
    }

    /**
     * `execute`: returns the outcome's failure, or saves the outcome's Expense
     * once and succeeds.
     */
    method Execute(req: CreateExpenseRequest, groupFound: bool, payerInGroup: bool, expenseId: string)
      returns (r: Result<()>)
      modifies this
      ensures var o := Outcome(req, groupFound, payerInGroup, expenseId);
              && (o.Ok? ==> r == Ok(()) && saved == old(saved) + [o.value])
              && (o.Fail? ==> r == Fail(o.error) && saved == old(saved))
    {
      if !groupFound {
        return Fail(GroupNotFound);
      }
      if !payerInGroup {
        return Fail(PayerNotInGroup);
      }

      var splitsResult: Result<seq<Split>>;
      match req.splitData {
        case Equal(ids) =>
          var equalSplits := CalculateEqualSplits(req.totalAmount, ids);
          splitsResult := Ok(equalSplits);
        case Percentage(m) =>
          splitsResult := CalculatePercentageSplits(req.totalAmount, m);
        case Exact(m) =>
          splitsResult := Ok(ExactSplits(m));
        case Unrecognized =>
          return Fail(UnknownSplitType);
      }

      assert splitsResult == SplitsFor(req.totalAmount, req.splitData);
      if splitsResult.Fail? {
        return Fail(splitsResult.error);
      }
      var splits := splitsResult.value;

      var expenseResult := Create(PropsFor(req, splits), expenseId);
      if expenseResult.Fail? {
        return Fail(expenseResult.error);
      }

      saved := saved + [expenseResult.value];
      return Ok(());
    }
  }
}
