/**
 * The success/failure value every validation returns instead of throwing.
 *
 * A failure carries an Error naming which check failed together with the
 * numbers its message quotes; Message renders the text the source returns.
 */
module Results {
  import Money

  datatype Error =
    // validateBalance
    | PaidMismatch(paid: int, total: int)
    | OwedMismatch(owed: int, total: int)
    // calculatePercentageSplits
    | PercentageSumInvalid(sum: int)
    // Expense.create
    | DescriptionEmpty
    | AmountNotPositive
    | NoSplits
    | AmountMismatch(amount: int, splitTotal: int)
    // Group.create and Group.addMember
    | GroupNameEmpty
    | PersonalGroupOwnerOnly
    | TeamGroupEmpty
    | PersonalGroupClosed
    | MemberExists
    // User.create
    | NameTooShort
    | InvalidEmail
    // CreateExpenseUseCase.execute
    | GroupNotFound
    | PayerNotInGroup
    | UnknownSplitType

  datatype Result<T> = Ok(value: T) | Fail(error: Error)

  /** The message text the source builds for each failure. */
  function Message(e: Error): string {
    match e
    case PaidMismatch(paid, total) =>
      "付款總額 (" + Money.FormatHundredths(paid) + ") 不等於支出總額 (" + Money.FormatHundredths(total) + ")"
    case OwedMismatch(owed, total) =>
      "分攤總額 (" + Money.FormatHundredths(owed) + ") 不等於支出總額 (" + Money.FormatHundredths(total) + ")"
    case PercentageSumInvalid(sum) =>
      "百分比總和 (" + Money.FormatHundredths(sum) + "%) 必須等於 100%"
    case DescriptionEmpty => "支出描述不能為空"
    case AmountNotPositive => "支出金額必須大於 0"
    case NoSplits => "至少需要有一個分攤對象"
    case AmountMismatch(amount, splitTotal) =>
      "金額不符：總額為 " + Money.FormatHundredths(amount) + "，但分攤總計為 " + Money.FormatHundredths(splitTotal)
    case GroupNameEmpty => "群組名稱不能為空"
    case PersonalGroupOwnerOnly => "個人群組只能包含擁有者本人"
    case TeamGroupEmpty => "多人群組必須至少有一名成員"
    case PersonalGroupClosed => "個人群組不能添加成員"
    case MemberExists => "成員已經存在"
    case NameTooShort => "Name must be at least 2 characters long."
    case InvalidEmail => "Invalid email address."
    case GroupNotFound => "找不到該群組"
    case PayerNotInGroup => "付款人不在該群組中"
    case UnknownSplitType => "未知的分帳類型"
  }

  /** The paid-total message starts with "付款總額" and quotes the paid total, then the expense total. */
  lemma PaidMismatchMessage(paid: int, total: int)
    ensures var m := Message(PaidMismatch(paid, total));
            var p := Money.FormatHundredths(paid);
            var t := Money.FormatHundredths(total);
            && "付款總額" <= m
            && 6 + |p| <= |m| && m[6..6 + |p|] == p
            && |t| + 1 <= |m| && m[|m| - |t| - 1..|m| - 1] == t
  {
  }

  /** The owed-total message starts with "分攤總額" and quotes the owed total, then the expense total. */
  lemma OwedMismatchMessage(owed: int, total: int)
    ensures var m := Message(OwedMismatch(owed, total));
            var o := Money.FormatHundredths(owed);
            var t := Money.FormatHundredths(total);
            && "分攤總額" <= m
            && 6 + |o| <= |m| && m[6..6 + |o|] == o
            && |t| + 1 <= |m| && m[|m| - |t| - 1..|m| - 1] == t
  {
  }

  /** The percentage message quotes the computed sum and ends with "100%". */
  lemma PercentageSumMessage(sum: int)
    ensures var m := Message(PercentageSumInvalid(sum));
            var s := Money.FormatHundredths(sum);
            && 7 + |s| <= |m| && m[7..7 + |s|] == s
            && 4 <= |m| && m[|m| - 4..] == "100%"
  {
    var s := Money.FormatHundredths(sum);
    var head, tail := "百分比總和 (", "%) 必須等於 100%";
    var m := head + s + tail;
    assert Message(PercentageSumInvalid(sum)) == m;
    assert |head| == 7 && |tail| == 12;
    assert m[7..7 + |s|] == s;
    assert m[|m| - 4..] == tail[8..];
  }

  /** The mismatch message starts with "金額不符" and quotes the amount, then the split total. */
  lemma AmountMismatchMessage(amount: int, splitTotal: int)
    ensures var m := Message(AmountMismatch(amount, splitTotal));
            var a := Money.FormatHundredths(amount);
            var t := Money.FormatHundredths(splitTotal);
            && "金額不符" <= m
            && 9 + |a| <= |m| && m[9..9 + |a|] == a
            && |t| <= |m| && m[|m| - |t|..] == t
  {
    var a := Money.FormatHundredths(amount);
    var t := Money.FormatHundredths(splitTotal);
    var head, mid := "金額不符：總額為 ", "，但分攤總計為 ";
    var m := head + a + mid + t;
    assert Message(AmountMismatch(amount, splitTotal)) == m;
    assert |head| == 9;
    assert m[9..9 + |a|] == a;
    assert m[|m| - |t|..] == t;
  }
}
