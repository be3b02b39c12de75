/**
 * SplitService: the balance validator and the equal and percentage split
 * calculators.
 *
 * Both calculators round every participant's share and then give the whole
 * rounding remainder to the first participant, so that the shares add up to
 * the total exactly.
 */
module SplitService {
  import opened Money
  import opened Results
  import opened Splits

  /** One participant's actual payment toward an expense. */
  datatype PayerData = PayerData(userId: string, amount: int)

  /** `payers.reduce((sum, p) => sum + p.amount, 0)`. */
  function TotalPaid(payers: seq<PayerData>): int {
    if |payers| == 0 then 0 else TotalPaid(payers[..|payers| - 1]) + payers[|payers| - 1].amount
  }

  // ---------------------------------------------------------------- balance

  /**
   * `validateBalance`: the paid total and the allocated total must each agree
   * with the expense total to within a cent; the paid total is checked first.
   */
  function ValidateBalance(totalAmount: int, payers: seq<PayerData>, owerSplits: seq<Split>): (r: Result<()>)
    ensures r.Ok? <==> Reconciles(TotalPaid(payers), totalAmount) && Reconciles(Total(owerSplits), totalAmount)
    ensures !Reconciles(TotalPaid(payers), totalAmount) ==>
              r == Fail(PaidMismatch(TotalPaid(payers), totalAmount))
    ensures Reconciles(TotalPaid(payers), totalAmount) && !Reconciles(Total(owerSplits), totalAmount) ==>
              r == Fail(OwedMismatch(Total(owerSplits), totalAmount))
  {
    var totalPaid := TotalPaid(payers);
    if Abs(totalPaid - totalAmount) > ConservationSlackCents then
      Fail(PaidMismatch(totalPaid, totalAmount))
    else
      var totalOwed := Total(owerSplits);
      if Abs(totalOwed - totalAmount) > ConservationSlackCents then
        Fail(OwedMismatch(totalOwed, totalAmount))
      else
        Ok(())
  }

  /** A single payer who paid the whole total settles any reconciling allocation. */
  lemma SinglePayerBalances(totalAmount: int, payer: string, owerSplits: seq<Split>)
    requires Total(owerSplits) == totalAmount
    ensures ValidateBalance(totalAmount, [PayerData(payer, totalAmount)], owerSplits) == Ok(())
  {
    var payers := [PayerData(payer, totalAmount)];
    assert payers[..0] == [];
    assert TotalPaid(payers) == totalAmount;
  }

  // ------------------------------------------------------------ equal split

  /** One split per id, in order, all with the same amount. */
  function Uniform(userIds: seq<string>, amount: int): (r: seq<Split>)
    ensures |r| == |userIds|
    ensures forall i :: 0 <= i < |r| ==> r[i] == Split(userIds[i], amount)
  {
    seq(|userIds|, i requires 0 <= i < |userIds| => Split(userIds[i], amount))
  }

  /**
   * Reference definition of the equal split: everyone gets the total divided
   * by the head count, truncated to a cent, and the first person also gets the
   * cents that truncation left over. With no ids there is nothing to split.
   */
  function EqualSplits(totalAmount: int, userIds: seq<string>): seq<Split> {
    if |userIds| == 0 then []
    else
      var n := |userIds|;
      Uniform(userIds, totalAmount / n)[0 := Split(userIds[0], totalAmount / n + totalAmount % n)]
  }

  lemma {:induction false} TotalUniform(userIds: seq<string>, amount: int)
    ensures Total(Uniform(userIds, amount)) == |userIds| * amount
    decreases |userIds|
  {
    if |userIds| > 0 {
      var init := userIds[..|userIds| - 1];
      assert Uniform(userIds, amount)[..|userIds| - 1] == Uniform(init, amount);
      TotalUniform(init, amount);
    }
  }

  /**
   * The equal split has one split per id in input order; every split after
   * the first holds the truncated share, the first holds it plus a remainder
   * in [0, n), and the amounts add up to the total exactly.
   */
  lemma {:induction false} EqualSplitsCorrect(totalAmount: int, userIds: seq<string>)
    ensures |EqualSplits(totalAmount, userIds)| == |userIds|
    ensures forall i :: 0 <= i < |userIds| ==> EqualSplits(totalAmount, userIds)[i].userId == userIds[i]
    ensures forall i :: 0 < i < |userIds| ==>
      var share := EqualSplits(totalAmount, userIds)[i].amount;
      |userIds| * share <= totalAmount < |userIds| * (share + 1)
    ensures |userIds| > 0 ==>
      var extra := EqualSplits(totalAmount, userIds)[0].amount - totalAmount / |userIds|;
      0 <= extra < |userIds|
    ensures |userIds| > 0 ==> Total(EqualSplits(totalAmount, userIds)) == totalAmount
  {
    if |userIds| > 0 {
      var n := |userIds|;
      var r := EqualSplits(totalAmount, userIds);
      var even := Uniform(userIds, totalAmount / n);
      TotalUniform(userIds, totalAmount / n);
      TotalShiftFirst(even, totalAmount % n);
      assert even[0 := even[0].AdjustAmount(even[0].amount + totalAmount % n)] == r;
      FloorDivision(totalAmount, n);
      forall i | 0 < i < n
        ensures n * r[i].amount <= totalAmount < n * (r[i].amount + 1)
      {
        assert r[i].amount == totalAmount / n;
      }
    }
  }

  /** Dafny's `/` by a positive divisor truncates toward negative infinity, as `Math.floor` does. */
  lemma FloorDivision(x: int, n: int)
    requires n > 0
    ensures n * (x / n) <= x < n * (x / n + 1)
    ensures n * (x / n) + x % n == x && 0 <= x % n < n
  {
  }

  /** An equal split paid in full by one payer passes the balance validator. */
  lemma EqualSplitsBalance(totalAmount: int, userIds: seq<string>, payer: string)
    requires |userIds| > 0
    ensures ValidateBalance(totalAmount, [PayerData(payer, totalAmount)], EqualSplits(totalAmount, userIds)) == Ok(())
  {
    EqualSplitsCorrect(totalAmount, userIds);
    SinglePayerBalances(totalAmount, payer, EqualSplits(totalAmount, userIds));
  }

  /**
   * `calculateEqualSplits`: builds the array of truncated shares, then
   * overwrites its first slot with a split that also carries the remainder.
   */
  method CalculateEqualSplits(totalAmount: int, userIds: seq<string>) returns (splits: seq<Split>)
    ensures splits == EqualSplits(totalAmount, userIds)
  {
    var n := |userIds|;
    // With no ids the source divides by zero; that quotient reaches no split.
    var perPerson := if n > 0 then totalAmount / n else 0;
    var a := new Split[n](i requires 0 <= i < n => Split(userIds[i], perPerson));
    var totalCurrent := perPerson * n;
    var remainder := totalAmount - totalCurrent;
    if remainder != 0 && a.Length > 0 {
      var firstSplit := a[0];
      a[0] := firstSplit.AdjustAmount(firstSplit.amount + remainder);
    }
    splits := a[..];
    if n > 0 {
      assert remainder == totalAmount % n;
    }
  }

  // ------------------------------------------------------- percentage split

  /** `Object.values(percentageMap).reduce((sum, p) => sum + p, 0)`. */
  function TotalPercentage(percentageMap: seq<(string, int)>): int {
    if |percentageMap| == 0 then 0
    else TotalPercentage(percentageMap[..|percentageMap| - 1]) + percentageMap[|percentageMap| - 1].1
  }

  /** Each key's share of the total, rounded half up to a cent, in key order. */
  function RoundedSplits(totalAmount: int, percentageMap: seq<(string, int)>): (r: seq<Split>)
    ensures |r| == |percentageMap|
    ensures forall i :: 0 <= i < |r| ==>
              r[i] == Split(percentageMap[i].0, PercentOf(totalAmount, percentageMap[i].1))
  {
    seq(|percentageMap|, i requires 0 <= i < |percentageMap| =>
      Split(percentageMap[i].0, PercentOf(totalAmount, percentageMap[i].1)))
  }

  /**
   * Reference definition of the percentage split: it fails unless the
   * percentages add up to 100% within a hundredth of a percent; otherwise
   * every key but the first gets its rounded share and the first key gets
   * whatever the others leave of the total.
   */
  function PercentageSplits(totalAmount: int, percentageMap: seq<(string, int)>): Result<seq<Split>> {
    var sum := TotalPercentage(percentageMap);
    if !IsFullPercentage(sum) then Fail(PercentageSumInvalid(sum))
    else if |percentageMap| == 0 then Ok([])
    else
      var others := RoundedSplits(totalAmount, percentageMap[1..]);
      Ok([Split(percentageMap[0].0, totalAmount - Total(others))] + others)
  }

  /**
   * The percentage split fails exactly when the percentages miss 100%, and
   * then reports their sum; on success it has one split per key in key order,
   * every split after the first holds its rounded share, and the amounts add
   * up to the total exactly.
   */
  lemma {:induction false} PercentageSplitsCorrect(totalAmount: int, percentageMap: seq<(string, int)>)
    ensures PercentageSplits(totalAmount, percentageMap).Fail? <==> !IsFullPercentage(TotalPercentage(percentageMap))
    ensures PercentageSplits(totalAmount, percentageMap).Fail? ==>
              PercentageSplits(totalAmount, percentageMap).error == PercentageSumInvalid(TotalPercentage(percentageMap))
    ensures PercentageSplits(totalAmount, percentageMap).Ok? ==>
      var r := PercentageSplits(totalAmount, percentageMap).value;
      && |r| == |percentageMap|
      && (forall i :: 0 <= i < |r| ==> r[i].userId == percentageMap[i].0)
      && (forall i :: 0 < i < |r| ==> r[i].amount == PercentOf(totalAmount, percentageMap[i].1))
      && Total(r) == totalAmount
  {
    if IsFullPercentage(TotalPercentage(percentageMap)) {
      assert |percentageMap| > 0;
      var others := RoundedSplits(totalAmount, percentageMap[1..]);
      var first := Split(percentageMap[0].0, totalAmount - Total(others));
      var r := [first] + others;
      assert PercentageSplits(totalAmount, percentageMap) == Ok(r);
      TotalCons(first, others);
      forall i | 0 < i < |r|
        ensures r[i].userId == percentageMap[i].0 && r[i].amount == PercentOf(totalAmount, percentageMap[i].1)
      {
        assert r[i] == others[i - 1];
        assert percentageMap[1..][i - 1] == percentageMap[i];
      }
    }
  }

  /** A successful percentage split paid in full by one payer passes the balance validator. */
  lemma PercentageSplitsBalance(totalAmount: int, percentageMap: seq<(string, int)>, payer: string)
    requires PercentageSplits(totalAmount, percentageMap).Ok?
    ensures ValidateBalance(totalAmount, [PayerData(payer, totalAmount)],
                            PercentageSplits(totalAmount, percentageMap).value) == Ok(())
  {
    PercentageSplitsCorrect(totalAmount, percentageMap);
    SinglePayerBalances(totalAmount, payer, PercentageSplits(totalAmount, percentageMap).value);
  }

  /**
   * `calculatePercentageSplits`: checks the percentage sum, pushes one rounded
   * split per key, then replaces the first split by one that also carries the
   * rounding remainder.
   */
  method CalculatePercentageSplits(totalAmount: int, percentageMap: seq<(string, int)>)
    returns (r: Result<seq<Split>>)
    ensures r == PercentageSplits(totalAmount, percentageMap)
  {
    var totalPercentage := TotalPercentage(percentageMap);
    if Abs(totalPercentage - OneHundredPercent) > PercentageSlack {
      return Fail(PercentageSumInvalid(totalPercentage));
    }

    var splits: seq<Split> := [];
    for i := 0 to |percentageMap|
      invariant |splits| == i
      invariant forall k :: 0 <= k < i ==>
                  splits[k] == Split(percentageMap[k].0, PercentOf(totalAmount, percentageMap[k].1))
    {
      var (userId, percentage) := percentageMap[i];
      var amount := PercentOf(totalAmount, percentage);
      splits := splits + [Split(userId, amount)];
    }

    // `Math.round((totalAmount - totalCurrent) * 100) / 100` is exact on cents.
    var totalCurrent := Total(splits);
    var remainder := totalAmount - totalCurrent;
    assert splits == RoundedSplits(totalAmount, percentageMap);
    RemainderOnFirst(totalAmount, percentageMap);
    if remainder != 0 && |splits| > 0 {
      var firstSplit := splits[0];
      splits := splits[0 := firstSplit.AdjustAmount(firstSplit.amount + remainder)];
    }
    r := Ok(splits);
  }

  /**
   * Adding the rounding remainder to the first rounded split yields the
   * reference percentage split, and a zero remainder leaves the rounded
   * splits as they are.
   */
  lemma RemainderOnFirst(totalAmount: int, percentageMap: seq<(string, int)>)
    requires IsFullPercentage(TotalPercentage(percentageMap))
    ensures var raw := RoundedSplits(totalAmount, percentageMap);
            var remainder := totalAmount - Total(raw);
            && |raw| > 0
            && PercentageSplits(totalAmount, percentageMap)
               == Ok(raw[0 := raw[0].AdjustAmount(raw[0].amount + remainder)])
            && (remainder == 0 ==> PercentageSplits(totalAmount, percentageMap) == Ok(raw))
  {
    var raw := RoundedSplits(totalAmount, percentageMap);
    assert |percentageMap| > 0;
    var others := RoundedSplits(totalAmount, percentageMap[1..]);
    assert raw == [raw[0]] + others;
    TotalCons(raw[0], others);
    assert raw[0 := raw[0].AdjustAmount(raw[0].amount + (totalAmount - Total(raw)))]
           == [Split(percentageMap[0].0, totalAmount - Total(others))] + others;
  }

  // ------------------------------------------------------------- examples

  /** 100 split three ways: 33.34 for the first person, 33.33 for the others. */
  lemma EqualSplitHundredByThree()
    ensures EqualSplits(10000, ["user-A", "user-B", "user-C"])
            == [Split("user-A", 3334), Split("user-B", 3333), Split("user-C", 3333)]
  {
  }

  /** 50%, 30% and 20% of 1000 are 500, 300 and 200. */
  lemma PercentageSplitFiftyThirtyTwenty()
    ensures PercentageSplits(100000, [("user-A", 5000), ("user-B", 3000), ("user-C", 2000)])
            == Ok([Split("user-A", 50000), Split("user-B", 30000), Split("user-C", 20000)])
  {
    var m: seq<(string, int)> := [("user-A", 5000), ("user-B", 3000), ("user-C", 2000)];
    assert TotalPercentage(m[..1]) == 5000 by {
      assert m[..1][..0] == [];
    }
    assert TotalPercentage(m[..2]) == 8000 by {
      assert m[..2][..1] == m[..1];
    }
    assert TotalPercentage(m) == 10000;
    var others := RoundedSplits(100000, m[1..]);
    assert others == [Split("user-B", 30000), Split("user-C", 20000)];
    assert Total(others[..1]) == 30000 by {
      assert others[..1][..0] == [];
    }
    assert Total(others) == 50000;
    assert PercentageSplits(100000, m) == Ok([Split("user-A", 50000)] + others);
    assert [Split("user-A", 50000)] + others
           == [Split("user-A", 50000), Split("user-B", 30000), Split("user-C", 20000)];
  }

  /** Percentages of 50 and 30 fail, and the failure carries their sum, 80. */
  lemma PercentageSplitEightyFails()
    ensures PercentageSplits(100000, [("user-A", 5000), ("user-B", 3000)]) == Fail(PercentageSumInvalid(8000))
  {
    var m: seq<(string, int)> := [("user-A", 5000), ("user-B", 3000)];
    assert m[..1][..0] == [];
    assert TotalPercentage(m) == 8000;
  }

  /** Paying 800 toward 1000 fails on the paid total, before the allocations are looked at. */
  lemma UnderpaidFailsOnPaidTotal()
    ensures ValidateBalance(100000, [PayerData("user-A", 80000)], [Split("user-A", 100000)])
            == Fail(PaidMismatch(80000, 100000))
  {
    assert [PayerData("user-A", 80000)][..0] == [];
  }
}
