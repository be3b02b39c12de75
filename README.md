# Expense splitting: a verified model

This project models the domain core of a bill-splitting application. An
expense has a total. It is divided among participants by one of three
strategies. The equal split truncates every share to a cent and gives the
leftover cents to the first participant. The percentage split rounds every
share half up and corrects the first participant's share. The exact split
takes the amounts as given. Every division must reconcile with the total:

- the balance validator checks payments and allocations;
- `Expense.create` checks allocations before an Expense can exist;
- the create-expense use case saves an Expense only when every step passed.

Money is an integer number of cents. Percentages are integer hundredths of a
percent, so 10000 is 100%. The source's floating-point tolerances become
integer bounds:

- `> 0.011` on money means more than 1 cent apart;
- `> 0.01` on a percentage sum means more than 1 hundredth of a percent away from 100%.

`Math.floor(x * 100) / 100` is floor division of cents. `Math.round` rounds
halves towards positive infinity (`Money.RoundHalfUp`).

Modules, one per source file, plus the shared helpers `Money`, `Results` and `Text`:

- `Money`: tolerances, rounding, and how a money value is printed in messages.
- `Results`: the `Result` datatype. A failure carries an `Error` naming the
  failed check and the numbers its message quotes. `Message` renders the
  exact text the source returns.
- `Text`: `String.prototype.trim`.
- `Splits`: `Split.ts`.
- `SplitService`: `SplitService.ts`. Both calculators are methods, written the
  way the source builds its arrays. Each is proved equal to an independent
  reference function, and the properties are proved about those functions.
- `Expenses`: `Expense.ts`.
- `Groups`: `Group.ts`. A class whose `memberIds` field `AddMember` updates in place.
- `Users`: `User.ts`. A class whose `personalGroupId` field `SetPersonalGroup` sets.
- `CreateExpense`: `CreateExpenseUseCase.ts`. `Outcome` is a pure function
  that says what one run decides. The class `CreateExpenseUseCase` holds the
  `saved` sequence, which stands for the expense repository. Its `Execute`
  follows the source step by step.

Inputs that stand in for collaborators:

- The group repository is two flags: `groupFound` and `payerInGroup`.
- An entity's identity is an explicit `id` argument.
- A `Record` iterated by `Object.keys` / `Object.values` is a sequence of
  (key, value) pairs, in iteration order.

## Model

| member | source | states |
|---|---|---|
| `Money.RoundHalfUpNearest` | src/domain/services/SplitService.ts:97 | `Math.round` as modelled gives the integer r nearest to num/den, with halves rounded up: `2·den·r ≤ 2·num + den < 2·den·r + 2·den` |
| `Results.PaidMismatchMessage` | src/domain/services/SplitService.ts:24-26 | the paid-total message starts with "付款總額" and quotes the paid total, then the expense total |
| `Results.OwedMismatchMessage` | src/domain/services/SplitService.ts:32-34 | the owed-total message starts with "分攤總額" and quotes the owed total, then the expense total |
| `Results.PercentageSumMessage` | src/domain/services/SplitService.ts:83-85 | the percentage message quotes the computed sum and ends with "100%" |
| `Results.AmountMismatchMessage` | src/domain/entities/Expense.ts:47-49 | the mismatch message starts with "金額不符" and quotes the amount, then the split total |
| `Text.TrimEmptyIffBlank` | src/domain/entities/Expense.ts:26 | `s.trim().length === 0` holds exactly when every character of s is whitespace |
| `Splits.Split.AdjustAmount` | src/domain/entities/Split.ts:22-27 | the new Split keeps the userId and has newAmount as its amount |
| `Splits.AdjustAmountIdempotent` | src/domain/entities/Split.ts:25 | adjusting twice to the same amount equals adjusting once |
| `Splits.GettersReturnProps` | src/domain/entities/Split.ts:9-15 | the userId and amount getters return the constructed values |
| `Splits.TotalShiftFirst` | src/domain/services/SplitService.ts:56-62 | adding d to the first split's amount adds exactly d to the total |
| `SplitService.ValidateBalance` | src/domain/services/SplitService.ts:16-38 | succeeds exactly when both the paid and the owed totals are within a cent of the total; a paid mismatch is reported first, even when the owed total is also off; otherwise an owed mismatch is reported, with the totals |
| `SplitService.SinglePayerBalances` | src/domain/services/SplitService.ts:22-37 | allocations that sum to the total, paid in full by one payer, pass the balance validator |
| `SplitService.Uniform` | src/domain/services/SplitService.ts:48-50 | one split per id, in id order, all holding the same amount |
| `SplitService.TotalUniform` | src/domain/services/SplitService.ts:53 | the total of n equal shares is n times the share |
| `SplitService.EqualSplitsCorrect` | src/domain/services/SplitService.ts:47-62 | one split per id, in input order; each later split is the floor of total/n (`n·a ≤ total < n·(a+1)`); the first split exceeds that share by a remainder in [0, n); the amounts sum to the total exactly |
| `SplitService.EqualSplitsBalance` | src/domain/services/SplitService.spec.ts:20-35 | for at least one id, an equal split paid in full by one payer passes the balance validator |
| `SplitService.CalculateEqualSplits` | src/domain/services/SplitService.ts:43-65 | the array built from truncated shares, with the remainder added to slot 0, equals the reference equal split, including the empty result when there are no ids |
| `SplitService.RoundedSplits` | src/domain/services/SplitService.ts:92-99 | one split per key, in key order, holding `round(total·p/100)` to the cent |
| `SplitService.PercentageSplitsCorrect` | src/domain/services/SplitService.ts:78-112 | fails exactly when the percentages miss 100% by more than 0.01, and the error carries their sum; on success: one split per key in key order, each split after the first holds its rounded share, and the amounts sum to the total exactly |
| `SplitService.PercentageSplitsBalance` | src/domain/services/SplitService.spec.ts:103-126 | a successful percentage split, paid in full by one payer, passes the balance validator |
| `SplitService.CalculatePercentageSplits` | src/domain/services/SplitService.ts:73-113 | the loop that pushes rounded splits, followed by the remainder correction on slot 0, returns the reference percentage split, or its failure |
| `SplitService.RemainderOnFirst` | src/domain/services/SplitService.ts:101-109 | adding the rounding remainder to the first rounded split gives the reference percentage split, and a zero remainder leaves the rounded splits unchanged |
| `SplitService.EqualSplitHundredByThree` | src/domain/services/SplitService.spec.ts:20-35 | 100 split among three gives 33.34, 33.33, 33.33 |
| `SplitService.PercentageSplitFiftyThirtyTwenty` | src/domain/services/SplitService.spec.ts:55-80 | 50/30/20 percent of 1000 gives 500, 300, 200 |
| `SplitService.PercentageSplitEightyFails` | src/domain/services/SplitService.spec.ts:38-53 | percentages summing to 80 fail, and the failure carries the sum 80 |
| `SplitService.UnderpaidFailsOnPaidTotal` | src/domain/services/SplitService.spec.ts:5-18 | paying 800 of 1000 fails on the paid total (800 against 1000) even though the allocations reconcile |
| `Expenses.Create` | src/domain/entities/Expense.ts:24-53 | the checks run in order (blank description, then amount ≤ 0, then no splits, then a split total more than a cent off) and the first failing check decides the error; the mismatch error carries both totals; success holds exactly when all pass, and the Expense is then exactly the given props and id |
| `Expenses.CreatedExpenseReconciles` | src/domain/entities/Expense.ts:46-52 | every created Expense has a positive amount, at least one split, and splits within a cent of the amount |
| `Expenses.OneCentShortPasses` | src/domain/entities/Expense.spec.ts:27-41 | splits of 99.99 against 100 pass |
| `Expenses.TenShortFails` | src/domain/entities/Expense.spec.ts:72-86 | splits of 90 against 100 fail with the mismatch (100, 90) |
| `Expenses.ZeroAmountReportedFirst` | src/domain/entities/Expense.spec.ts:59-70 | amount 0 with no splits reports the amount error, not the missing splits |
| `Groups.CheckRules` | src/domain/entities/Group.ts:32-54 | blank name fails first; a personal group must have members exactly [owner]; a team group needs at least one member; success holds exactly when all three rules hold |
| `Groups.PersonalGroupIsOwnerOnly` | src/domain/entities/Group.ts:39-46 | for a non-blank name, a personal group is accepted exactly when its members are [owner] |
| `Groups.AppendFreshKeepsDistinct` | src/domain/entities/Group.ts:60-63 | appending an id that is not present keeps the member ids distinct |
| `Groups.Group.constructor` | src/domain/entities/Group.ts:29-31 | the group holds exactly the given props and id |
| `Groups.Group.Create` | src/domain/entities/Group.ts:32-54 | fails with the rules' error exactly when the rules fail; otherwise a fresh, valid group holding the props |
| `Groups.Group.AddMember` | src/domain/entities/Group.ts:56-65 | a personal group refuses and keeps its members; an id already present is refused and the members are kept; otherwise the members become `old + [userId]`; the method preserves distinct members and the group rules |
| `Users.CheckRules` | src/domain/entities/User.ts:23-33 | a name shorter than 2 fails first; then an email without '@' fails; success holds exactly when both hold |
| `Users.RegistrationExamples` | src/domain/entities/User.ts:25-30 | "小明"/"ming@example.com" pass, "a" fails on the name, and "invalid-email" fails on the email |
| `Users.User.constructor` | src/domain/entities/User.ts:20-22 | the user holds exactly the given fields |
| `Users.User.Create` | src/domain/entities/User.ts:23-33 | fails with the rules' error exactly when the rules fail; otherwise a fresh user whose name and email are the inputs |
| `Users.User.SetPersonalGroup` | src/domain/entities/User.ts:35-37 | personalGroupId becomes the argument; the other fields are constants and cannot change |
| `CreateExpense.ExactSplits` | src/application/use-cases/CreateExpenseUseCase.ts:61-67 | one split per key, in key order, with the amount taken as given |
| `CreateExpense.Outcome` | src/application/use-cases/CreateExpenseUseCase.ts:29-93 | a missing group fails first; then a payer outside the group; then an unknown split type; a percentage failure is passed on unchanged, and so is an `Expense.create` failure; success holds exactly when every step passes, and the Expense then carries the given `expenseId`, the request's amount, description, payer, group and splits, within a cent of the total |
| `CreateExpense.ExactMismatchFails` | src/application/use-cases/CreateExpenseUseCase.ts:78-87 | EXACT amounts more than a cent off the total fail in Expense.create, with both totals |
| `CreateExpense.EqualRequestSucceeds` | src/application/use-cases/CreateExpenseUseCase.ts:43-92 | a valid EQUAL request over at least one member succeeds, and its splits sum to the total |
| `CreateExpense.PercentageRequestSucceeds` | src/application/use-cases/CreateExpenseUseCase.ts:53-92 | a valid PERCENTAGE request whose shares make 100% succeeds, and its splits sum to the total |
| `CreateExpense.CreateExpenseUseCase.constructor` | src/application/use-cases/CreateExpenseUseCase.ts:24-27 | nothing has been saved yet |
| `CreateExpense.CreateExpenseUseCase.Execute` | src/application/use-cases/CreateExpenseUseCase.ts:29-93 | returns the outcome's failure and saves nothing, or saves exactly the outcome's Expense, once, and succeeds |

## Left out

- Floating point. Money is modelled as exact cents. The source sums doubles, so its comparisons at exactly 0.01 can go either way. For example, 99.99% counts as 100% here, though `Math.abs(99.99 - 100) > 0.01` is true in doubles.
- Amounts finer than a cent and percentages finer than a hundredth of a percent. An EXACT amount or a total with more than two decimals, or a percentage such as 33.333, cannot be represented.
- `Splits.Split.AdjustAmount`: does not model rounding a `newAmount` that is not a whole number of cents, because every amount here is whole cents; the rounding is then the identity.
- Message rendering of a non-finite or float-artefact number. `Money.FormatHundredths` prints a value with at most two decimals, as JavaScript does.
- The undefined-percentage branch of `calculatePercentageSplits` (SplitService.ts:94-96). A sequence of (key, value) pairs always has a value for each key, so the branch cannot be reached.
- Key order of a JavaScript object. JavaScript lists integer-like keys first, in ascending order. The model takes the sequence as already being in iteration order. A `Record` cannot hold a key twice; the sequence is not required to be duplicate-free.
- Identity generation. The uuid fallback in src/shared/core/Entity.ts is replaced by an explicit `id` (or `expenseId`) argument.
- The clock. The `date: new Date()` of the created Expense is not modelled.
- Repositories. They are asynchronous interfaces. The group lookup and the membership query are the `groupFound` and `payerInGroup` flags; saving is appending to `saved`. The `Result` module of the source is not part of this model; `Results.Result` stands in for it.
- Missing (`undefined`/`null`) names, descriptions and emails. They are ruled out by the types. The empty string is covered by the blank and length checks.
- String length. `User.create` measures the name in UTF-16 code units; the model counts Unicode scalar values, so a name made of one character outside the Basic Multilingual Plane is accepted by the source and rejected here.
- Aliasing. `Group.create`, `User.create` and `Expense.create` keep the caller's `props` object itself (src/shared/core/Entity.ts:9), and the `memberIds` getter of Group hands out its mutable array; so `addMember`'s push and `setPersonalGroup` also change the object the caller passed in. The model's entities hold values of their own, which only `AddMember` and `SetPersonalGroup` change.
- Code against tests. CreateExpenseUseCase.spec.ts:401-403 expects 34/33/33 for 100 among three; the code produces 33.34/33.33/33.33, which the model follows. User.spec.ts:28 and :40 expect Chinese messages; User.ts returns English ones, which the model follows.
- Empty equal split. With no ids, `calculateEqualSplits` divides by zero (SplitService.ts:47) but maps over an empty array, so it returns `[]`; the model returns `[]` too, and that list then fails in `Expense.create` with the no-splits error.
- The split payload's shape. The source takes a separate `splitType` tag and an untyped `splitData` (CreateExpenseUseCase.ts:15,20,43-71); `CreateExpense.SplitData` ties each tag to a payload of the right shape, so a mismatched payload is not modelled. In the source, EQUAL with an object throws at `userIds.map`, and PERCENTAGE with an array of ids makes the `reduce` concatenate the ids into a string such as "0user-1…", so `Math.abs(totalPercentage - 100)` and the split amounts are NaN, and NaN passes both the `> 0.01` and the `> 0.011` tests, so that expense is saved. `Unrecognized` stands for any tag other than EQUAL, PERCENTAGE and EXACT.
