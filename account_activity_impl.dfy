/** The mock activities shipped with the sample.

    None of them holds state or checks its arguments: withdraw always returns, and
    deposit and refund throw exactly when their local `activityShouldSucceed` flag
    is false. The flag is a local constant set to true; here it is a parameter of
    DepositAttempt and RefundAttempt, and Deposit and Refund fix it to the shipped
    value.
 */
module AccountActivityImpl {
  import opened Transaction

  /** The value the source gives `activityShouldSucceed` in deposit and refund. */
  const ShippedShouldSucceed: bool := true

  const DepositErrorMessage: string := "Simulated Activity error during deposit of funds"
  const RefundErrorMessage: string := "Simulated Activity error during refund to source account"

  /** withdraw: only reports the withdrawal; it never throws, whatever its arguments. */
  function Withdraw(accountId: string, referenceId: string, amount: int32): (r: CallResult)
    ensures r.Returned?
  {
    Returned
  }

  /** deposit, with its local flag as a parameter: throws iff the flag is false. */
  function DepositAttempt(activityShouldSucceed: bool, accountId: string, referenceId: string, amount: int32): (r: CallResult)
    ensures r.Threw? <==> !activityShouldSucceed
    ensures r.Threw? ==> r.error.message == DepositErrorMessage
  {
    if !activityShouldSucceed then Threw(ActivityError(DepositErrorMessage)) else Returned
  }

  /** refund, with its local flag as a parameter: throws iff the flag is false. */
  function RefundAttempt(activityShouldSucceed: bool, accountId: string, referenceId: string, amount: int32): (r: CallResult)
    ensures r.Threw? <==> !activityShouldSucceed
    ensures r.Threw? ==> r.error.message == RefundErrorMessage
  {
    if !activityShouldSucceed then Threw(ActivityError(RefundErrorMessage)) else Returned
  }

  /** deposit as shipped: always returns. */
  function Deposit(accountId: string, referenceId: string, amount: int32): (r: CallResult)
    ensures r.Returned?
  {
    DepositAttempt(ShippedShouldSucceed, accountId, referenceId, amount)
  }

  /** refund as shipped: always returns. */
  function Refund(accountId: string, referenceId: string, amount: int32): (r: CallResult)
    ensures r.Returned?
  {
    RefundAttempt(ShippedShouldSucceed, accountId, referenceId, amount)
  }

  /** The mock implementation with both flags chosen by the caller. */
  function MockWith(depositShouldSucceed: bool, refundShouldSucceed: bool): AccountActivity
  {
    AccountActivity(
      Withdraw,
      (accountId, referenceId, amount) => DepositAttempt(depositShouldSucceed, accountId, referenceId, amount),
      (accountId, referenceId, amount) => RefundAttempt(refundShouldSucceed, accountId, referenceId, amount))
  }

  /** The mock implementation as shipped. */
  function Mock(): AccountActivity
  {
    AccountActivity(Withdraw, Deposit, Refund)
  }

  /** Every call on the shipped mocks returns, for any account, reference and amount. */
  lemma MockNeverThrows(c: Call)
    ensures Invoke(Mock(), c) == Returned
  {
    match c.step
    case Withdraw => assert Invoke(Mock(), c) == Withdraw(c.accountId, c.referenceId, c.amount);
    case Deposit => assert Invoke(Mock(), c) == Deposit(c.accountId, c.referenceId, c.amount);
    case Refund => assert Invoke(Mock(), c) == Refund(c.accountId, c.referenceId, c.amount);
  }
}
