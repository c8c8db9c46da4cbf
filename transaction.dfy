/** The transfer request handed to the workflow, and the activity interface it calls.

    TransactionDetails mirrors the record the workflow receives; AccountActivity is
    the signature of the three activities, given as total functions so that any
    implementation (the shipped mocks or an arbitrary failing one) can stand in for
    the activity stub.
 */
module Transaction {

  /** Java's `int`: the amount is never computed with, only passed along. */
  newtype int32 = x: int | -0x8000_0000 <= x < 0x8000_0000

  /** The request: two account ids, the reference id shared by every activity call, the amount. */
  datatype TransactionDetails = TransactionDetails(
    sourceAccountId: string,
    destinationAccountId: string,
    transactionReferenceId: string,
    amountToTransfer: int32)

  /** The three activities, in the order the saga may call them. */
  datatype Step = Withdraw | Deposit | Refund

  /** Position of a step in the saga: Withdraw before Deposit before Refund. */
  function StepIndex(s: Step): (n: nat)
    ensures n < 3
  {
    match s
    case Withdraw => 0
    case Deposit => 1
    case Refund => 2
  }

  /** One activity invocation as the workflow issues it. */
  datatype Call = Call(step: Step, accountId: string, referenceId: string, amount: int32)

  /** The failure an activity reports once the orchestration service has stopped retrying it. */
  datatype ActivityError = ActivityError(message: string)

  /** What an activity call does, seen from the workflow: it returns, or it throws. */
  datatype CallResult = Returned | Threw(error: ActivityError)

  /** The activity interface: withdraw, deposit and refund, each on (accountId, referenceId, amount). */
  datatype AccountActivity = AccountActivity(
    withdraw: (string, string, int32) -> CallResult,
    deposit: (string, string, int32) -> CallResult,
    refund: (string, string, int32) -> CallResult)

  /** Dispatches a recorded call to the activity it names. */
  function Invoke(activities: AccountActivity, c: Call): CallResult
  {
    match c.step
    case Withdraw => activities.withdraw(c.accountId, c.referenceId, c.amount)
    case Deposit => activities.deposit(c.accountId, c.referenceId, c.amount)
    case Refund => activities.refund(c.accountId, c.referenceId, c.amount)
  }
}
