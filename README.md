# Money transfer saga

A model of the money transfer workflow: a saga that withdraws an amount from a
source account, deposits it to a destination account and, when the deposit
fails, compensates with a refund to the source account. A refund that fails too
is rethrown. An orchestration service runs the three account operations as
activities and retries them, so the workflow sees each one either return or
throw once retrying is over.

- `transaction.dfy` (module `Transaction`): the transfer request
  (`TransactionDetails`, with Java's `int` amount as `int32`), the three steps,
  one recorded activity call (`Call`: step, account id, reference id, amount),
  a call's result (`Returned` or `Threw`), and the activity interface
  `AccountActivity`. That interface holds three total functions, so any
  implementation can stand in for the activity stub.
- `account_activity_impl.dfy` (module `AccountActivityImpl`): the shipped mock
  activities as functions. The local `activityShouldSucceed` flag of deposit and
  refund is a parameter of `DepositAttempt` / `RefundAttempt`. `Deposit` and
  `Refund` fix it to the shipped value `true`. `Mock()` is the shipped
  implementation and `MockWith` the one with chosen flags. The class has no
  fields, so the mocks are plain functions: no call changes any state, and none
  checks its arguments.
- `money_transfer_workflow.dfy` (module `MoneyTransferWorkflow`): the reference
  definition `Saga`, a phase machine (`Withdrawing`, `Depositing`, `Refunding`,
  `Finished`) run to completion. Beside it is the workflow method `Transfer`,
  written step by step: it appends each activity call to a trace and returns
  early as the source does. Its postcondition equates its trace and outcome with
  `Saga`, and the lemmas state the saga's guarantees about `Saga`.
- `shipped_configuration.dfy` (module `ShippedConfiguration`): the workflow
  composed with the mocks.

The source's `void transfer` either returns or throws. The model reports this as
one of four `TransferOutcome`s. `WithdrawFailed`, `Transferred` and `RolledBack`
are normal returns, told apart by the path taken. For a non-null request,
`Uncompensated(e)` is the one path that throws, and `e` is the refund's error. `TransferOutcome.Throws()`
marks it.

`transfer` does not validate its request: any ids and any amount, zero or
negative included, go unchanged to the activities. A failed withdraw returns
normally. A failed refund's exception escapes `transfer`.

## Model

| member | source | states |
|---|---|---|
| `AccountActivityImpl.Withdraw` | src/main/java/moneytransfer/AccountActivityImpl.java:9-12 | withdraw never throws, for any account, reference id or amount |
| `AccountActivityImpl.DepositAttempt` | src/main/java/moneytransfer/AccountActivityImpl.java:17-28 | deposit throws iff its `activityShouldSucceed` flag is false, with the simulated deposit error; its arguments play no part |
| `AccountActivityImpl.RefundAttempt` | src/main/java/moneytransfer/AccountActivityImpl.java:33-44 | refund throws iff its `activityShouldSucceed` flag is false, with the simulated refund error; its arguments play no part |
| `AccountActivityImpl.Deposit` | src/main/java/moneytransfer/AccountActivityImpl.java:18-24 | with the shipped flag value `true`, deposit always returns |
| `AccountActivityImpl.Refund` | src/main/java/moneytransfer/AccountActivityImpl.java:34-40 | with the shipped flag value `true`, refund always returns |
| `AccountActivityImpl.MockNeverThrows` | src/main/java/moneytransfer/AccountActivityImpl.java:5-44 | every call on the shipped mock activities returns, whatever its arguments |
| `MoneyTransferWorkflow.CallFor` | src/main/java/moneytransfer/MoneyTransferWorkflowImpl.java:49-90 | every activity call carries the request's reference id and amount |
| `MoneyTransferWorkflow.RefundMirrorsWithdraw` | src/main/java/moneytransfer/MoneyTransferWorkflowImpl.java:57-90 | the refund undoes exactly the withdrawal: same (source) account, same reference id, same amount |
| `MoneyTransferWorkflow.Next` | src/main/java/moneytransfer/MoneyTransferWorkflowImpl.java:55-105 | each activity result moves the saga strictly forward, and it finishes by throwing only when the refund threw |
| `MoneyTransferWorkflow.Transfer` | src/main/java/moneytransfer/MoneyTransferWorkflowImpl.java:47-106 | the calls the workflow makes, in order, and its outcome are exactly those of the reference saga, for every activity implementation |
| `MoneyTransferWorkflow.RunShape` | src/main/java/moneytransfer/MoneyTransferWorkflowImpl.java:55-105 | from any phase the saga makes at most as many calls as steps remain, in step order, each on its step's account with the request's reference id and amount |
| `MoneyTransferWorkflow.SagaTraceShape` | src/main/java/moneytransfer/MoneyTransferWorkflowImpl.java:55-105 | at most three calls, each step at most once, Withdraw before Deposit before Refund, all with the request's reference id and amount |
| `MoneyTransferWorkflow.SagaCases` | src/main/java/moneytransfer/MoneyTransferWorkflowImpl.java:55-105 | the complete decision table: the three activity results give exactly one of withdraw-failed, transferred, rolled-back or uncompensated, and the exact trace of each |
| `MoneyTransferWorkflow.SagaStartsWithWithdraw` | src/main/java/moneytransfer/MoneyTransferWorkflowImpl.java:49-57 | the first call is always withdraw on the source account with the request's reference id and amount |
| `MoneyTransferWorkflow.SagaWithdrawFailureStops` | src/main/java/moneytransfer/MoneyTransferWorkflowImpl.java:58-65 | a failed withdraw ends the transfer normally with no deposit and no refund |
| `MoneyTransferWorkflow.SagaDepositFollowsWithdraw` | src/main/java/moneytransfer/MoneyTransferWorkflowImpl.java:68-70 | after a successful withdraw, deposit is the second call and the only deposit, on the destination account, with the same reference id and amount |
| `MoneyTransferWorkflow.SagaDepositSuccessStops` | src/main/java/moneytransfer/MoneyTransferWorkflowImpl.java:70-77 | a successful deposit ends the transfer normally after exactly withdraw and deposit; refund is never called |
| `MoneyTransferWorkflow.SagaRefundOnlyAfterFailedDeposit` | src/main/java/moneytransfer/MoneyTransferWorkflowImpl.java:78-90 | refund is called iff withdraw returned and deposit threw, and it targets the source account with the withdrawn amount and reference id |
| `MoneyTransferWorkflow.SagaThrowsOnlyWhenRefundFails` | src/main/java/moneytransfer/MoneyTransferWorkflowImpl.java:90-104 | transfer throws iff withdraw returned and deposit and refund threw, and what it throws is the refund's error; it is rolled back iff the refund returned instead |
| `MoneyTransferWorkflow.SagaDeterminedByResults` | src/main/java/moneytransfer/MoneyTransferWorkflowImpl.java:55-105 | two activity implementations that answer the three calls alike give the same trace and outcome |
| `ShippedConfiguration.ShippedAlwaysTransfers` | src/main/java/moneytransfer/AccountActivityImpl.java:17-44 | with the shipped mocks every transfer makes exactly withdraw then deposit, ends transferred, and never refunds |
| `ShippedConfiguration.FailingDepositRollsBack` | src/main/java/moneytransfer/AccountActivityImpl.java:20-23 | with deposit's flag off and refund's on, every transfer makes withdraw, deposit, refund and is rolled back |
| `ShippedConfiguration.FailingRefundIsRethrown` | src/main/java/moneytransfer/AccountActivityImpl.java:36-39 | with both flags off, every transfer makes all three calls and throws the refund's simulated error |

## Left out

- Retry and timeout configuration (MoneyTransferWorkflowImpl.java lines 17-39): the backoff, heartbeat and attempt limits are enforced by the orchestration service. An activity result in the model is the final one, after retrying.
- The activity stub (`Workflow.newActivityStub`, line 42) is a remote proxy into the orchestration service. It is replaced by an `AccountActivity` value passed to `Transfer`.
- Console output (`System.out.printf` / `flush`) in both files.
- `Activity.wrap` and the orchestration service's own failure wrapping: a thrown activity is `Threw(ActivityError(message))`, and the rethrown exception is that same value.
- A null request makes `transfer` throw a NullPointerException at MoneyTransferWorkflowImpl.java line 49, before any activity call. The model's request is never null. Null ids are never inspected and would only be passed along.
- Exceptions that are not `java.lang.Exception` (`Error`s), which the workflow's `catch (Exception e)` blocks would not catch.
- Lombok/Jackson plumbing of `CoreTransactionDetails` / `TransactionDetails`, and the annotations on `MoneyTransferWorkflow` / `AccountActivity`. They are used only as the datatype and the signature.
- Replay, crash recovery and concurrency between workflow instances are provided by the orchestration service; no code for them exists here. The reference id is only passed to each activity; nothing shown deduplicates by it.
