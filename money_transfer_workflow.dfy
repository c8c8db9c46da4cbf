/** The money transfer saga: withdraw from the source account, deposit to the
    destination account and, if the deposit fails, refund the source account.

    The workflow itself holds no state of its own. Every activity call is recorded
    in a trace, and the activity stub is an AccountActivity whose answers are
    whatever the activities return after the orchestration service has finished
    retrying them.

    Saga is the reference definition: a small phase machine run to completion.
    Transfer is the workflow method written step by step. Its contract ties it to
    Saga, and the lemmas below state what the saga guarantees.
 */
module MoneyTransferWorkflow {
  import opened Transaction

  /** How transfer ends. Only Uncompensated leaves it by an exception: the refund's, rethrown. */
  datatype TransferOutcome =
    | WithdrawFailed
    | Transferred
    | RolledBack
    | Uncompensated(error: ActivityError)
  {
    /** True when transfer does not return normally. */
    predicate Throws()
    {
      Uncompensated?
    }
  }

  /** The calls made, in order, and how transfer ended. */
  datatype Execution = Execution(trace: seq<Call>, outcome: TransferOutcome)

  /** The call the saga makes for each step: deposit targets the destination, withdraw and refund the source. */
  function CallFor(s: Step, t: TransactionDetails): (c: Call)
    ensures c.step == s
    ensures c.referenceId == t.transactionReferenceId && c.amount == t.amountToTransfer
  {
    var account := if s == Deposit then t.destinationAccountId else t.sourceAccountId;
    Call(s, account, t.transactionReferenceId, t.amountToTransfer)
  }

  /** The compensation undoes exactly the withdrawal: the refund goes to the account
      that was debited, with the same reference id and amount. */
  lemma RefundMirrorsWithdraw(t: TransactionDetails)
    ensures CallFor(Refund, t) == CallFor(Withdraw, t).(step := Refund)
  {
  }

  /** Phases of the saga: waiting on one of the three activities, or finished. */
  datatype Phase = Withdrawing | Depositing | Refunding | Finished(outcome: TransferOutcome)

  /** The number of activity calls still possible from a phase. */
  function Remaining(p: Phase): nat
  {
    match p
    case Withdrawing => 3
    case Depositing => 2
    case Refunding => 1
    case Finished(_) => 0
  }

  /** The step a running phase waits on. */
  function PendingStep(p: Phase): (s: Step)
    requires !p.Finished?
    ensures StepIndex(s) + Remaining(p) == 3
  {
    match p
    case Withdrawing => Withdraw
    case Depositing => Deposit
    case Refunding => Refund
  }

  /** One transition: the phase after the pending activity returned or threw. */
  function Next(p: Phase, r: CallResult): (q: Phase)
    requires !p.Finished?
    ensures Remaining(q) < Remaining(p)
    ensures q.Finished? ==> (q.outcome.Throws() <==> p == Refunding && r.Threw?)
  {
    match p
    case Withdrawing => if r.Returned? then Depositing else Finished(WithdrawFailed)
    case Depositing => if r.Returned? then Finished(Transferred) else Refunding
    case Refunding => if r.Returned? then Finished(RolledBack) else Finished(Uncompensated(r.error))
  }

  /** Runs the phase machine from p to a finished phase, recording each call. */
  function Run(p: Phase, t: TransactionDetails, activities: AccountActivity): Execution
    decreases Remaining(p)
  {
    if p.Finished? then Execution([], p.outcome)
    else
      var c := CallFor(PendingStep(p), t);
      var rest := Run(Next(p, Invoke(activities, c)), t, activities);
      Execution([c] + rest.trace, rest.outcome)
  }

  /** The saga from the start. */
  function Saga(t: TransactionDetails, activities: AccountActivity): Execution
  {
    Run(Withdrawing, t, activities)
  }

  /** The workflow method: each activity call is appended to the trace before its result is used. */
  method Transfer(transaction: TransactionDetails, activities: AccountActivity)
    returns (trace: seq<Call>, outcome: TransferOutcome)
    ensures Execution(trace, outcome) == Saga(transaction, activities)
  {
    var sourceAccountId := transaction.sourceAccountId;
    var destinationAccountId := transaction.destinationAccountId;
    var transactionReferenceId := transaction.transactionReferenceId;
    var amountToTransfer := transaction.amountToTransfer;
    trace := [];

    // Stage 1: withdraw from the source; on failure the transaction ends here.
    trace := trace + [Call(Withdraw, sourceAccountId, transactionReferenceId, amountToTransfer)];
    var withdrawn := activities.withdraw(sourceAccountId, transactionReferenceId, amountToTransfer);
    ghost var afterWithdraw := Next(Withdrawing, withdrawn);
    if withdrawn.Threw? {
      outcome := WithdrawFailed;
      assert Saga(transaction, activities) == Execution(trace, Run(afterWithdraw, transaction, activities).outcome);
      return;
    }

    // Stage 2: deposit to the destination; on success the transaction ends here.
    trace := trace + [Call(Deposit, destinationAccountId, transactionReferenceId, amountToTransfer)];
    var deposited := activities.deposit(destinationAccountId, transactionReferenceId, amountToTransfer);
    if deposited.Returned? {
      outcome := Transferred;
      assert Run(Depositing, transaction, activities) == Execution(trace[1..], outcome);
      return;
    }

    // Compensation: refund the source; a failed refund is rethrown.
    trace := trace + [Call(Refund, sourceAccountId, transactionReferenceId, amountToTransfer)];
    var refunded := activities.refund(sourceAccountId, transactionReferenceId, amountToTransfer);
    if refunded.Returned? {
      outcome := RolledBack;
    } else {
      outcome := Uncompensated(refunded.error);
    }
    assert Run(Refunding, transaction, activities) == Execution(trace[2..], outcome);
    assert Run(Depositing, transaction, activities) == Execution(trace[1..], outcome);
  }

  /** Calls appear in strictly increasing step order: Withdraw before Deposit before Refund,
      so no step appears twice. */
  ghost predicate Ordered(trace: seq<Call>)
  {
    forall i, j :: 0 <= i < j < |trace| ==> StepIndex(trace[i].step) < StepIndex(trace[j].step)
  }

  /** From any phase: at most Remaining(p) calls, in step order, each on the account,
      reference id and amount its step calls for, and only steps not yet passed. */
  lemma {:induction false} RunShape(p: Phase, t: TransactionDetails, activities: AccountActivity)
    ensures |Run(p, t, activities).trace| <= Remaining(p)
    ensures Ordered(Run(p, t, activities).trace)
    ensures forall c :: c in Run(p, t, activities).trace ==> c == CallFor(c.step, t) && StepIndex(c.step) + Remaining(p) >= 3
    decreases Remaining(p)
  {
    if !p.Finished? {
      var c := CallFor(PendingStep(p), t);
      var q := Next(p, Invoke(activities, c));
      RunShape(q, t, activities);
      var trace := Run(p, t, activities).trace;
      assert trace == [c] + Run(q, t, activities).trace;
      forall i, j | 0 <= i < j < |trace|
        ensures StepIndex(trace[i].step) < StepIndex(trace[j].step)
      {
        assert trace[j] in Run(q, t, activities).trace;
        if i > 0 {
          assert trace[i] in Run(q, t, activities).trace;
        }
      }
    }
  }

  /** The whole saga: at most three calls, each step at most once, in the order
      Withdraw, Deposit, Refund, with the request's reference id and amount throughout. */
  lemma SagaTraceShape(t: TransactionDetails, activities: AccountActivity)
    ensures |Saga(t, activities).trace| <= 3
    ensures Ordered(Saga(t, activities).trace)
    ensures forall c :: c in Saga(t, activities).trace ==>
              c.referenceId == t.transactionReferenceId && c.amount == t.amountToTransfer
  {
    RunShape(Withdrawing, t, activities);
  }

  /** The four outcomes, by the results of the three activities: the complete decision table. */
  lemma SagaCases(t: TransactionDetails, activities: AccountActivity)
    ensures
      var w := Call(Withdraw, t.sourceAccountId, t.transactionReferenceId, t.amountToTransfer);
      var d := Call(Deposit, t.destinationAccountId, t.transactionReferenceId, t.amountToTransfer);
      var r := Call(Refund, t.sourceAccountId, t.transactionReferenceId, t.amountToTransfer);
      var e := Saga(t, activities);
      if Invoke(activities, w).Threw? then
        e == Execution([w], WithdrawFailed)
      else if Invoke(activities, d).Returned? then
        e == Execution([w, d], Transferred)
      else if Invoke(activities, r).Returned? then
        e == Execution([w, d, r], RolledBack)
      else
        e == Execution([w, d, r], Uncompensated(Invoke(activities, r).error))
  {
    var w := CallFor(Withdraw, t);
    var d := CallFor(Deposit, t);
    var r := CallFor(Refund, t);
    if Invoke(activities, w).Returned? {
      if Invoke(activities, d).Threw? {
        assert Run(Refunding, t, activities).trace == [r];
      }
      assert Run(Depositing, t, activities).trace[0] == d;
    }
  }

  /** The first call is always withdraw on the source account, with the request's reference id and amount. */
  lemma SagaStartsWithWithdraw(t: TransactionDetails, activities: AccountActivity)
    ensures |Saga(t, activities).trace| >= 1
    ensures Saga(t, activities).trace[0] == Call(Withdraw, t.sourceAccountId, t.transactionReferenceId, t.amountToTransfer)
  {
    SagaCases(t, activities);
  }

  /** A failed withdraw ends the transfer normally with no further call. */
  lemma SagaWithdrawFailureStops(t: TransactionDetails, activities: AccountActivity)
    requires activities.withdraw(t.sourceAccountId, t.transactionReferenceId, t.amountToTransfer).Threw?
    ensures Saga(t, activities).trace == [CallFor(Withdraw, t)]
    ensures Saga(t, activities).outcome == WithdrawFailed && !Saga(t, activities).outcome.Throws()
  {
    SagaCases(t, activities);
  }

  /** After a successful withdraw, deposit is the second call, on the destination account,
      with the same reference id and amount, and it is not called again. */
  lemma SagaDepositFollowsWithdraw(t: TransactionDetails, activities: AccountActivity)
    requires activities.withdraw(t.sourceAccountId, t.transactionReferenceId, t.amountToTransfer).Returned?
    ensures |Saga(t, activities).trace| >= 2
    ensures Saga(t, activities).trace[1] == Call(Deposit, t.destinationAccountId, t.transactionReferenceId, t.amountToTransfer)
    ensures forall i :: 0 <= i < |Saga(t, activities).trace| && i != 1 ==> Saga(t, activities).trace[i].step != Deposit
  {
    SagaCases(t, activities);
  }

  /** A successful deposit ends the transfer normally; refund is never called. */
  lemma SagaDepositSuccessStops(t: TransactionDetails, activities: AccountActivity)
    requires activities.withdraw(t.sourceAccountId, t.transactionReferenceId, t.amountToTransfer).Returned?
    requires activities.deposit(t.destinationAccountId, t.transactionReferenceId, t.amountToTransfer).Returned?
    ensures Saga(t, activities).trace == [CallFor(Withdraw, t), CallFor(Deposit, t)]
    ensures Saga(t, activities).outcome == Transferred
  {
    SagaCases(t, activities);
  }

  /** Refund is called iff withdraw returned and deposit threw; it then targets the source
      account with the withdrawn amount and reference id. */
  lemma SagaRefundOnlyAfterFailedDeposit(t: TransactionDetails, activities: AccountActivity)
    ensures (exists c :: c in Saga(t, activities).trace && c.step == Refund) <==>
              activities.withdraw(t.sourceAccountId, t.transactionReferenceId, t.amountToTransfer).Returned? &&
              activities.deposit(t.destinationAccountId, t.transactionReferenceId, t.amountToTransfer).Threw?
    ensures forall c :: c in Saga(t, activities).trace && c.step == Refund ==>
              c == Call(Refund, t.sourceAccountId, t.transactionReferenceId, t.amountToTransfer)
  {
    SagaCases(t, activities);
    var r := CallFor(Refund, t);
    if activities.withdraw(t.sourceAccountId, t.transactionReferenceId, t.amountToTransfer).Returned? &&
       activities.deposit(t.destinationAccountId, t.transactionReferenceId, t.amountToTransfer).Threw? {
      assert r in Saga(t, activities).trace;
    }
  }

  /** transfer throws iff withdraw returned, deposit threw and refund threw; what it throws
      is the refund's error. On every other path it returns normally. */
  lemma SagaThrowsOnlyWhenRefundFails(t: TransactionDetails, activities: AccountActivity)
    ensures Saga(t, activities).outcome.Throws() <==>
              activities.withdraw(t.sourceAccountId, t.transactionReferenceId, t.amountToTransfer).Returned? &&
              activities.deposit(t.destinationAccountId, t.transactionReferenceId, t.amountToTransfer).Threw? &&
              activities.refund(t.sourceAccountId, t.transactionReferenceId, t.amountToTransfer).Threw?
    ensures Saga(t, activities).outcome.Throws() ==>
              Saga(t, activities).outcome.error ==
              activities.refund(t.sourceAccountId, t.transactionReferenceId, t.amountToTransfer).error
    ensures Saga(t, activities).outcome == RolledBack <==>
              activities.withdraw(t.sourceAccountId, t.transactionReferenceId, t.amountToTransfer).Returned? &&
              activities.deposit(t.destinationAccountId, t.transactionReferenceId, t.amountToTransfer).Threw? &&
              activities.refund(t.sourceAccountId, t.transactionReferenceId, t.amountToTransfer).Returned?
  {
    SagaCases(t, activities);
  }

  /** The results of the three activity calls alone determine the calls made and the outcome. */
  lemma SagaDeterminedByResults(t: TransactionDetails, a1: AccountActivity, a2: AccountActivity)
    requires forall s: Step :: Invoke(a1, CallFor(s, t)) == Invoke(a2, CallFor(s, t))
    ensures Saga(t, a1) == Saga(t, a2)
  {
    SagaCases(t, a1);
    SagaCases(t, a2);
    assert Invoke(a1, CallFor(Withdraw, t)) == Invoke(a2, CallFor(Withdraw, t));
    assert Invoke(a1, CallFor(Deposit, t)) == Invoke(a2, CallFor(Deposit, t));
    assert Invoke(a1, CallFor(Refund, t)) == Invoke(a2, CallFor(Refund, t));
  }
}
