/** The workflow composed with the mock activities: what the sample actually does
    as shipped, and what it would do with either mock flag turned off.
 */
module ShippedConfiguration {
  import opened Transaction
  import opened AccountActivityImpl
  import opened MoneyTransferWorkflow

  /** As shipped every activity returns, so every transfer takes the withdraw, deposit path
      and never refunds. */
  lemma ShippedAlwaysTransfers(t: TransactionDetails)
    ensures Saga(t, Mock()) == Execution([CallFor(Withdraw, t), CallFor(Deposit, t)], Transferred)
    ensures forall c :: c in Saga(t, Mock()).trace ==> c.step != Refund
  {
    MockNeverThrows(CallFor(Withdraw, t));
    MockNeverThrows(CallFor(Deposit, t));
    SagaCases(t, Mock());
  }

  /** With deposit's flag off and refund's on, every transfer is rolled back. */
  lemma FailingDepositRollsBack(t: TransactionDetails)
    ensures Saga(t, MockWith(false, true)) ==
              Execution([CallFor(Withdraw, t), CallFor(Deposit, t), CallFor(Refund, t)], RolledBack)
  {
    SagaCases(t, MockWith(false, true));
  }

  /** With both flags off, the refund's simulated error escapes transfer. */
  lemma FailingRefundIsRethrown(t: TransactionDetails)
    ensures Saga(t, MockWith(false, false)) ==
              Execution([CallFor(Withdraw, t), CallFor(Deposit, t), CallFor(Refund, t)],
                        Uncompensated(ActivityError(RefundErrorMessage)))
  {
    SagaCases(t, MockWith(false, false));
  }
}
