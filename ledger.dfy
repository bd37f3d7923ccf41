/** Which contracts judge a transaction. Every state names its governing contract
    (Product names ProductContract, Order names OrderContract); a transaction is
    valid when each contract named by one of its input or output states accepts it.
    Contracts of other state classes are outside this model and are taken to accept. */
module Ledger {
  import opened States
  import opened Transactions
  import ProductContract
  import OrderContract

  /** The contracts named by the transaction's input and output states. */
  function ContractsToRun(tx: LedgerTransaction): set<ContractId>
  {
    set s | s in tx.inputs + tx.outputs :: BelongsTo(s)
  }

  /** Contract verification of the whole transaction, for the two contracts modelled. */
  predicate Verifies(tx: LedgerTransaction)
  {
    && (ProductContractId in ContractsToRun(tx) ==> ProductContract.Verify(tx) == Accept)
    && (OrderContractId in ContractsToRun(tx) ==> OrderContract.Verify(tx) == Accept)
  }

  /** In a valid transaction that consumes or creates a Product, each ProductContract
      command meets its own rule; the Product itself is checked only through them. */
  lemma ProductCommandsMeetRules(tx: LedgerTransaction, p: Product)
    requires Verifies(tx) && ProductState(p) in tx.inputs + tx.outputs
    ensures forall c :: c in tx.commands && c.value.IsProductCommand() ==> ProductContract.CommandValid(tx, c)
  {
    assert BelongsTo(ProductState(p)) in ContractsToRun(tx);
    ProductContract.VerifyAccepts(tx);
  }

  /** In a valid transaction that consumes or creates an Order, OrderContract's rule
      holds, and the Order is the transaction's single state: one Create command, no
      inputs, and the Order as the only output. */
  lemma OrderStatesMeetRule(tx: LedgerTransaction, o: Order)
    requires Verifies(tx) && OrderState(o) in tx.inputs + tx.outputs
    ensures OrderContract.CreateValid(tx)
    ensures tx.inputs == [] && tx.outputs == [OrderState(o)]
  {
    assert BelongsTo(OrderState(o)) in ContractsToRun(tx);
    OrderContract.VerifyAccepts(tx);
    assert OrderState(o) in tx.outputs;
  }

  /** ProductContract judges Products only through its commands: a transaction with no
      ProductContract command and no state governed by OrderContract is valid, whatever
      its Products hold and whoever signed it. */
  lemma UncommandedProductsUnchecked(tx: LedgerTransaction)
    requires forall c :: c in tx.commands ==> !c.value.IsProductCommand()
    requires forall s :: s in tx.inputs + tx.outputs ==> BelongsTo(s) != OrderContractId
    ensures Verifies(tx)
  {
    ProductContract.VerifyAccepts(tx);
  }

  /** A Product and an Order cannot be created by the same transaction: OrderContract
      allows one output only. */
  lemma ProductAndOrderNotCreatedTogether(tx: LedgerTransaction, p: Product, o: Order)
    requires ProductState(p) in tx.outputs && OrderState(o) in tx.outputs
    ensures !Verifies(tx)
  {
    assert BelongsTo(OrderState(o)) in ContractsToRun(tx);
    OrderContract.VerifyAccepts(tx);
  }
}
