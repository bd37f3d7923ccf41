/** The repository's test scenarios, stated on the model: Conan owns a product, Junko
    orders it, and each party resolves the order's product pointer against the
    transactions it has recorded. */
module Scenarios {
  import opened States
  import opened Transactions
  import ProductContract
  import OrderContract
  import opened Pointers
  import Ledger

  const Conan := Party("Conan", PublicKey(1))
  const Junko := Party("Junko", PublicKey(2))

  // Each Product built without an identifier gets a fresh one.
  const DevilFruit := NewProduct("Devil Fruit", "WW", 1.0, Conan, UniqueIdentifier(1))
  const DevilFruitUpdated := NewProduct("Devil Fruit", "WW", 2.0, Conan, UniqueIdentifier(2))
  const ProductWithNoName := NewProduct("", "WW", 2.0, Conan, UniqueIdentifier(3))
  const ProductWithNoCompany := NewProduct("Devil Fruit", "", 3.0, Conan, UniqueIdentifier(4))
  const ProductWithNegValue := NewProduct("Devil Fruit", "WW", -1.0, Conan, UniqueIdentifier(5))
  const DevilFruitUpdatedWithSamePrice := NewProduct("Devil Fruit", "WW", 1.0, Conan, UniqueIdentifier(6))

  // The test attaches its DummyState input to ProductContract.
  const DummyState := OtherState("DummyState", ProductContractId)

  const ByConan := [PublicKey(1)]

  /** A transaction with the given inputs and outputs and a single ProductContract command
      signed by Conan. */
  function ProductTx(inputs: seq<ContractState>, outputs: seq<ContractState>, value: CommandData): LedgerTransaction
  {
    LedgerTransaction(inputs, outputs, [Command(value, ByConan)])
  }

  /** With a single ProductContract command, verification is that command's rule. */
  lemma SingleProductCommand(tx: LedgerTransaction, c: Command)
    requires tx.commands == [c] && c.value.IsProductCommand()
    ensures ProductContract.Verify(tx) == ProductContract.VerifyCommand(tx, c)
  {
    assert tx.commands[1..] == [];
    assert ProductContract.ProductCommands(tx.commands) == [c];
    assert ProductContract.VerifyAll(tx, [c][1..]) == Accept;
  }

  /** A Product with a negative price and neither name nor company, signed by nobody,
      is validly created by a transaction that carries no ProductContract command. */
  lemma InvalidProductWithoutCommandIsValid()
    ensures Ledger.Verifies(LedgerTransaction([], [ProductState(Product("", "", -5.0, Conan, UniqueIdentifier(0), [Conan]))],
                                              [Command(ForeignCommand("DummyCommand"), [])]))
  {
    var tx := LedgerTransaction([], [ProductState(Product("", "", -5.0, Conan, UniqueIdentifier(0), [Conan]))],
                                [Command(ForeignCommand("DummyCommand"), [])]);
    Ledger.UncommandedProductsUnchecked(tx);
  }

  lemma CreateProductMustHaveNoInputs()
    ensures ProductContract.Verify(ProductTx([DummyState], [ProductState(DevilFruit)], ProductCreate))
            == Reject(FailedRequirement(ProductContract.NoInputsOnCreate))
    ensures ProductContract.Verify(ProductTx([], [ProductState(DevilFruit)], ProductCreate)) == Accept
  {
    var bad := ProductTx([DummyState], [ProductState(DevilFruit)], ProductCreate);
    var good := ProductTx([], [ProductState(DevilFruit)], ProductCreate);
    SingleProductCommand(bad, bad.commands[0]);
    SingleProductCommand(good, good.commands[0]);
    ProductContract.CreateStructureRejections(bad, {PublicKey(1)});
    ProductContract.CreateDefaultProductAccepted("Devil Fruit", "WW", 1.0, Conan, UniqueIdentifier(1), good.commands);
    assert SignerSet(ByConan) == {PublicKey(1)};
  }

  lemma CreateProductMustHaveOneOutput()
    ensures ProductContract.Verify(ProductTx([], [ProductState(DevilFruit), ProductState(DevilFruit)], ProductCreate))
            == Reject(FailedRequirement(ProductContract.OneOutput))
  {
    var tx := ProductTx([], [ProductState(DevilFruit), ProductState(DevilFruit)], ProductCreate);
    SingleProductCommand(tx, tx.commands[0]);
    ProductContract.CreateStructureRejections(tx, SignerSet(ByConan));
  }

  lemma CreateProductFieldChecks()
    ensures ProductContract.Verify(ProductTx([], [ProductState(ProductWithNoName)], ProductCreate))
            == Reject(FailedRequirement(ProductContract.NameNonEmpty))
    ensures ProductContract.Verify(ProductTx([], [ProductState(ProductWithNoCompany)], ProductCreate))
            == Reject(FailedRequirement(ProductContract.CompanyNonEmpty))
    ensures ProductContract.Verify(ProductTx([], [ProductState(ProductWithNegValue)], ProductCreate))
            == Reject(FailedRequirement(ProductContract.PricePositive))
  {
    var signers := SignerSet(ByConan);
    assert Conan.owningKey in signers;
    forall p | p in [ProductWithNoName, ProductWithNoCompany, ProductWithNegValue]
      ensures ProductContract.Verify(ProductTx([], [ProductState(p)], ProductCreate))
              == ProductContract.VerifyCreate(ProductTx([], [ProductState(p)], ProductCreate), signers)
      ensures Covers(signers, p.participants)
    {
      var tx := ProductTx([], [ProductState(p)], ProductCreate);
      SingleProductCommand(tx, tx.commands[0]);
      ProductContract.DefaultProductSigners(p.name, p.company, p.price, Conan, p.linearId, signers);
    }
    ProductContract.CreateFieldRejections(ProductTx([], [ProductState(ProductWithNoName)], ProductCreate), signers, ProductWithNoName);
    ProductContract.CreateFieldRejections(ProductTx([], [ProductState(ProductWithNoCompany)], ProductCreate), signers, ProductWithNoCompany);
    ProductContract.CreateFieldRejections(ProductTx([], [ProductState(ProductWithNegValue)], ProductCreate), signers, ProductWithNegValue);
  }

  lemma UpdatePriceMustHaveOneInput()
    ensures ProductContract.Verify(ProductTx([ProductState(DevilFruit), ProductState(DevilFruit)], [ProductState(DevilFruitUpdated)], ProductUpdatePrice))
            == Reject(FailedRequirement(ProductContract.OneInputOnUpdate))
    ensures ProductContract.Verify(ProductTx([ProductState(DevilFruit)], [ProductState(DevilFruitUpdated)], ProductUpdatePrice)) == Accept
  {
    var bad := ProductTx([ProductState(DevilFruit), ProductState(DevilFruit)], [ProductState(DevilFruitUpdated)], ProductUpdatePrice);
    var good := ProductTx([ProductState(DevilFruit)], [ProductState(DevilFruitUpdated)], ProductUpdatePrice);
    SingleProductCommand(bad, bad.commands[0]);
    SingleProductCommand(good, good.commands[0]);
    ProductContract.UpdateStructureRejections(bad, SignerSet(ByConan));
    ProductContract.VerifyUpdatePriceAccepts(good, SignerSet(ByConan));
    ProductContract.DefaultProductSigners("Devil Fruit", "WW", 2.0, Conan, UniqueIdentifier(2), SignerSet(ByConan));
  }

  lemma UpdatePriceFieldChecks()
    ensures ProductContract.Verify(ProductTx([ProductState(DevilFruit)], [ProductState(ProductWithNoName)], ProductUpdatePrice))
            == Reject(FailedRequirement(ProductContract.SameName))
    ensures ProductContract.Verify(ProductTx([ProductState(DevilFruit)], [ProductState(ProductWithNoCompany)], ProductUpdatePrice))
            == Reject(FailedRequirement(ProductContract.SameCompany))
    ensures ProductContract.Verify(ProductTx([ProductState(DevilFruit)], [ProductState(ProductWithNegValue)], ProductUpdatePrice))
            == Reject(FailedRequirement(ProductContract.PricePositive))
    ensures ProductContract.Verify(ProductTx([ProductState(DevilFruit)], [ProductState(DevilFruitUpdatedWithSamePrice)], ProductUpdatePrice))
            == Reject(FailedRequirement(ProductContract.PriceChanged))
  {
    var signers := SignerSet(ByConan);
    assert Conan.owningKey in signers;
    forall p | p in [ProductWithNoName, ProductWithNoCompany, ProductWithNegValue, DevilFruitUpdatedWithSamePrice]
      ensures ProductContract.Verify(ProductTx([ProductState(DevilFruit)], [ProductState(p)], ProductUpdatePrice))
              == Reject(FailedRequirement(
                   if p.price <= 0.0 then ProductContract.PricePositive
                   else if p.price == DevilFruit.price then ProductContract.PriceChanged
                   else if p.name != DevilFruit.name then ProductContract.SameName
                   else ProductContract.SameCompany))
    {
      var tx := ProductTx([ProductState(DevilFruit)], [ProductState(p)], ProductUpdatePrice);
      SingleProductCommand(tx, tx.commands[0]);
      ProductContract.DefaultProductSigners(p.name, p.company, p.price, Conan, p.linearId, signers);
      ProductContract.UpdateFieldRejections(tx, signers, DevilFruit, p);
    }
  }

  // ---------------------------------------------------------------------------
  // Orders and pointer resolution
  // ---------------------------------------------------------------------------

  const ProductTxId := SecureHash(1)
  const OrderTxId := SecureHash(2)
  const UpdateTxId := SecureHash(3)

  /** The transaction in which Conan creates the product. */
  const CreateProduct := StoredTransaction([ProductState(DevilFruit)])

  /** The static pointer built from output 0 of that transaction. */
  const ProductPointerToDevilFruit: ProductPointer := StaticPointer(StateRef(ProductTxId, 0), ProductKind)

  const JunkoOrder := NewOrder(Junko, Conan, ProductPointerToDevilFruit)

  const CreateOrder := StoredTransaction([OrderState(JunkoOrder)])

  /** Conan holds both transactions; Junko received only the order. */
  const ConanStore: Store := map[ProductTxId := CreateProduct, OrderTxId := CreateOrder]
  const JunkoStore: Store := map[OrderTxId := CreateOrder]

  lemma CreateOrderVerifies()
    ensures ProductContract.Verify(ProductTx([], CreateProduct.outputs, ProductCreate)) == Accept
    ensures OrderContract.Verify(LedgerTransaction([], CreateOrder.outputs, [Command(OrderCreate, [PublicKey(2), PublicKey(1)])]))
            == Accept
  {
    CreateProductMustHaveNoInputs();
    OrderContract.DefaultOrderSigners(Junko, Conan, ProductPointerToDevilFruit, [PublicKey(2), PublicKey(1)]);
  }

  lemma ResolveInConanStore()
    ensures ResolveProduct(JunkoOrder.productPointer, ConanStore) == Ok(DevilFruit)
    ensures DevilFruit.price == 1.0
  {
  }

  lemma ResolveInJunkoStoreFails()
    ensures ResolveProduct(JunkoOrder.productPointer, JunkoStore) == Err(TransactionResolution(ProductTxId))
  {
  }

  lemma ResolveInJunkoStoreAfterReceiving()
    ensures ResolveProduct(JunkoOrder.productPointer, Record(JunkoStore, ProductTxId, ConanStore[ProductTxId]))
            == Ok(DevilFruit)
  {
    ResolveAfterReceiving(JunkoOrder.productPointer, JunkoStore, ConanStore);
  }

  /** Conan updates the price to 2.0; the order still resolves to the 1.0 version. */
  lemma ResolveAfterPriceUpdate()
    ensures ProductContract.Verify(ProductTx(CreateProduct.outputs, [ProductState(DevilFruitUpdated)], ProductUpdatePrice)) == Accept
    ensures ResolveProduct(JunkoOrder.productPointer,
                           Record(ConanStore, UpdateTxId, StoredTransaction([ProductState(DevilFruitUpdated)])))
            == Ok(DevilFruit)
    ensures DevilFruitUpdated.price == 2.0
  {
    UpdatePriceMustHaveOneInput();
    ResolveUnaffectedByLaterRecords(JunkoOrder.productPointer, ConanStore, UpdateTxId,
                                    StoredTransaction([ProductState(DevilFruitUpdated)]));
  }
}
