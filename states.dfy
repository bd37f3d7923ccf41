/** The two ledger record kinds, Product and Order, and the values they are built
    from: parties with their signing keys, transaction hashes, state references and
    the static pointer an Order holds. Keys, parties and hashes are opaque values
    that are only ever compared for equality. */
module States {

  /** A public key; the contracts only test membership of keys in signer sets. */
  datatype PublicKey = PublicKey(id: nat)

  /** A ledger identity together with the key it signs with. */
  datatype Party = Party(name: string, owningKey: PublicKey)

  /** The hash of a transaction, which is also its identifier. */
  datatype SecureHash = SecureHash(id: nat)

  /** Identifier of a linear state, shared by every version of one logical item. */
  datatype UniqueIdentifier = UniqueIdentifier(id: nat)

  /** The locator of one output: the producing transaction and the output's position. */
  datatype StateRef = StateRef(txhash: SecureHash, index: int)

  /** The run-time class of a state, as a pointer records it for its type check. */
  datatype StateKind = ProductKind | OrderKind | OtherKind(className: string)

  /** A pointer to one historical output: the locator and the class expected there. */
  datatype StaticPointer = StaticPointer(pointer: StateRef, kind: StateKind)

  /** A pointer whose type argument is Product, as in StaticPointer<Product>. */
  type ProductPointer = p: StaticPointer | p.kind == ProductKind
    witness StaticPointer(StateRef(SecureHash(0), 0), ProductKind)

  /** An owned product. Every field is immutable: a price update produces a new
      Product value and leaves the old one as it was. */
  datatype Product = Product(
    name: string,
    company: string,
    price: real,
    owner: Party,
    linearId: UniqueIdentifier,
    participants: seq<Party>)

  /** An order between a consumer and a product owner. It refers to the product
      through a pointer to the output that produced it, not through a copy. */
  datatype Order = Order(
    consumer: Party,
    productOwner: Party,
    productPointer: ProductPointer,
    participants: seq<Party>)

  /** A state as it appears among a transaction's inputs or outputs. OtherState
      stands for any other state class (the tests' DummyState), together with the
      contract it was attached to. */
  datatype ContractState =
    | ProductState(product: Product)
    | OrderState(order: Order)
    | OtherState(className: string, contract: ContractId)

  /** The contracts a state can be governed by. */
  datatype ContractId = ProductContractId | OrderContractId | OtherContractId(contractName: string)

  /** A Product built without an explicit participant list: only the owner takes part.
      The linear identifier, freshly generated by default, is supplied by the caller. */
  function NewProduct(name: string, company: string, price: real, owner: Party, linearId: UniqueIdentifier): Product
  {
    Product(name, company, price, owner, linearId, [owner])
  }

  /** An Order built without an explicit participant list: consumer and product owner. */
  function NewOrder(consumer: Party, productOwner: Party, productPointer: ProductPointer): Order
  {
    Order(consumer, productOwner, productPointer, [consumer, productOwner])
  }

  /** The class of a state, checked by pointer resolution. */
  function KindOf(s: ContractState): StateKind
  {
    match s
    case ProductState(_) => ProductKind
    case OrderState(_) => OrderKind
    case OtherState(c, _) => OtherKind(c)
  }

  /** The contract that governs a state: for Product and Order the one their class
      names in its BelongsToContract annotation, for any other state the one it was
      attached to. */
  function BelongsTo(s: ContractState): (r: ContractId)
    ensures s.ProductState? ==> r == ProductContractId
    ensures s.OrderState? ==> r == OrderContractId
  {
    match s
    case ProductState(_) => ProductContractId
    case OrderState(_) => OrderContractId
    case OtherState(_, c) => c
  }
}
