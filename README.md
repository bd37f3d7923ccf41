# Products, orders and static pointers on a Corda ledger — a Dafny model

This project models the contract logic of a small Corda application. A **Product**
(name, company, price, owner, linear identifier, participants) is created by a
`Create` command and re-issued at a new price by an `UpdatePrice` command; both are
judged by **ProductContract**. An **Order** links a consumer and a product owner
to one historical Product output through a **StaticPointer** (producing
transaction hash plus output index) and is judged by **OrderContract**. Resolving
a static pointer reads the producing transaction from the resolving party's own store
of recorded transactions.

Modules, one per component:

- `States` (`states.dfy`): keys, parties, hashes, state references, the static pointer,
  `Product`, `Order`, the default participant lists (`NewProduct`, `NewOrder`) and
  the contract each state class belongs to.
- `Transactions` (`transactions.dfy`): the transaction view a contract sees
  (inputs, outputs, commands with signer keys), the `Verdict` (accept, or the
  error that ends verification), the `requireThat` block (`RequireThat`), Kotlin's
  `single()` and the typed filters `outputsOfType` / `inputsOfType`.
- `ProductContract` (`product_contract.dfy`): `verify` with its per-command
  dispatch, the `Create` and `UpdatePrice` rules, reference predicates
  `CreateValid` / `UpdateValid` and the lemmas about them.
- `OrderContract` (`order_contract.dfy`): `verify` with its single-command and
  single-Order checks, the reference predicate `CreateValid` and the lemmas.
- `Pointers` (`pointers.dfy`): the store, recording a transaction, building a
  pointer from an output reference, and resolution.
- `Ledger` (`ledger.dfy`): which contracts a transaction is judged by.
- `Scenarios` (`scenarios.dfy`): the repository's test cases as lemmas.

Every rule is a pure function returning `Accept` or `Reject(error)`. Errors
follow the code: the first false `using` clause of a `requireThat` block decides
the message, so the verdict is a single error, not a list. The messages are the
ones in the main sources (the update rule says "Only one input should be consumed
when updating a product."). The clause guarding the price is `price > 0` although
its message says "non-negative", so a price of 0 is rejected.

Some properties the proofs make explicit:

- ProductContract applies a rule to every ProductContract command it finds. A
  transaction with no such command verifies under ProductContract whatever its
  Product states hold (`ProductContract.VerifyAccepts`).
- The UpdatePrice rule never looks at the input's owner, participants or linear
  identifier. Only the output's participants must sign
  (`ProductContract.UpdateIgnoresOwnerAndId`).
- No clause of OrderContract inspects the product pointer
  (`OrderContract.VerdictIgnoresPointer`).

Three facts about the code shape the model. Each rule stops at the first violated
clause instead of collecting them all. UpdatePrice does not check that the linear
identifier is kept across an update. ProductContract does not require exactly one
of its commands.

## Model

| member | source | states |
|---|---|---|
| `Transactions.RequireThat` | contracts/src/main/kotlin/com/pointers/example/contracts/ProductContract.kt:35-45 | a requireThat block passes exactly when every clause holds; otherwise the first false clause, in order, decides the message |
| `Transactions.ProductsOf` | contracts/src/main/kotlin/com/pointers/example/contracts/ProductContract.kt:38 | the typed filter keeps exactly the Product states of the list and is no longer than it |
| `Transactions.ProductsOfAppend` | contracts/src/main/kotlin/com/pointers/example/contracts/ProductContract.kt:38 | filtering a concatenation concatenates the filtered parts: every Product is kept, in order and with its multiplicity, so `single()` sees the true count |
| `Transactions.OrdersOf` | contracts/src/main/kotlin/com/pointers/example/contracts/OrderContract.kt:25 | the typed filter keeps exactly the Order states of the list and is no longer than it |
| `Transactions.OrdersOfAppend` | contracts/src/main/kotlin/com/pointers/example/contracts/OrderContract.kt:25 | every Order is kept, in order and with its multiplicity |
| `Transactions.OfTypeSingleton` | contracts/src/main/kotlin/com/pointers/example/contracts/ProductContract.kt:38 | on a one-state list both typed filters return that state exactly when it has their type; with the append lemmas this fixes every filter result |
| `ProductContract.ProductCommands` | contracts/src/main/kotlin/com/pointers/example/contracts/ProductContract.kt:26 | `commandsOfType<Commands>()` keeps exactly the ProductContract commands |
| `ProductContract.ProductCommandsAppend` | contracts/src/main/kotlin/com/pointers/example/contracts/ProductContract.kt:26 | every ProductContract command is kept in its place and with its multiplicity, so the rules run in the transaction's order |
| `ProductContract.ProductCommandsSingleton` | contracts/src/main/kotlin/com/pointers/example/contracts/ProductContract.kt:26 | a one-command list keeps its command exactly when it is a ProductContract command |
| `ProductContract.VerifyCreateAccepts` | contracts/src/main/kotlin/com/pointers/example/contracts/ProductContract.kt:35-45 | Create accepts iff there are no inputs, one output, that output is a Product, all its participants signed, price > 0, name and company non-empty |
| `ProductContract.CreateStructureRejections` | contracts/src/main/kotlin/com/pointers/example/contracts/ProductContract.kt:36-38 | any input, of any kind, fails with "No inputs should be consumed when creating a product." whatever the outputs; then an output count other than one fails with "Only one output state should be created."; then a non-Product output fails `single()` |
| `ProductContract.CreateFieldRejections` | contracts/src/main/kotlin/com/pointers/example/contracts/ProductContract.kt:39-44 | with the structure right, the first of: missing signer, price <= 0 (including 0), empty name, empty company decides the message |
| `ProductContract.CreateIgnoresOwner` | contracts/src/main/kotlin/com/pointers/example/contracts/ProductContract.kt:39 | the signer check follows the Product's participant list, not its owner: Products differing only in owner and linear id get the same verdict |
| `ProductContract.DefaultProductSigners` | contracts/src/main/kotlin/com/pointers/example/states/Product.kt:17 | with the default participant list `[owner]`, the signer rule holds iff the owner's key signed |
| `ProductContract.CreateDefaultProductAccepted` | contracts/src/main/kotlin/com/pointers/example/contracts/ProductContract.kt:35-44 | any default Product with non-empty name and company and a positive price, created alone and signed by its owner, is accepted |
| `ProductContract.VerifyUpdatePriceAccepts` | contracts/src/main/kotlin/com/pointers/example/contracts/ProductContract.kt:47-58 | UpdatePrice accepts iff one Product in, one Product out, output participants signed, output price > 0 and different from the input's, same name and company |
| `ProductContract.UpdateStructureRejections` | contracts/src/main/kotlin/com/pointers/example/contracts/ProductContract.kt:48-51 | input count, then output count, then the Product type of input and output, are checked first, with their own errors |
| `ProductContract.UpdateFieldRejections` | contracts/src/main/kotlin/com/pointers/example/contracts/ProductContract.kt:52-57 | with one Product in and out, the first failing of signers, positive price, changed price, same name, same company decides the message |
| `ProductContract.UpdateIgnoresOwnerAndId` | contracts/src/main/kotlin/com/pointers/example/contracts/ProductContract.kt:47-58 | the verdict depends on the input only through name, company and price, and on the output only through those and its participants |
| `ProductContract.AcceptedUpdateIsNewVersion` | contracts/src/main/kotlin/com/pointers/example/contracts/ProductContract.kt:54-57 | an accepted update outputs the input with a new positive price (owner, id and participants may differ), the input itself untouched |
| `ProductContract.VerifyCommandAccepts` | contracts/src/main/kotlin/com/pointers/example/contracts/ProductContract.kt:28-32 | a command passes dispatch iff it is Create and meets the Create rule, or UpdatePrice and meets that rule; any other class never passes |
| `ProductContract.VerifyAllAccepts` | contracts/src/main/kotlin/com/pointers/example/contracts/ProductContract.kt:26-33 | checking a command list accepts iff every command in it meets its rule |
| `ProductContract.VerifyAccepts` | contracts/src/main/kotlin/com/pointers/example/contracts/ProductContract.kt:25-34 | verify accepts iff every ProductContract command meets its rule; other contracts' commands are ignored and zero ProductContract commands accept vacuously |
| `ProductContract.FirstFailingCommandDecides` | contracts/src/main/kotlin/com/pointers/example/contracts/ProductContract.kt:26-33 | commands are checked in order and the first failing one's error is the verdict |
| `ProductContract.UnrecognisedFirstCommand` | contracts/src/main/kotlin/com/pointers/example/contracts/ProductContract.kt:31 | a ProductContract command of another class, met first, fails with "Unrecognised command." |
| `ProductContract.CreateAndUpdateExclusive` | contracts/src/main/kotlin/com/pointers/example/contracts/ProductContract.kt:35-58 | a transaction holding both a Create and an UpdatePrice command never verifies |
| `OrderContract.CreateCommands` | contracts/src/main/kotlin/com/pointers/example/contracts/OrderContract.kt:23 | the filter keeps exactly the OrderContract Create commands |
| `OrderContract.CreateCommandsAppend` | contracts/src/main/kotlin/com/pointers/example/contracts/OrderContract.kt:23 | every Create command is kept with its multiplicity, so `requireSingleCommand` counts each one |
| `OrderContract.CreateCommandsSingleton` | contracts/src/main/kotlin/com/pointers/example/contracts/OrderContract.kt:23 | a one-command list keeps its command exactly when it is a Create |
| `OrderContract.VerifyAccepts` | contracts/src/main/kotlin/com/pointers/example/contracts/OrderContract.kt:22-31 | verify accepts iff exactly one Create command, no inputs, a single output that is an Order, and all its participants among the command's signers |
| `OrderContract.CommandRequired` | contracts/src/main/kotlin/com/pointers/example/contracts/OrderContract.kt:23 | zero Create commands fail as a missing command, several as more than one, before any state is examined |
| `OrderContract.SingleOrderOutputFirst` | contracts/src/main/kotlin/com/pointers/example/contracts/OrderContract.kt:25 | with one command, zero or several Order outputs fail on `single()` before the input, output-count and signer clauses |
| `OrderContract.CreateRejections` | contracts/src/main/kotlin/com/pointers/example/contracts/OrderContract.kt:27-29 | then any input fails with "No input should be consumed when creating an order.", then a total output count other than one, then a missing participant signature |
| `OrderContract.DefaultOrderSigners` | contracts/src/main/kotlin/com/pointers/example/states/Order.kt:15 | an Order with default participants, created alone, is accepted iff both consumer and product owner signed |
| `OrderContract.VerdictIgnoresPointer` | contracts/src/main/kotlin/com/pointers/example/contracts/OrderContract.kt:24-30 | replacing the Order's product pointer by any other leaves the verdict unchanged |
| `Pointers.Record` | contracts/src/test/kotlin/com/pointers/example/contracts/OrderContractTests.kt:236 | recording adds the hash, keeps every transaction already held, and stores the new one only when its hash was absent |
| `Pointers.Resolve` | contracts/src/test/kotlin/com/pointers/example/contracts/OrderContractTests.kt:156 | a successful resolution returns the output stored at the static pointer's index in the store, of its class, with its locator |
| `Pointers.ResolveProduct` | contracts/src/test/kotlin/com/pointers/example/contracts/OrderContractTests.kt:156-157 | a Product pointer resolves exactly when resolution succeeds, to the Product state found there, and fails with resolution's own error otherwise |
| `Pointers.ResolveOutRef` | contracts/src/test/kotlin/com/pointers/example/contracts/OrderContractTests.kt:135-136 | round trip: a static pointer built from `outRef(i)` of a held transaction resolves to that same output and reference |
| `Pointers.ResolveMissing` | contracts/src/test/kotlin/com/pointers/example/contracts/OrderContractTests.kt:160-196 | a store lacking the producing transaction fails with a resolution error naming it, never another error |
| `Pointers.ResolveDependsOnlyOnSource` | contracts/src/test/kotlin/com/pointers/example/contracts/OrderContractTests.kt:233-239 | two stores holding the same producing transaction resolve a pointer alike |
| `Pointers.ResolveUnaffectedByLaterRecords` | contracts/src/test/kotlin/com/pointers/example/contracts/OrderContractTests.kt:277-293 | recording other transactions, such as a later product version, does not change what a pointer resolves to |
| `Pointers.ResolveAfterReceiving` | contracts/src/test/kotlin/com/pointers/example/contracts/OrderContractTests.kt:233-239 | once the missing transaction is recorded, resolution equals that in the store of the party that held it |
| `Pointers.ResolveMonotonic` | contracts/src/test/kotlin/com/pointers/example/contracts/OrderContractTests.kt:350-355 | a pointer resolved in a store resolves the same in any larger store |
| `States.BelongsTo` | contracts/src/main/kotlin/com/pointers/example/states/Product.kt:10 | a Product is governed by ProductContract, and an Order by OrderContract as its own annotation says |
| `Ledger.ProductCommandsMeetRules` | contracts/src/main/kotlin/com/pointers/example/contracts/ProductContract.kt:25-34 | in a valid transaction consuming or creating a Product, every ProductContract command meets its Create or UpdatePrice rule |
| `Ledger.OrderStatesMeetRule` | contracts/src/main/kotlin/com/pointers/example/contracts/OrderContract.kt:22-31 | in a valid transaction consuming or creating an Order, there is one Create command, no input, and that very Order as the single output, signed by all its participants |
| `Ledger.UncommandedProductsUnchecked` | contracts/src/main/kotlin/com/pointers/example/contracts/ProductContract.kt:26 | a transaction with no ProductContract command and no state governed by OrderContract is valid, whatever its Products hold and whoever signed |
| `Ledger.ProductAndOrderNotCreatedTogether` | contracts/src/main/kotlin/com/pointers/example/contracts/OrderContract.kt:28 | no valid transaction outputs both a Product and an Order |
| `Scenarios.SingleProductCommand` | contracts/src/main/kotlin/com/pointers/example/contracts/ProductContract.kt:26-33 | with one ProductContract command, verification is that command's rule |
| `Scenarios.InvalidProductWithoutCommandIsValid` | contracts/src/main/kotlin/com/pointers/example/contracts/ProductContract.kt:26 | a Product with price -5.0, no name and no company, signed by nobody, is validly created when no ProductContract command is present |
| `Scenarios.CreateProductMustHaveNoInputs` | contracts/src/test/kotlin/com/pointers/example/contracts/ProductContractTests.kt:9-26 | a DummyState input is rejected with the no-inputs message; the same Create without it verifies |
| `Scenarios.CreateProductMustHaveOneOutput` | contracts/src/test/kotlin/com/pointers/example/contracts/ProductContractTests.kt:29-39 | two outputs are rejected with "Only one output state should be created." |
| `Scenarios.CreateProductFieldChecks` | contracts/src/test/kotlin/com/pointers/example/contracts/ProductContractTests.kt:49-74 | no name, no company and price -1.0 fail with their messages |
| `Scenarios.UpdatePriceMustHaveOneInput` | contracts/src/test/kotlin/com/pointers/example/contracts/ProductContractTests.kt:84-101 | two inputs fail with the one-input message; 1.0 to 2.0 signed by the owner verifies |
| `Scenarios.UpdatePriceFieldChecks` | contracts/src/test/kotlin/com/pointers/example/contracts/ProductContractTests.kt:105-130 | changed name, changed company, price -1.0 and an unchanged price fail with their messages |
| `Scenarios.CreateOrderVerifies` | contracts/src/test/kotlin/com/pointers/example/contracts/OrderContractTests.kt:101-118 | the product creation and the order between Junko and Conan, signed by both, verify |
| `Scenarios.ResolveInConanStore` | contracts/src/test/kotlin/com/pointers/example/contracts/OrderContractTests.kt:154-157 | the order's pointer resolves in Conan's store to the product with price 1.0 |
| `Scenarios.ResolveInJunkoStoreFails` | contracts/src/test/kotlin/com/pointers/example/contracts/OrderContractTests.kt:160-196 | in Junko's store, lacking the product transaction, resolution fails with a resolution error |
| `Scenarios.ResolveInJunkoStoreAfterReceiving` | contracts/src/test/kotlin/com/pointers/example/contracts/OrderContractTests.kt:233-239 | after Junko records the product transaction, the order's static pointer resolves to the 1.0 product |
| `Scenarios.ResolveAfterPriceUpdate` | contracts/src/test/kotlin/com/pointers/example/contracts/OrderContractTests.kt:277-293 | the 1.0 to 2.0 update verifies, and the order still resolves to the 1.0 version afterwards |

## Left out

- Floating point: `price` is a `Double` in the source and a `real` here. NaN and signed zero are not modelled; the contracts only use `> 0` and `!=`.
- Exception texts of library code are not modelled. `single()` and `requireSingleCommand` fail with distinct error kinds (`EmptyList`, `MoreThanOneElement`, `MissingCommand`), not with their messages. A failed `using` clause carries its own message, without the "Failed requirement: " prefix the platform adds.
- Cryptography and identities: keys, parties and transaction hashes are opaque values compared for equality. Signature checking is not modelled; a command's signer list is taken as given.
- Transaction building, signing, notarisation, the mock services, databases and the serialization environment of the tests are not modelled. Transaction hashes are not computed from contents; the scenarios fix them.
- Pointer resolution is modelled as a lookup in a map from hash to the transaction's outputs. The platform's transaction storage and vault queries are not modelled. `Pointers.Record` keeps a copy already held rather than replacing it.
- The default linear identifier is generated fresh by the source. Here it is a parameter of `States.NewProduct`. The identifier's optional external id is not modelled.
- The platform's own transaction checks are not modelled: contract attachments and constraints, the notary, the rule that a transaction has at least one command. `Ledger.Verifies` runs only the two contracts modelled. A state attached to any other contract is taken to be accepted by that contract. The tests attach their `DummyState` input to ProductContract, and the model does the same.
- `States.BelongsTo`: a Product is always governed by ProductContract and an Order by OrderContract, as their class annotations say. The tests' ledger DSL can attach any state to any contract explicitly; the model allows that only for other state classes (`OtherState`).
- The contract identifier strings (`ID` in each companion object) are not modelled; `States.BelongsTo` names the governing contract directly.
- The source's `else` branch of the command dispatch can only be reached by a further class implementing `ProductContract.Commands`. The repository defines none. `ProductOther` stands for such a class.
