/** Resolution of a static pointer against the transactions one party has recorded.
    A pointer names one historical output (transaction hash and index); resolving it
    reads that output from the party's own store, so it succeeds for a party that
    holds the producing transaction and fails for one that does not. */
module Pointers {
  import opened States
  import opened Transactions

  /** A recorded transaction, as far as resolution needs it: its outputs. */
  datatype StoredTransaction = StoredTransaction(outputs: seq<ContractState>)

  /** One party's validated transactions, by hash. */
  type Store = map<SecureHash, StoredTransaction>

  /** A state together with the locator of the output that holds it. */
  datatype StateAndRef = StateAndRef(state: ContractState, ref: StateRef)

  /** Why resolution fails: the transaction is not in the store, the index is outside
      its outputs, or the output is not of the class the static pointer expects. */
  datatype ResolveError =
    | TransactionResolution(txhash: SecureHash)
    | IndexOutOfBounds(index: int)
    | ClassCast(expected: StateKind)

  /** Recording a transaction. A hash already held keeps the copy that is held. */
  function Record(store: Store, id: SecureHash, stx: StoredTransaction): (r: Store)
    ensures r.Keys == store.Keys + {id}
    ensures id in store ==> r[id] == store[id]
    ensures id !in store ==> r[id] == stx
    ensures forall h :: h in store ==> r[h] == store[h]
  {
    if id in store then store else store[id := stx]
  }

  /** `outRef(index)` of a transaction: the output at that index with its locator. */
  function OutRef(id: SecureHash, stx: StoredTransaction, index: nat): StateAndRef
    requires index < |stx.outputs|
  {
    StateAndRef(stx.outputs[index], StateRef(id, index))
  }

  /** `StaticPointer(ref, class)` built from an output reference and its state's class. */
  function PointerTo(sr: StateAndRef): StaticPointer
  {
    StaticPointer(sr.ref, KindOf(sr.state))
  }

  /** `StaticPointer.resolve`: look the transaction up, take the output at the index,
      check its class. The result carries the static pointer's own locator. */
  function Resolve(ptr: StaticPointer, store: Store): (r: Result<StateAndRef, ResolveError>)
    ensures r.Ok? ==> r.value.ref == ptr.pointer && KindOf(r.value.state) == ptr.kind
    ensures r.Ok? ==>
              && ptr.pointer.txhash in store
              && 0 <= ptr.pointer.index < |store[ptr.pointer.txhash].outputs|
              && r.value.state == store[ptr.pointer.txhash].outputs[ptr.pointer.index]
  {
    var h := ptr.pointer.txhash;
    var i := ptr.pointer.index;
    if h !in store then Err(TransactionResolution(h))
    else if !(0 <= i < |store[h].outputs|) then Err(IndexOutOfBounds(i))
    else if KindOf(store[h].outputs[i]) != ptr.kind then Err(ClassCast(ptr.kind))
    else Ok(StateAndRef(store[h].outputs[i], ptr.pointer))
  }

  /** `productPointer.resolve(services).state.data`: the Product a static pointer refers to. */
  function ResolveProduct(ptr: ProductPointer, store: Store): (r: Result<Product, ResolveError>)
    ensures r.Ok? <==> Resolve(ptr, store).Ok?
    ensures r.Ok? ==> Resolve(ptr, store).value == StateAndRef(ProductState(r.value), ptr.pointer)
    ensures r.Err? ==> r.error == Resolve(ptr, store).error
  {
    match Resolve(ptr, store)
    case Err(e) => Err(e)
    case Ok(sr) => Ok(sr.state.product)
  }

  /** Round trip: a static pointer built from an output of a held transaction resolves to
      that very output and locator. */
  lemma ResolveOutRef(store: Store, id: SecureHash, index: nat)
    requires id in store && index < |store[id].outputs|
    ensures Resolve(PointerTo(OutRef(id, store[id], index)), store) == Ok(OutRef(id, store[id], index))
  {
  }

  /** A store without the producing transaction fails with a resolution error naming
      that transaction, and with no other error. */
  lemma ResolveMissing(ptr: StaticPointer, store: Store)
    requires ptr.pointer.txhash !in store
    ensures Resolve(ptr, store) == Err(TransactionResolution(ptr.pointer.txhash))
  {
  }

  /** Resolution reads only the producing transaction: two stores holding the same copy
      of it resolve a static pointer alike, whatever else each holds. */
  lemma ResolveDependsOnlyOnSource(ptr: StaticPointer, s1: Store, s2: Store)
    requires ptr.pointer.txhash in s1 && ptr.pointer.txhash in s2
    requires s1[ptr.pointer.txhash] == s2[ptr.pointer.txhash]
    ensures Resolve(ptr, s1) == Resolve(ptr, s2)
  {
  }

  /** Recording other transactions, such as a later version of the product, does not
      change what a pointer resolves to: it stays fixed to its historical output. */
  lemma ResolveUnaffectedByLaterRecords(ptr: StaticPointer, store: Store, id: SecureHash, stx: StoredTransaction)
    requires id != ptr.pointer.txhash
    ensures Resolve(ptr, Record(store, id, stx)) == Resolve(ptr, store)
  {
  }

  /** Once a party records the producing transaction it lacked, a static pointer resolves in
      its store exactly as in the store of a party that held that transaction. */
  lemma ResolveAfterReceiving(ptr: StaticPointer, mine: Store, theirs: Store)
    requires ptr.pointer.txhash !in mine && ptr.pointer.txhash in theirs
    ensures Resolve(ptr, Record(mine, ptr.pointer.txhash, theirs[ptr.pointer.txhash])) == Resolve(ptr, theirs)
  {
    ResolveDependsOnlyOnSource(ptr, Record(mine, ptr.pointer.txhash, theirs[ptr.pointer.txhash]), theirs);
  }

  /** Stores only grow: a pointer resolved in a store resolves the same way in any store
      that holds everything the first one holds. */
  lemma ResolveMonotonic(ptr: StaticPointer, s1: Store, s2: Store)
    requires forall h :: h in s1 ==> h in s2 && s2[h] == s1[h]
    requires Resolve(ptr, s1).Ok?
    ensures Resolve(ptr, s2) == Resolve(ptr, s1)
  {
    ResolveDependsOnlyOnSource(ptr, s1, s2);
  }
}
