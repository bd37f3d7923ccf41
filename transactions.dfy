/** The view of a transaction that a contract's verify function receives, the
    verdict it returns, and the platform helpers the contracts call: requireThat
    blocks of `using` clauses, `single()` on a list, and the typed filters over
    inputs and outputs. */
module Transactions {
  import opened States

  datatype Result<+T, +E> = Ok(value: T) | Err(error: E)

  /** Command payloads. ProductOther stands for any further class implementing
      ProductContract.Commands besides Create and UpdatePrice; ForeignCommand for
      the commands of any contract other than the two modelled here. */
  datatype CommandData =
    | ProductCreate
    | ProductUpdatePrice
    | ProductOther(className: string)
    | OrderCreate
    | ForeignCommand(className: string)
  {
    /** Whether the payload is a ProductContract.Commands. */
    predicate IsProductCommand()
    {
      ProductCreate? || ProductUpdatePrice? || ProductOther?
    }
  }

  /** A command with the keys that signed it, in the order they were given. */
  datatype Command = Command(value: CommandData, signers: seq<PublicKey>)

  /** A resolved transaction: the states it consumes, the states it creates, its commands. */
  datatype LedgerTransaction = LedgerTransaction(
    inputs: seq<ContractState>,
    outputs: seq<ContractState>,
    commands: seq<Command>)

  /** The exception a verify function ends with.
      FailedRequirement: a `using` clause was false (IllegalArgumentException).
      EmptyList, MoreThanOneElement: `single()` on a list of the wrong length.
      MissingCommand: `requireSingleCommand` found no command of the wanted class.
      UnrecognisedCommand: the "Unrecognised command." dispatch failure. */
  datatype ContractError =
    | FailedRequirement(message: string)
    | EmptyList
    | MoreThanOneElement
    | MissingCommand
    | UnrecognisedCommand

  /** Verification either returns normally or throws the first error it meets. */
  datatype Verdict = Accept | Reject(error: ContractError)

  /** One `"message" using (condition)` clause of a requireThat block. */
  datatype Requirement = Requirement(message: string, holds: bool)

  /** A requireThat block: the clauses are evaluated in order and the first false one
      throws with its message. It passes exactly when every clause holds, and
      otherwise fails with the message of the first clause that does not. */
  function RequireThat(reqs: seq<Requirement>): (r: Verdict)
    ensures r == Accept <==> forall i :: 0 <= i < |reqs| ==> reqs[i].holds
    ensures forall k :: 0 <= k < |reqs| && !reqs[k].holds && (forall j :: 0 <= j < k ==> reqs[j].holds) ==>
      r == Reject(FailedRequirement(reqs[k].message))
  {
    if reqs == [] then Accept
    else if !reqs[0].holds then Reject(FailedRequirement(reqs[0].message))
    else
      var rest := RequireThat(reqs[1..]);
      assert forall i :: 1 <= i < |reqs| ==> reqs[i] == reqs[1..][i - 1];
      rest
  }

  /** Kotlin's `single()`: the one element of a list of length one. */
  function Single<T>(xs: seq<T>): Result<T, ContractError>
  {
    if |xs| == 0 then Err(EmptyList)
    else if |xs| > 1 then Err(MoreThanOneElement)
    else Ok(xs[0])
  }

  /** `inputsOfType<Product>()` / `outputsOfType<Product>()`: the Products among the
      states, in their order. */
  function ProductsOf(states: seq<ContractState>): (r: seq<Product>)
    ensures |r| <= |states|
    ensures forall p :: p in r <==> ProductState(p) in states
  {
    if states == [] then []
    else (if states[0].ProductState? then [states[0].product] else []) + ProductsOf(states[1..])
  }

  /** `outputsOfType<Order>()`: the Orders among the states, in their order. */
  function OrdersOf(states: seq<ContractState>): (r: seq<Order>)
    ensures |r| <= |states|
    ensures forall o :: o in r <==> OrderState(o) in states
  {
    if states == [] then []
    else (if states[0].OrderState? then [states[0].order] else []) + OrdersOf(states[1..])
  }

  /** The signer list of a command as a set (`signers.toSet()`). */
  function SignerSet(signers: seq<PublicKey>): set<PublicKey>
  {
    set k | k in signers
  }

  /** `signers.containsAll(participants.map { it.owningKey })`. */
  predicate Covers(signers: set<PublicKey>, participants: seq<Party>)
  {
    forall p :: p in participants ==> p.owningKey in signers
  }

  /** The filters see exactly the one state of a one-state list. */
  lemma OfTypeSingleton(s: ContractState)
    ensures ProductsOf([s]) == if s.ProductState? then [s.product] else []
    ensures OrdersOf([s]) == if s.OrderState? then [s.order] else []
  {
    assert [s][1..] == [];
  }

  /** The Product filter keeps every Product in its place and with its multiplicity:
      filtering a concatenation concatenates the filtered parts. With OfTypeSingleton
      this fixes the result, and so the count `single()` decides by. */
  lemma {:induction false} ProductsOfAppend(a: seq<ContractState>, b: seq<ContractState>)
    ensures ProductsOf(a + b) == ProductsOf(a) + ProductsOf(b)
  {
    if a == [] {
      assert a + b == b;
    } else {
      assert (a + b)[1..] == a[1..] + b;
      ProductsOfAppend(a[1..], b);
    }
  }

  /** The Order filter likewise keeps every Order in its place and with its multiplicity. */
  lemma {:induction false} OrdersOfAppend(a: seq<ContractState>, b: seq<ContractState>)
    ensures OrdersOf(a + b) == OrdersOf(a) + OrdersOf(b)
  {
    if a == [] {
      assert a + b == b;
    } else {
      assert (a + b)[1..] == a[1..] + b;
      OrdersOfAppend(a[1..], b);
    }
  }
}
