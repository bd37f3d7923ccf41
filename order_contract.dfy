/** The rule a transaction must obey to create an Order: exactly one OrderContract
    Create command, exactly one Order among the outputs, then no inputs, a single
    output, and the signatures of every participant of that Order. The Order's
    product pointer is never inspected. */
module OrderContract {
  import opened States
  import opened Transactions

  const NoInputOnOrder := "No input should be consumed when creating an order."
  const OneOutput := "Only one output state should be created."
  const AllSigners := "All of the participants must be signers."

  /** The OrderContract Create commands among a transaction's commands, in order. */
  function CreateCommands(cmds: seq<Command>): (r: seq<Command>)
    ensures |r| <= |cmds|
    ensures forall c :: c in r <==> c in cmds && c.value == OrderCreate
  {
    if cmds == [] then []
    else (if cmds[0].value == OrderCreate then [cmds[0]] else []) + CreateCommands(cmds[1..])
  }

  /** The filter keeps every Create command in its place and with its multiplicity, so
      `requireSingleCommand` counts each of them. */
  lemma {:induction false} CreateCommandsAppend(a: seq<Command>, b: seq<Command>)
    ensures CreateCommands(a + b) == CreateCommands(a) + CreateCommands(b)
  {
    if a == [] {
      assert a + b == b;
    } else {
      assert (a + b)[1..] == a[1..] + b;
      CreateCommandsAppend(a[1..], b);
    }
  }

  /** The filter sees exactly the one command of a one-command list. */
  lemma CreateCommandsSingleton(c: Command)
    ensures CreateCommands([c]) == if c.value == OrderCreate then [c] else []
  {
    assert [c][1..] == [];
  }

  /** `requireSingleCommand<Commands.Create>()`: the one Create command; no such
      command and more than one are distinct failures. */
  function RequireSingleCommand(cmds: seq<Command>): Result<Command, ContractError>
  {
    match Single(CreateCommands(cmds))
    case Err(EmptyList) => Err(MissingCommand)
    case other => other
  }

  /** The clauses checked once the command and the one Order output are known. */
  function CreateRequirements(tx: LedgerTransaction, command: Command, output: Order): seq<Requirement>
  {
    [ Requirement(NoInputOnOrder, |tx.inputs| == 0),
      Requirement(OneOutput, |tx.outputs| == 1),
      Requirement(AllSigners, Covers(SignerSet(command.signers), output.participants))]
  }

  /** OrderContract.verify. */
  function Verify(tx: LedgerTransaction): Verdict
  {
    match RequireSingleCommand(tx.commands)
    case Err(e) => Reject(e)
    case Ok(command) =>
      match Single(OrdersOf(tx.outputs))
      case Err(e) => Reject(e)
      case Ok(output) => RequireThat(CreateRequirements(tx, command, output))
  }

  /** Reference definition: one Create command, no inputs, a single output that is an
      Order, and every participant of that Order among the command's signers. */
  predicate CreateValid(tx: LedgerTransaction)
  {
    var cmds := CreateCommands(tx.commands);
    && |cmds| == 1
    && |tx.inputs| == 0
    && |tx.outputs| == 1
    && tx.outputs[0].OrderState?
    && Covers(SignerSet(cmds[0].signers), tx.outputs[0].order.participants)
  }

  lemma VerifyAccepts(tx: LedgerTransaction)
    ensures Verify(tx) == Accept <==> CreateValid(tx)
  {
    var cmds := CreateCommands(tx.commands);
    if |cmds| == 1 && |OrdersOf(tx.outputs)| == 1 {
      var o := OrdersOf(tx.outputs)[0];
      var reqs := CreateRequirements(tx, cmds[0], o);
      assert Verify(tx) == RequireThat(reqs);
      assert (forall i :: 0 <= i < |reqs| ==> reqs[i].holds)
        <==> reqs[0].holds && reqs[1].holds && reqs[2].holds;
      if |tx.outputs| == 1 {
        assert tx.outputs == [tx.outputs[0]];
        OfTypeSingleton(tx.outputs[0]);
      }
    } else if |tx.outputs| == 1 {
      assert tx.outputs == [tx.outputs[0]];
      OfTypeSingleton(tx.outputs[0]);
    }
  }

  /** The command is looked for first: with no Create command, or with several, the
      transaction fails before any of its states is examined. */
  lemma CommandRequired(tx: LedgerTransaction)
    ensures |CreateCommands(tx.commands)| == 0 ==> Verify(tx) == Reject(MissingCommand)
    ensures |CreateCommands(tx.commands)| > 1 ==> Verify(tx) == Reject(MoreThanOneElement)
  {
  }

  /** Then exactly one Order must be among the outputs; zero or several fail on that,
      whatever the inputs and the output count. */
  lemma SingleOrderOutputFirst(tx: LedgerTransaction)
    requires |CreateCommands(tx.commands)| == 1
    ensures |OrdersOf(tx.outputs)| == 0 ==> Verify(tx) == Reject(EmptyList)
    ensures |OrdersOf(tx.outputs)| > 1 ==> Verify(tx) == Reject(MoreThanOneElement)
  {
  }

  /** With one command and one Order output, the clauses follow in source order: no
      inputs, one output in all, every participant signed. */
  lemma CreateRejections(tx: LedgerTransaction, o: Order)
    requires |CreateCommands(tx.commands)| == 1 && OrdersOf(tx.outputs) == [o]
    ensures |tx.inputs| > 0 ==>
      Verify(tx) == Reject(FailedRequirement(NoInputOnOrder))
    ensures |tx.inputs| == 0 && |tx.outputs| != 1 ==>
      Verify(tx) == Reject(FailedRequirement(OneOutput))
    ensures |tx.inputs| == 0 && |tx.outputs| == 1 && !Covers(SignerSet(CreateCommands(tx.commands)[0].signers), o.participants) ==>
      Verify(tx) == Reject(FailedRequirement(AllSigners))
  {
    var reqs := CreateRequirements(tx, CreateCommands(tx.commands)[0], o);
    assert Verify(tx) == RequireThat(reqs);
    assert reqs[0].message == NoInputOnOrder && reqs[1].message == OneOutput && reqs[2].message == AllSigners;
  }

  /** An Order with the default participant list is accepted, when created alone by a
      single Create command, exactly when both consumer and product owner signed. */
  lemma DefaultOrderSigners(consumer: Party, productOwner: Party, pointer: ProductPointer, signers: seq<PublicKey>)
    ensures Verify(LedgerTransaction([], [OrderState(NewOrder(consumer, productOwner, pointer))], [Command(OrderCreate, signers)]))
            == Accept
            <==> consumer.owningKey in signers && productOwner.owningKey in signers
  {
    var tx := LedgerTransaction([], [OrderState(NewOrder(consumer, productOwner, pointer))], [Command(OrderCreate, signers)]);
    assert CreateCommands(tx.commands) == [Command(OrderCreate, signers)] by {
      assert tx.commands[1..] == [];
    }
    VerifyAccepts(tx);
    var ps := NewOrder(consumer, productOwner, pointer).participants;
    assert ps[0] == consumer && ps[1] == productOwner;
  }

  /** No clause looks at the product pointer: an Order pointing anywhere else gets the
      same verdict. */
  lemma VerdictIgnoresPointer(tx: LedgerTransaction, o: Order, pointer: ProductPointer)
    requires tx.outputs == [OrderState(o)]
    ensures Verify(tx.(outputs := [OrderState(o.(productPointer := pointer))])) == Verify(tx)
  {
    var tx' := tx.(outputs := [OrderState(o.(productPointer := pointer))]);
    OfTypeSingleton(OrderState(o));
    OfTypeSingleton(OrderState(o.(productPointer := pointer)));
    if |CreateCommands(tx.commands)| == 1 {
      var c := CreateCommands(tx.commands)[0];
      assert CreateRequirements(tx', c, o.(productPointer := pointer)) == CreateRequirements(tx, c, o);
    }
  }
}
