/** The rules a transaction must obey to create a Product or to update its price.
    Every ProductContract command in the transaction is checked against its rule;
    each rule is a requireThat block whose first false clause decides the error. */
module ProductContract {
  import opened States
  import opened Transactions

  const NoInputsOnCreate := "No inputs should be consumed when creating a product."
  const OneOutput := "Only one output state should be created."
  const AllSigners := "All of the participants must be signers."
  const PricePositive := "Product's value must be non-negative."
  const NameNonEmpty := "Product's name must be non-empty."
  const CompanyNonEmpty := "Product's company must be non-empty."
  const OneInputOnUpdate := "Only one input should be consumed when updating a product."
  const PriceChanged := "Product's price in the input and output shouldn't be the same."
  const SameName := "Product's name must be the same in input and output."
  const SameCompany := "Product's company must be the same in input and output."

  // ---------------------------------------------------------------------------
  // The rules, in source order
  // ---------------------------------------------------------------------------

  /** The Create rule. */
  function VerifyCreate(tx: LedgerTransaction, signers: set<PublicKey>): Verdict
  {
    var structure := RequireThat([
      Requirement(NoInputsOnCreate, |tx.inputs| == 0),
      Requirement(OneOutput, |tx.outputs| == 1)]);
    if structure.Reject? then structure
    else
      match Single(ProductsOf(tx.outputs))
      case Err(e) => Reject(e)
      case Ok(output) => RequireThat(CreateFieldRequirements(signers, output))
  }

  /** The Create clauses checked once the one output is known to be a Product. */
  function CreateFieldRequirements(signers: set<PublicKey>, output: Product): seq<Requirement>
  {
    [ Requirement(AllSigners, Covers(signers, output.participants)),
      Requirement(PricePositive, output.price > 0.0),
      Requirement(NameNonEmpty, |output.name| > 0),
      Requirement(CompanyNonEmpty, |output.company| > 0)]
  }

  /** The UpdatePrice rule. */
  function VerifyUpdatePrice(tx: LedgerTransaction, signers: set<PublicKey>): Verdict
  {
    var structure := RequireThat([
      Requirement(OneInputOnUpdate, |tx.inputs| == 1),
      Requirement(OneOutput, |tx.outputs| == 1)]);
    if structure.Reject? then structure
    else
      match Single(ProductsOf(tx.inputs))
      case Err(e) => Reject(e)
      case Ok(input) =>
        match Single(ProductsOf(tx.outputs))
        case Err(e) => Reject(e)
        case Ok(output) => RequireThat(UpdateFieldRequirements(signers, input, output))
  }

  /** The UpdatePrice clauses checked once one Product comes in and one goes out. */
  function UpdateFieldRequirements(signers: set<PublicKey>, i: Product, o: Product): seq<Requirement>
  {
    [ Requirement(AllSigners, Covers(signers, o.participants)),
      Requirement(PricePositive, o.price > 0.0),
      Requirement(PriceChanged, i.price != o.price),
      Requirement(SameName, i.name == o.name),
      Requirement(SameCompany, i.company == o.company)]
  }

  /** The rule a command is dispatched to, with its signers as a set. */
  function VerifyCommand(tx: LedgerTransaction, c: Command): Verdict
  {
    var signers := SignerSet(c.signers);
    match c.value
    case ProductCreate => VerifyCreate(tx, signers)
    case ProductUpdatePrice => VerifyUpdatePrice(tx, signers)
    case _ => Reject(UnrecognisedCommand)
  }

  /** `commandsOfType<ProductContract.Commands>()`: the ProductContract commands, in order. */
  function ProductCommands(cmds: seq<Command>): (r: seq<Command>)
    ensures forall c :: c in r <==> c in cmds && c.value.IsProductCommand()
  {
    if cmds == [] then []
    else (if cmds[0].value.IsProductCommand() then [cmds[0]] else []) + ProductCommands(cmds[1..])
  }

  /** The command filter keeps every ProductContract command in its place and with its
      multiplicity, so the order in which the rules run is the transaction's own. */
  lemma {:induction false} ProductCommandsAppend(a: seq<Command>, b: seq<Command>)
    ensures ProductCommands(a + b) == ProductCommands(a) + ProductCommands(b)
  {
    if a == [] {
      assert a + b == b;
    } else {
      assert (a + b)[1..] == a[1..] + b;
      ProductCommandsAppend(a[1..], b);
    }
  }

  /** The filter sees exactly the one command of a one-command list. */
  lemma ProductCommandsSingleton(c: Command)
    ensures ProductCommands([c]) == if c.value.IsProductCommand() then [c] else []
  {
    assert [c][1..] == [];
  }

  /** Each command checked in turn; the first one whose rule throws ends verification. */
  function VerifyAll(tx: LedgerTransaction, cmds: seq<Command>): Verdict
  {
    if cmds == [] then Accept
    else
      var v := VerifyCommand(tx, cmds[0]);
      if v.Reject? then v else VerifyAll(tx, cmds[1..])
  }

  /** ProductContract.verify. */
  function Verify(tx: LedgerTransaction): Verdict
  {
    VerifyAll(tx, ProductCommands(tx.commands))
  }

  // ---------------------------------------------------------------------------
  // Reference definitions: what each rule accepts, stated as one conjunction
  // ---------------------------------------------------------------------------

  /** No inputs, one output, that output a Product signed by all its participants,
      with a positive price and a non-empty name and company. */
  predicate CreateValid(tx: LedgerTransaction, signers: set<PublicKey>)
  {
    && |tx.inputs| == 0
    && |tx.outputs| == 1
    && tx.outputs[0].ProductState?
    && var p := tx.outputs[0].product;
       Covers(signers, p.participants) && p.price > 0.0 && |p.name| > 0 && |p.company| > 0
  }

  /** One Product in, one Product out, the output signed by all its participants,
      with a positive and different price and the same name and company. */
  predicate UpdateValid(tx: LedgerTransaction, signers: set<PublicKey>)
  {
    && |tx.inputs| == 1
    && |tx.outputs| == 1
    && tx.inputs[0].ProductState?
    && tx.outputs[0].ProductState?
    && var i, o := tx.inputs[0].product, tx.outputs[0].product;
       && Covers(signers, o.participants)
       && o.price > 0.0
       && i.price != o.price
       && i.name == o.name
       && i.company == o.company
  }

  /** What a single command demands of the transaction. */
  predicate CommandValid(tx: LedgerTransaction, c: Command)
  {
    match c.value
    case ProductCreate => CreateValid(tx, SignerSet(c.signers))
    case ProductUpdatePrice => UpdateValid(tx, SignerSet(c.signers))
    case _ => false
  }

  // ---------------------------------------------------------------------------
  // Create
  // ---------------------------------------------------------------------------

  lemma CreateFieldStage(tx: LedgerTransaction, signers: set<PublicKey>, p: Product)
    requires |tx.inputs| == 0 && tx.outputs == [ProductState(p)]
    ensures VerifyCreate(tx, signers) == RequireThat(CreateFieldRequirements(signers, p))
  {
    OfTypeSingleton(ProductState(p));
    var structure := [
      Requirement(NoInputsOnCreate, |tx.inputs| == 0),
      Requirement(OneOutput, |tx.outputs| == 1)];
    assert structure[0].holds && structure[1].holds;
  }

  lemma VerifyCreateAccepts(tx: LedgerTransaction, signers: set<PublicKey>)
    ensures VerifyCreate(tx, signers) == Accept <==> CreateValid(tx, signers)
  {
    CreateStructureRejections(tx, signers);
    if |tx.inputs| == 0 && |tx.outputs| == 1 && tx.outputs[0].ProductState? {
      var p := tx.outputs[0].product;
      assert tx.outputs == [ProductState(p)];
      CreateFieldStage(tx, signers, p);
      var fields := CreateFieldRequirements(signers, p);
      assert (forall i :: 0 <= i < |fields| ==> fields[i].holds)
        <==> fields[0].holds && fields[1].holds && fields[2].holds && fields[3].holds;
    }
  }

  /** The structural clauses come first: an input of any kind, or a number of outputs
      other than one, decides the error whatever the output holds. */
  lemma CreateStructureRejections(tx: LedgerTransaction, signers: set<PublicKey>)
    ensures |tx.inputs| > 0 ==>
      VerifyCreate(tx, signers) == Reject(FailedRequirement(NoInputsOnCreate))
    ensures |tx.inputs| == 0 && |tx.outputs| != 1 ==>
      VerifyCreate(tx, signers) == Reject(FailedRequirement(OneOutput))
    ensures |tx.inputs| == 0 && |tx.outputs| == 1 && !tx.outputs[0].ProductState? ==>
      VerifyCreate(tx, signers) == Reject(EmptyList)
  {
    var structure := [
      Requirement(NoInputsOnCreate, |tx.inputs| == 0),
      Requirement(OneOutput, |tx.outputs| == 1)];
    assert structure[0].message == NoInputsOnCreate && structure[1].message == OneOutput;
    if |tx.inputs| == 0 && |tx.outputs| == 1 {
      assert tx.outputs == [tx.outputs[0]];
      OfTypeSingleton(tx.outputs[0]);
    }
  }

  /** With the structure right, the signer clause comes next, then price, name and
      company, each reached only when all before it hold. */
  lemma CreateFieldRejections(tx: LedgerTransaction, signers: set<PublicKey>, p: Product)
    requires |tx.inputs| == 0 && tx.outputs == [ProductState(p)]
    ensures !Covers(signers, p.participants) ==>
      VerifyCreate(tx, signers) == Reject(FailedRequirement(AllSigners))
    ensures Covers(signers, p.participants) && p.price <= 0.0 ==>
      VerifyCreate(tx, signers) == Reject(FailedRequirement(PricePositive))
    ensures Covers(signers, p.participants) && p.price > 0.0 && |p.name| == 0 ==>
      VerifyCreate(tx, signers) == Reject(FailedRequirement(NameNonEmpty))
    ensures Covers(signers, p.participants) && p.price > 0.0 && |p.name| > 0 && |p.company| == 0 ==>
      VerifyCreate(tx, signers) == Reject(FailedRequirement(CompanyNonEmpty))
  {
    CreateFieldStage(tx, signers, p);
    var fields := CreateFieldRequirements(signers, p);
    assert fields[0].message == AllSigners && fields[1].message == PricePositive;
    assert fields[2].message == NameNonEmpty && fields[3].message == CompanyNonEmpty;
  }

  /** The signer clause follows the output's participant list, not its owner: two
      Products that differ only in owner and linear identifier get the same verdict. */
  lemma CreateIgnoresOwner(tx: LedgerTransaction, signers: set<PublicKey>, p: Product, q: Product)
    requires tx.outputs == [ProductState(p)]
    requires q.name == p.name && q.company == p.company && q.price == p.price
    requires q.participants == p.participants
    ensures VerifyCreate(tx.(outputs := [ProductState(q)]), signers) == VerifyCreate(tx, signers)
  {
    if |tx.inputs| == 0 {
      CreateFieldStage(tx, signers, p);
      CreateFieldStage(tx.(outputs := [ProductState(q)]), signers, q);
      assert CreateFieldRequirements(signers, q) == CreateFieldRequirements(signers, p);
    } else {
      CreateStructureRejections(tx, signers);
      CreateStructureRejections(tx.(outputs := [ProductState(q)]), signers);
    }
  }

  /** A Product with the default participant list needs exactly its owner's signature. */
  lemma DefaultProductSigners(name: string, company: string, price: real, owner: Party,
                              linearId: UniqueIdentifier, signers: set<PublicKey>)
    ensures Covers(signers, NewProduct(name, company, price, owner, linearId).participants)
            <==> owner.owningKey in signers
  {
    var p := NewProduct(name, company, price, owner, linearId);
    assert p.participants[0] == owner;
  }

  /** A well-formed default Product, created alone and signed by its owner, is accepted. */
  lemma CreateDefaultProductAccepted(name: string, company: string, price: real, owner: Party,
                                     linearId: UniqueIdentifier, commands: seq<Command>)
    requires |name| > 0 && |company| > 0 && price > 0.0
    ensures VerifyCreate(LedgerTransaction([], [ProductState(NewProduct(name, company, price, owner, linearId))], commands),
                         {owner.owningKey}) == Accept
  {
    var tx := LedgerTransaction([], [ProductState(NewProduct(name, company, price, owner, linearId))], commands);
    DefaultProductSigners(name, company, price, owner, linearId, {owner.owningKey});
    VerifyCreateAccepts(tx, {owner.owningKey});
  }

  // ---------------------------------------------------------------------------
  // UpdatePrice
  // ---------------------------------------------------------------------------

  lemma UpdateFieldStage(tx: LedgerTransaction, signers: set<PublicKey>, i: Product, o: Product)
    requires tx.inputs == [ProductState(i)] && tx.outputs == [ProductState(o)]
    ensures VerifyUpdatePrice(tx, signers) == RequireThat(UpdateFieldRequirements(signers, i, o))
  {
    OfTypeSingleton(ProductState(i));
    OfTypeSingleton(ProductState(o));
    var structure := [
      Requirement(OneInputOnUpdate, |tx.inputs| == 1),
      Requirement(OneOutput, |tx.outputs| == 1)];
    assert structure[0].holds && structure[1].holds;
  }

  lemma VerifyUpdatePriceAccepts(tx: LedgerTransaction, signers: set<PublicKey>)
    ensures VerifyUpdatePrice(tx, signers) == Accept <==> UpdateValid(tx, signers)
  {
    UpdateStructureRejections(tx, signers);
    if |tx.inputs| == 1 && |tx.outputs| == 1 && tx.inputs[0].ProductState? && tx.outputs[0].ProductState? {
      var i, o := tx.inputs[0].product, tx.outputs[0].product;
      assert tx.inputs == [ProductState(i)] && tx.outputs == [ProductState(o)];
      UpdateFieldStage(tx, signers, i, o);
      var fields := UpdateFieldRequirements(signers, i, o);
      assert (forall k :: 0 <= k < |fields| ==> fields[k].holds)
        <==> fields[0].holds && fields[1].holds && fields[2].holds && fields[3].holds && fields[4].holds;
    }
  }

  /** Input count, then output count, then the input's type, then the output's type. */
  lemma UpdateStructureRejections(tx: LedgerTransaction, signers: set<PublicKey>)
    ensures |tx.inputs| != 1 ==>
      VerifyUpdatePrice(tx, signers) == Reject(FailedRequirement(OneInputOnUpdate))
    ensures |tx.inputs| == 1 && |tx.outputs| != 1 ==>
      VerifyUpdatePrice(tx, signers) == Reject(FailedRequirement(OneOutput))
    ensures |tx.inputs| == 1 && |tx.outputs| == 1 && (!tx.inputs[0].ProductState? || !tx.outputs[0].ProductState?) ==>
      VerifyUpdatePrice(tx, signers) == Reject(EmptyList)
  {
    var structure := [
      Requirement(OneInputOnUpdate, |tx.inputs| == 1),
      Requirement(OneOutput, |tx.outputs| == 1)];
    assert structure[0].message == OneInputOnUpdate && structure[1].message == OneOutput;
    if |tx.inputs| == 1 && |tx.outputs| == 1 {
      assert tx.inputs == [tx.inputs[0]];
      assert tx.outputs == [tx.outputs[0]];
      OfTypeSingleton(tx.inputs[0]);
      OfTypeSingleton(tx.outputs[0]);
    }
  }

  /** With one Product in and one out, the clauses are tried in source order: signers,
      positive price, changed price, same name, same company. */
  lemma UpdateFieldRejections(tx: LedgerTransaction, signers: set<PublicKey>, i: Product, o: Product)
    requires tx.inputs == [ProductState(i)] && tx.outputs == [ProductState(o)]
    ensures !Covers(signers, o.participants) ==>
      VerifyUpdatePrice(tx, signers) == Reject(FailedRequirement(AllSigners))
    ensures Covers(signers, o.participants) && o.price <= 0.0 ==>
      VerifyUpdatePrice(tx, signers) == Reject(FailedRequirement(PricePositive))
    ensures Covers(signers, o.participants) && o.price > 0.0 && i.price == o.price ==>
      VerifyUpdatePrice(tx, signers) == Reject(FailedRequirement(PriceChanged))
    ensures Covers(signers, o.participants) && o.price > 0.0 && i.price != o.price && i.name != o.name ==>
      VerifyUpdatePrice(tx, signers) == Reject(FailedRequirement(SameName))
    ensures Covers(signers, o.participants) && o.price > 0.0 && i.price != o.price && i.name == o.name
            && i.company != o.company ==>
      VerifyUpdatePrice(tx, signers) == Reject(FailedRequirement(SameCompany))
  {
    UpdateFieldStage(tx, signers, i, o);
    var fields := UpdateFieldRequirements(signers, i, o);
    assert fields[0].message == AllSigners && fields[1].message == PricePositive;
    assert fields[2].message == PriceChanged && fields[3].message == SameName;
    assert fields[4].message == SameCompany;
  }

  /** Owner and linear identifier are never compared: the verdict depends on the input
      only through its name, company and price, and on the output only through those
      and its participants. In particular the input's owner need not sign. */
  lemma UpdateIgnoresOwnerAndId(tx: LedgerTransaction, signers: set<PublicKey>,
                                i: Product, o: Product, i': Product, o': Product)
    requires tx.inputs == [ProductState(i)] && tx.outputs == [ProductState(o)]
    requires i'.name == i.name && i'.company == i.company && i'.price == i.price
    requires o'.name == o.name && o'.company == o.company && o'.price == o.price
    requires o'.participants == o.participants
    ensures VerifyUpdatePrice(tx.(inputs := [ProductState(i')], outputs := [ProductState(o')]), signers)
            == VerifyUpdatePrice(tx, signers)
  {
    UpdateFieldStage(tx, signers, i, o);
    UpdateFieldStage(tx.(inputs := [ProductState(i')], outputs := [ProductState(o')]), signers, i', o');
    assert UpdateFieldRequirements(signers, i', o') == UpdateFieldRequirements(signers, i, o);
  }

  /** An accepted update yields a new version of the input: same name and company,
      a different positive price. */
  lemma AcceptedUpdateIsNewVersion(tx: LedgerTransaction, signers: set<PublicKey>)
    requires VerifyUpdatePrice(tx, signers) == Accept
    ensures tx.inputs[0].ProductState? && tx.outputs[0].ProductState?
    ensures var i, o := tx.inputs[0].product, tx.outputs[0].product;
      o == i.(price := o.price, owner := o.owner, linearId := o.linearId, participants := o.participants)
      && o.price != i.price && o.price > 0.0
  {
    VerifyUpdatePriceAccepts(tx, signers);
  }

  // ---------------------------------------------------------------------------
  // Dispatch over all commands
  // ---------------------------------------------------------------------------

  lemma VerifyCommandAccepts(tx: LedgerTransaction, c: Command)
    ensures VerifyCommand(tx, c) == Accept <==> CommandValid(tx, c)
  {
    VerifyCreateAccepts(tx, SignerSet(c.signers));
    VerifyUpdatePriceAccepts(tx, SignerSet(c.signers));
  }

  lemma {:induction false} VerifyAllAccepts(tx: LedgerTransaction, cmds: seq<Command>)
    ensures VerifyAll(tx, cmds) == Accept <==> forall c :: c in cmds ==> CommandValid(tx, c)
    decreases |cmds|
  {
    if cmds != [] {
      VerifyCommandAccepts(tx, cmds[0]);
      VerifyAllAccepts(tx, cmds[1..]);
      assert forall c :: c in cmds <==> c == cmds[0] || c in cmds[1..];
    }
  }

  /** A transaction verifies exactly when every ProductContract command in it meets its
      rule. Commands of other contracts are ignored, and with no ProductContract
      command at all the transaction verifies, whatever its Product states hold. */
  lemma VerifyAccepts(tx: LedgerTransaction)
    ensures Verify(tx) == Accept <==>
      forall c :: c in tx.commands && c.value.IsProductCommand() ==> CommandValid(tx, c)
  {
    VerifyAllAccepts(tx, ProductCommands(tx.commands));
  }

  /** The rules are tried command by command: the first command whose rule fails
      decides the error. */
  lemma {:induction false} FirstFailingCommandDecides(tx: LedgerTransaction, cmds: seq<Command>, k: nat)
    requires k < |cmds|
    requires forall j :: 0 <= j < k ==> VerifyCommand(tx, cmds[j]) == Accept
    requires VerifyCommand(tx, cmds[k]).Reject?
    ensures VerifyAll(tx, cmds) == VerifyCommand(tx, cmds[k])
    decreases k
  {
    if k > 0 {
      assert forall j :: 0 <= j < k - 1 ==> cmds[1..][j] == cmds[j + 1];
      FirstFailingCommandDecides(tx, cmds[1..], k - 1);
    }
  }

  /** A first ProductContract command of an unknown class is a fatal error. */
  lemma UnrecognisedFirstCommand(tx: LedgerTransaction)
    requires |ProductCommands(tx.commands)| > 0
    requires ProductCommands(tx.commands)[0].value.ProductOther?
    ensures Verify(tx) == Reject(UnrecognisedCommand)
  {
    FirstFailingCommandDecides(tx, ProductCommands(tx.commands), 0);
  }

  /** No transaction carrying both a Create and an UpdatePrice verifies: one demands no
      inputs, the other exactly one. */
  lemma CreateAndUpdateExclusive(tx: LedgerTransaction, c: Command, u: Command)
    requires c in tx.commands && c.value == ProductCreate
    requires u in tx.commands && u.value == ProductUpdatePrice
    ensures Verify(tx).Reject?
  {
    VerifyAccepts(tx);
  }
}
