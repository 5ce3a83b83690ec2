/**
 * The contract-upgrade agreement. The instigator assembles the canonical
 * upgrade transaction of one state, signs it and proposes it; every other
 * participant independently rebuilds the transaction it expects from its own
 * copy of the state and agrees only if it has accepted an upgrade of the
 * proposed class for that state and the proposal is exactly the transaction
 * it rebuilt. The upgrade goes ahead only if every participant agrees.
 */
module ContractUpgradeFlow {
  import opened Ledger
  import opened TransactionBuilding
  import opened ContractUpgrades
  import opened NodeServices

  /** `ContractUpgradeFlow.Proposal`: which state, which descriptor, and the instigator's signed transaction. */
  datatype Proposal = Proposal(stateRef: StateRef, modification: ContractUpgrade, stx: SignedTransaction)

  /** The outcome the flow reports: the upgraded state, or why the upgrade was refused. */
  datatype ContractUpgradeResponse = Accepted(ref: StateAndRef) | Rejected(reason: FlowError)

  // ---------------------------------------------------------------------------
  // Bare-transaction assembly

  /**
   * The transaction `assembleBareTx` builds, as a value: under the old state's
   * notary, the old state as the one input, its upgrade as the one output and
   * the descriptor's command, to be signed by the old state's participants.
   */
  function BareTx(stateRef: StateAndRef, contractUpgrade: ContractUpgrade): Result<WireTransaction>
  {
    match Upgrade(contractUpgrade, stateRef.state.data)
    case Failure(e) => Failure(e)
    case Success((upgradedState, command)) =>
      Success(WireTransaction(
        [stateRef.ref],
        [TransactionState(upgradedState, stateRef.state.notary)],
        [Command(command, Participants(stateRef.state.data))],
        stateRef.state.notary))
  }

  /**
   * The bare transaction exists exactly for states of the descriptor's legacy
   * contract. It consumes just the given state, produces just its upgrade
   * (a state of the upgraded contract, with the same participants, under the
   * same notary), carries just the descriptor's command signed by the old
   * state's participants, and keeps the consumed state's notary.
   */
  lemma BareTxIsTheCanonicalUpgrade(stateRef: StateAndRef, contractUpgrade: ContractUpgrade)
    ensures BareTx(stateRef, contractUpgrade).Success? <==>
      ContractOf(stateRef.state.data) == LegacyContract(contractUpgrade)
    ensures BareTx(stateRef, contractUpgrade).Failure? ==>
      BareTx(stateRef, contractUpgrade).error == WrongStateType
    ensures BareTx(stateRef, contractUpgrade).Success? ==>
      var tx := BareTx(stateRef, contractUpgrade).value;
      var upgraded := Upgrade(contractUpgrade, stateRef.state.data).value;
      && tx.notary == stateRef.state.notary
      && tx.inputs == [stateRef.ref]
      && tx.outputs == [TransactionState(upgraded.0, stateRef.state.notary)]
      && ContractOf(tx.outputs[0].data) == UpgradedContract(contractUpgrade)
      && Participants(tx.outputs[0].data) == Participants(stateRef.state.data)
      && tx.commands == [Command(upgraded.1, Participants(stateRef.state.data))]
  {
    UpgradeAppliesExactlyToLegacyStates(contractUpgrade, stateRef.state.data);
  }

  /**
   * `assembleBareTx`: a fresh builder for the old state's notary, filled with
   * `withItems(stateRef, upgradedState, command)`. It fails when the descriptor
   * does not fit the state. What it builds is `BareTx`, so two assemblies of
   * the same state and descriptor build the same transaction.
   */
  method AssembleBareTx(stateRef: StateAndRef, contractUpgrade: ContractUpgrade)
    returns (r: Result<TransactionBuilder>)
    ensures r.Failure? ==> BareTx(stateRef, contractUpgrade) == Failure(r.error)
    ensures r.Success? ==>
      && fresh(r.value)
      && BareTx(stateRef, contractUpgrade) == Success(r.value.ToWireTransaction())
      && r.value.signatures == []
  {
    var builder := new TransactionBuilder(stateRef.state.notary);
    var upgrade := Upgrade(contractUpgrade, stateRef.state.data);
    if upgrade.Failure? {
      return Failure(upgrade.error);
    }
    var (upgradedState, command) := upgrade.value;
    builder.WithItems(stateRef, upgradedState, Command(command, Participants(stateRef.state.data)));
    assert builder.ToWireTransaction() == BareTx(stateRef, contractUpgrade).value;
    return Success(builder);
  }

  // ---------------------------------------------------------------------------
  // Instigator

  /** `Instigator.assembleProposal`. */
  function AssembleProposal(stateRef: StateRef, modification: ContractUpgrade, stx: SignedTransaction): Proposal
  {
    Proposal(stateRef, modification, stx)
  }

  /**
   * `Instigator.assembleTx`: the bare transaction signed with the
   * instigator's key, and the original state's participants as the keys
   * whose signatures are required.
   */
  method AssembleTx(originalState: StateAndRef, modification: ContractUpgrade, legalIdentityKey: CompositeKey)
    returns (r: Result<(SignedTransaction, seq<CompositeKey>)>)
    ensures r.Failure? ==> BareTx(originalState, modification) == Failure(r.error)
    ensures r.Success? ==>
      && BareTx(originalState, modification) == Success(r.value.0.tx)
      && r.value.0.sigs == [legalIdentityKey]
      && r.value.1 == Participants(originalState.state.data)
  {
    var assembled := AssembleBareTx(originalState, modification);
    if assembled.Failure? {
      return Failure(assembled.error);
    }
    var builder := assembled.value;
    builder.SignWith(legalIdentityKey);
    return Success((builder.ToSignedTransaction(), Participants(originalState.state.data)));
  }

  /** The proposal the instigator sends for `originalState`, when the bare transaction exists. */
  function InstigatorProposal(originalState: StateAndRef, modification: ContractUpgrade, legalIdentityKey: CompositeKey): Proposal
    requires BareTx(originalState, modification).Success?
  {
    AssembleProposal(originalState.ref, modification,
      SignedTransaction(BareTx(originalState, modification).value, [legalIdentityKey]))
  }

  // ---------------------------------------------------------------------------
  // Acceptor

  /** The local store resolves `ref`: it holds the transaction and that transaction has the output. */
  predicate Resolves(transactions: map<SecureHash, SignedTransaction>, ref: StateRef)
  {
    ref.txhash in transactions && ref.index < |transactions[ref.txhash].tx.outputs|
  }

  /** `stx.tx.outRef(index)`: the locally stored state at `ref`. */
  function LocalState(transactions: map<SecureHash, SignedTransaction>, ref: StateRef): StateAndRef
    requires Resolves(transactions, ref)
  {
    StateAndRef(transactions[ref.txhash].tx.outputs[ref.index], ref)
  }

  /**
   * `Acceptor.verifyProposal`, in the source's order: the referenced
   * transaction must be stored locally, the state is read from it (not from
   * the proposal), an accepted upgrade must be recorded for that state, the
   * expected transaction is rebuilt from the local state, and then the
   * descriptor must be of the accepted class and the proposed transaction
   * must equal the expected one. On success the proposal itself is returned.
   */
  function VerifyProposal(
    transactions: map<SecureHash, SignedTransaction>,
    acceptedUpgrades: map<StateRef, ContractUpgrade>,
    proposal: Proposal): (r: Result<Proposal>)
    ensures r.Success? ==> r.value == proposal
  {
    if proposal.stateRef.txhash !in transactions then Failure(TransactionNotFound)
    else if !Resolves(transactions, proposal.stateRef) then Failure(OutputIndexOutOfRange)
    else
      var state := LocalState(transactions, proposal.stateRef);
      if state.ref !in acceptedUpgrades then Failure(UpgradeUnauthorised)
      else
        var acceptedUpgrade := acceptedUpgrades[state.ref];
        var expectedTx := BareTx(state, proposal.modification);
        if expectedTx.Failure? then Failure(expectedTx.error)
        // descriptors carry no fields, so comparing them compares their classes
        else if proposal.modification != acceptedUpgrade then Failure(UntrustedUpgradePath)
        else if proposal.stx.tx != expectedTx.value then Failure(TransactionMismatch)
        else Success(proposal)
  }

  /**
   * What an acceptor's approval means, stated without its order of checks:
   * there is a state the node itself holds at the proposed reference, the
   * node has accepted an upgrade of the proposed class for it, and the
   * proposed transaction is the canonical upgrade of that state.
   */
  ghost predicate Approvable(
    transactions: map<SecureHash, SignedTransaction>,
    acceptedUpgrades: map<StateRef, ContractUpgrade>,
    proposal: Proposal)
  {
    exists state: StateAndRef ::
      && state.ref == proposal.stateRef
      && state.ref.txhash in transactions
      && state.ref.index < |transactions[state.ref.txhash].tx.outputs|
      && transactions[state.ref.txhash].tx.outputs[state.ref.index] == state.state
      && state.ref in acceptedUpgrades && acceptedUpgrades[state.ref] == proposal.modification
      && BareTx(state, proposal.modification) == Success(proposal.stx.tx)
  }

  /** The acceptor approves a proposal exactly when it is approvable. */
  lemma VerifyProposalApprovesExactlyApprovable(
    transactions: map<SecureHash, SignedTransaction>,
    acceptedUpgrades: map<StateRef, ContractUpgrade>,
    proposal: Proposal)
    ensures VerifyProposal(transactions, acceptedUpgrades, proposal).Success? <==>
      Approvable(transactions, acceptedUpgrades, proposal)
  {
    if VerifyProposal(transactions, acceptedUpgrades, proposal).Success? {
      var state := LocalState(transactions, proposal.stateRef);
    }
    if Approvable(transactions, acceptedUpgrades, proposal) {
      var state: StateAndRef :| && state.ref == proposal.stateRef
                   && state.ref.txhash in transactions
                   && state.ref.index < |transactions[state.ref.txhash].tx.outputs|
                   && transactions[state.ref.txhash].tx.outputs[state.ref.index] == state.state
                   && state.ref in acceptedUpgrades && acceptedUpgrades[state.ref] == proposal.modification
                   && BareTx(state, proposal.modification) == Success(proposal.stx.tx);
      assert state == LocalState(transactions, proposal.stateRef);
    }
  }

  /**
   * An approved proposal carries the canonical upgrade of the acceptor's own
   * copy of the state: its one input is the proposed reference, its one
   * output is the upgrade of the locally stored state, and its command is
   * signed by that state's participants.
   */
  lemma ApprovedTransactionIsRebuiltLocally(
    transactions: map<SecureHash, SignedTransaction>,
    acceptedUpgrades: map<StateRef, ContractUpgrade>,
    proposal: Proposal)
    requires VerifyProposal(transactions, acceptedUpgrades, proposal).Success?
    ensures Resolves(transactions, proposal.stateRef)
    ensures proposal.stateRef in acceptedUpgrades
    ensures acceptedUpgrades[proposal.stateRef] == proposal.modification
    ensures
      var local := LocalState(transactions, proposal.stateRef);
      var upgraded := Upgrade(proposal.modification, local.state.data);
      && upgraded.Success?
      && proposal.stx.tx.inputs == [proposal.stateRef]
      && proposal.stx.tx.outputs == [TransactionState(upgraded.value.0, local.state.notary)]
      && proposal.stx.tx.commands == [Command(upgraded.value.1, Participants(local.state.data))]
      && proposal.stx.tx.notary == local.state.notary
  {
    BareTxIsTheCanonicalUpgrade(LocalState(transactions, proposal.stateRef), proposal.modification);
  }

  /** An acceptor that does not hold the referenced transaction refuses, whatever is proposed. */
  lemma UnknownTransactionRejected(
    transactions: map<SecureHash, SignedTransaction>,
    acceptedUpgrades: map<StateRef, ContractUpgrade>,
    proposal: Proposal)
    requires proposal.stateRef.txhash !in transactions
    ensures VerifyProposal(transactions, acceptedUpgrades, proposal) == Failure(TransactionNotFound)
  {
  }

  /**
   * Fail-closed: an acceptor that has recorded no accepted upgrade for the
   * state refuses, whatever transaction is proposed.
   */
  lemma UnauthorisedStateRejected(
    transactions: map<SecureHash, SignedTransaction>,
    acceptedUpgrades: map<StateRef, ContractUpgrade>,
    proposal: Proposal)
    requires proposal.stateRef !in acceptedUpgrades
    ensures VerifyProposal(transactions, acceptedUpgrades, proposal).Failure?
    ensures Resolves(transactions, proposal.stateRef) ==>
      VerifyProposal(transactions, acceptedUpgrades, proposal) == Failure(UpgradeUnauthorised)
  {
  }

  /**
   * With the state held and an upgrade accepted for it, a descriptor of
   * another class is refused as untrusted, and a transaction other than the
   * expected one is refused as a mismatch, even for the accepted class.
   */
  lemma UntrustedOrTamperedProposalRejected(
    transactions: map<SecureHash, SignedTransaction>,
    acceptedUpgrades: map<StateRef, ContractUpgrade>,
    proposal: Proposal)
    requires Resolves(transactions, proposal.stateRef)
    requires proposal.stateRef in acceptedUpgrades
    requires BareTx(LocalState(transactions, proposal.stateRef), proposal.modification).Success?
    ensures proposal.modification != acceptedUpgrades[proposal.stateRef] ==>
      VerifyProposal(transactions, acceptedUpgrades, proposal) == Failure(UntrustedUpgradePath)
    ensures proposal.modification == acceptedUpgrades[proposal.stateRef] &&
            proposal.stx.tx != BareTx(LocalState(transactions, proposal.stateRef), proposal.modification).value ==>
      VerifyProposal(transactions, acceptedUpgrades, proposal) == Failure(TransactionMismatch)
  {
  }

  /**
   * The instigator and an acceptor agree: when the acceptor holds the same
   * state and has accepted the proposed descriptor for it, the proposal the
   * instigator assembles is approved and returned unchanged, whoever signed it.
   */
  lemma InstigatorProposalApproved(
    transactions: map<SecureHash, SignedTransaction>,
    acceptedUpgrades: map<StateRef, ContractUpgrade>,
    originalState: StateAndRef,
    modification: ContractUpgrade,
    sigs: seq<CompositeKey>)
    requires Resolves(transactions, originalState.ref)
    requires LocalState(transactions, originalState.ref) == originalState
    requires originalState.ref in acceptedUpgrades && acceptedUpgrades[originalState.ref] == modification
    requires BareTx(originalState, modification).Success?
    ensures
      var proposal := AssembleProposal(originalState.ref, modification,
        SignedTransaction(BareTx(originalState, modification).value, sigs));
      VerifyProposal(transactions, acceptedUpgrades, proposal) == Success(proposal)
  {
  }

  // ---------------------------------------------------------------------------
  // Agreement of all participants

  /** The verdict of one counterparty's node on a proposal. */
  function Acceptance(node: ServiceHub, proposal: Proposal): Result<Proposal>
    reads node
  {
    VerifyProposal(node.validatedTransactions, node.acceptedUpgrades, proposal)
  }

  /** The nodes' signing keys, in order. */
  function Keys(nodes: seq<ServiceHub>): seq<CompositeKey>
  {
    if nodes == [] then [] else [nodes[0].legalIdentityKey] + Keys(nodes[1..])
  }

  /** Puts `keys` in front of the signatures of a successful collection. */
  function PrependAll(keys: seq<CompositeKey>, collected: Result<seq<CompositeKey>>): Result<seq<CompositeKey>>
  {
    match collected
    case Success(sigs) => Success(keys + sigs)
    case Failure(e) => Failure(e)
  }

  lemma PrependNothing(collected: Result<seq<CompositeKey>>)
    ensures PrependAll([], collected) == collected
  {
    if collected.Success? {
      assert [] + collected.value == collected.value;
    }
  }

  lemma PrependAllTwice(keys: seq<CompositeKey>, key: CompositeKey, collected: Result<seq<CompositeKey>>)
    ensures PrependAll(keys, PrependAll([key], collected)) == PrependAll(keys + [key], collected)
  {
    if collected.Success? {
      assert keys + ([key] + collected.value) == (keys + [key]) + collected.value;
    }
  }

  /**
   * Asking each counterparty in turn: the first refusal ends the collection
   * with its reason; otherwise each counterparty contributes its signature.
   */
  function CollectSignatures(proposal: Proposal, counterparties: seq<ServiceHub>): Result<seq<CompositeKey>>
    reads counterparties
  {
    if counterparties == [] then Success([])
    else
      match Acceptance(counterparties[0], proposal)
      case Failure(e) => Failure(e)
      case Success(_) =>
        PrependAll([counterparties[0].legalIdentityKey], CollectSignatures(proposal, counterparties[1..]))
  }

  /**
   * Unanimity: the collection succeeds exactly when every counterparty
   * approves, and then holds every counterparty's signature in order; when it
   * fails, the reason is that of the first counterparty that refused.
   */
  lemma {:induction false} CollectSignaturesIsUnanimous(proposal: Proposal, counterparties: seq<ServiceHub>)
    ensures CollectSignatures(proposal, counterparties).Success? <==>
      forall i :: 0 <= i < |counterparties| ==> Acceptance(counterparties[i], proposal).Success?
    ensures CollectSignatures(proposal, counterparties).Success? ==>
      CollectSignatures(proposal, counterparties).value == Keys(counterparties)
    ensures CollectSignatures(proposal, counterparties).Failure? ==>
      exists i :: 0 <= i < |counterparties|
        && Acceptance(counterparties[i], proposal) == Failure(CollectSignatures(proposal, counterparties).error)
        && forall j :: 0 <= j < i ==> Acceptance(counterparties[j], proposal).Success?
  {
    if counterparties != [] {
      var rest := counterparties[1..];
      CollectSignaturesIsUnanimous(proposal, rest);
      assert forall i :: 0 <= i < |rest| ==> rest[i] == counterparties[i + 1];
      if Acceptance(counterparties[0], proposal).Success? {
        if CollectSignatures(proposal, rest).Failure? {
          var i :| 0 <= i < |rest|
            && Acceptance(rest[i], proposal) == Failure(CollectSignatures(proposal, rest).error)
            && forall j :: 0 <= j < i ==> Acceptance(rest[j], proposal).Success?;
          assert Acceptance(counterparties[i + 1], proposal) == Failure(CollectSignatures(proposal, counterparties).error);
        } else {
          forall i | 0 <= i < |counterparties|
            ensures Acceptance(counterparties[i], proposal).Success?
          {
            if i > 0 {
              assert counterparties[i] == rest[i - 1];
            }
          }
        }
      }
    }
  }

  /**
   * The whole agreement as a value: the instigator's proposal, then every
   * counterparty's signature after the instigator's own.
   */
  function Agreement(
    originalState: StateAndRef,
    modification: ContractUpgrade,
    legalIdentityKey: CompositeKey,
    counterparties: seq<ServiceHub>): Result<SignedTransaction>
    reads counterparties
  {
    match BareTx(originalState, modification)
    case Failure(e) => Failure(e)
    case Success(tx) =>
      var proposal := InstigatorProposal(originalState, modification, legalIdentityKey);
      match CollectSignatures(proposal, counterparties)
      case Failure(e) => Failure(e)
      case Success(sigs) => Success(SignedTransaction(tx, [legalIdentityKey] + sigs))
  }

  /**
   * The upgrade is agreed exactly when the bare transaction exists and every
   * counterparty approves the instigator's proposal. The agreed transaction
   * is the canonical upgrade of the original state, signed by the instigator
   * and then by each counterparty.
   */
  lemma AgreementIsUnanimousCanonicalUpgrade(
    originalState: StateAndRef,
    modification: ContractUpgrade,
    legalIdentityKey: CompositeKey,
    counterparties: seq<ServiceHub>)
    ensures Agreement(originalState, modification, legalIdentityKey, counterparties).Success? <==>
      && BareTx(originalState, modification).Success?
      && forall i :: 0 <= i < |counterparties| ==>
           Acceptance(counterparties[i], InstigatorProposal(originalState, modification, legalIdentityKey)).Success?
    ensures Agreement(originalState, modification, legalIdentityKey, counterparties).Success? ==>
      Agreement(originalState, modification, legalIdentityKey, counterparties).value ==
        SignedTransaction(BareTx(originalState, modification).value, [legalIdentityKey] + Keys(counterparties))
  {
    if BareTx(originalState, modification).Success? {
      CollectSignaturesIsUnanimous(InstigatorProposal(originalState, modification, legalIdentityKey), counterparties);
    }
  }

  /**
   * The instigator's side of the protocol run: assemble and sign, propose to
   * each counterparty in turn, stop at the first refusal, and otherwise
   * gather every counterparty's signature.
   */
  method Negotiate(
    originalState: StateAndRef,
    modification: ContractUpgrade,
    legalIdentityKey: CompositeKey,
    counterparties: seq<ServiceHub>)
    returns (r: Result<SignedTransaction>)
    ensures r == Agreement(originalState, modification, legalIdentityKey, counterparties)
  {
    var assembled := AssembleTx(originalState, modification, legalIdentityKey);
    if assembled.Failure? {
      return Failure(assembled.error);
    }
    var stx := assembled.value.0;
    var proposal := AssembleProposal(originalState.ref, modification, stx);
    assert proposal == InstigatorProposal(originalState, modification, legalIdentityKey);
    var signatures: seq<CompositeKey> := [];
    var i := 0;
    assert counterparties[0..] == counterparties;
    PrependNothing(CollectSignatures(proposal, counterparties));
    while i < |counterparties|
      invariant 0 <= i <= |counterparties|
      invariant CollectSignatures(proposal, counterparties) ==
        PrependAll(signatures, CollectSignatures(proposal, counterparties[i..]))
    {
      assert counterparties[i..][0] == counterparties[i];
      assert counterparties[i..][1..] == counterparties[i + 1..];
      var verdict := VerifyProposal(counterparties[i].validatedTransactions, counterparties[i].acceptedUpgrades, proposal);
      if verdict.Failure? {
        return Failure(verdict.error);
      }
      PrependAllTwice(signatures, counterparties[i].legalIdentityKey, CollectSignatures(proposal, counterparties[i + 1..]));
      signatures := signatures + [counterparties[i].legalIdentityKey];
      i := i + 1;
    }
    assert counterparties[i..] == [];
    assert CollectSignatures(proposal, counterparties[i..]) == Success([]);
    assert signatures + [] == signatures;
    assert CollectSignatures(proposal, counterparties) == Success(signatures);
    assert BareTx(originalState, modification) == Success(stx.tx);
    return Success(SignedTransaction(stx.tx, stx.sigs + signatures));
  }

  /**
   * A protocol run with the outcome mapped to a response. On agreement the
   * fully signed transaction is recorded by the instigator and by every
   * counterparty, and the response names its one output; on refusal nothing
   * is recorded anywhere and the response carries the reason. No node's
   * accepted upgrades change.
   */
  method RunUpgrade(
    instigator: ServiceHub,
    originalState: StateAndRef,
    modification: ContractUpgrade,
    counterparties: seq<ServiceHub>,
    idOf: WireTransaction -> SecureHash)
    returns (r: ContractUpgradeResponse)
    modifies instigator, counterparties
    ensures r.Rejected? <==> old(Agreement(originalState, modification, instigator.legalIdentityKey, counterparties)).Failure?
    ensures r.Rejected? ==>
      && r.reason == old(Agreement(originalState, modification, instigator.legalIdentityKey, counterparties)).error
      && instigator.validatedTransactions == old(instigator.validatedTransactions)
      && forall n :: n in counterparties ==> n.validatedTransactions == old(n.validatedTransactions)
    ensures r.Accepted? ==>
      var stx := old(Agreement(originalState, modification, instigator.legalIdentityKey, counterparties)).value;
      && |stx.tx.outputs| > 0
      && r.ref == StateAndRef(stx.tx.outputs[0], StateRef(idOf(stx.tx), 0))
      && instigator.validatedTransactions == old(instigator.validatedTransactions)[idOf(stx.tx) := stx]
      && forall n :: n in counterparties ==> n.validatedTransactions == old(n.validatedTransactions)[idOf(stx.tx) := stx]
    ensures instigator.acceptedUpgrades == old(instigator.acceptedUpgrades)
    ensures forall n :: n in counterparties ==> n.acceptedUpgrades == old(n.acceptedUpgrades)
  {
    var agreed := Negotiate(originalState, modification, instigator.legalIdentityKey, counterparties);
    if agreed.Failure? {
      return Rejected(agreed.error);
    }
    var stx := agreed.value;
    BareTxIsTheCanonicalUpgrade(originalState, modification);
    AgreementIsUnanimousCanonicalUpgrade(originalState, modification, instigator.legalIdentityKey, counterparties);
    var id := idOf(stx.tx);
    instigator.RecordTransaction(id, stx);
    var i := 0;
    while i < |counterparties|
      invariant 0 <= i <= |counterparties|
      invariant instigator.validatedTransactions == old(instigator.validatedTransactions)[id := stx]
      invariant forall j :: 0 <= j < i ==>
        counterparties[j].validatedTransactions == old(counterparties[j].validatedTransactions)[id := stx]
      invariant forall j :: i <= j < |counterparties| ==>
        || counterparties[j].validatedTransactions == old(counterparties[j].validatedTransactions)
        || counterparties[j].validatedTransactions == old(counterparties[j].validatedTransactions)[id := stx]
      invariant instigator.acceptedUpgrades == old(instigator.acceptedUpgrades)
      invariant forall n :: n in counterparties ==> n.acceptedUpgrades == old(n.acceptedUpgrades)
    {
      counterparties[i].RecordTransaction(id, stx);
      i := i + 1;
    }
    return Accepted(StateAndRef(stx.tx.outputs[0], StateRef(id, 0)));
  }
}
