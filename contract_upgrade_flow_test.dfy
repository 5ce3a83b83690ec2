/**
 * The two upgrade scenarios of the flow's tests, as methods whose
 * postconditions are the tests' assertions: a two-party dummy upgrade that is
 * refused until the second party accepts it, and a one-party cash upgrade.
 */
module ContractUpgradeFlowTest {
  import opened Ledger
  import opened NodeServices
  import opened ContractUpgradeFlow

  /**
   * `2 parties contract upgrade`. Both parties store the transaction that
   * issued a dummy state owned by both. The first request is refused because
   * the second party has not accepted the upgrade; once it has, the same
   * request is accepted, and both parties store the same upgrade transaction,
   * with one input and one output, a version-2 dummy state.
   */
  method TwoPartiesContractUpgrade(aKey: CompositeKey, bKey: CompositeKey, notary: Party, idOf: WireTransaction -> SecureHash)
    returns (rejected: ContractUpgradeResponse, accepted: ContractUpgradeResponse,
             updateA: SignedTransaction, updateB: SignedTransaction)
    requires aKey != bKey
    ensures rejected == Rejected(UpgradeUnauthorised)
    ensures accepted.Accepted?
    ensures updateA == updateB
    ensures |updateA.tx.inputs| == 1 && |updateA.tx.outputs| == 1
    ensures updateA.tx.outputs[0].data == DummyV2(DummyV2State(0, [aKey, bKey]))
    ensures accepted.ref.state == updateA.tx.outputs[0]
  {
    var a := new ServiceHub(aKey);
    var b := new ServiceHub(bKey);
    // The issuing transaction: a dummy state with magic number 0 owned by both parties.
    var issue := WireTransaction([], [TransactionState(Dummy(DummyState(0, [aKey, bKey])), notary)], [], notary);
    var issued := SignedTransaction(issue, [aKey, bKey, notary.owningKey]);
    var id := idOf(issue);
    a.RecordTransaction(id, issued);
    b.RecordTransaction(id, issued);
    var original := StateAndRef(issue.outputs[0], StateRef(id, 0));
    BareTxIsTheCanonicalUpgrade(original, DummyContractUpgrade);
    var proposal := InstigatorProposal(original, DummyContractUpgrade, aKey);

    // The only other participant, b, has not accepted the upgrade yet.
    UnauthorisedStateRejected(b.validatedTransactions, b.acceptedUpgrades, proposal);
    assert CollectSignatures(proposal, [b]) == Failure(UpgradeUnauthorised);
    rejected := RunUpgrade(a, original, DummyContractUpgrade, [b], idOf);

    b.AcceptContractStateUpgrade(original, DummyContractUpgrade);
    InstigatorProposalApproved(b.validatedTransactions, b.acceptedUpgrades, original, DummyContractUpgrade, [aKey]);
    assert Acceptance(b, proposal).Success?;
    assert [b][1..] == [] && [bKey] + [] == [bKey];
    assert CollectSignatures(proposal, [b][1..]) == Success([]);
    assert CollectSignatures(proposal, [b]) == Success([bKey]);
    accepted := RunUpgrade(a, original, DummyContractUpgrade, [b], idOf);

    updateA := a.validatedTransactions[accepted.ref.ref.txhash];
    updateB := b.validatedTransactions[accepted.ref.ref.txhash];
  }

  /**
   * `upgrade Cash to v2`. A party issues 1000 units of cash to itself and
   * upgrades them alone: the result is 1000000 units of the same issued
   * currency, owned by that party only, and the party stores the upgrade.
   */
  method UpgradeCashToV2(a: Party, notary: Party, idOf: WireTransaction -> SecureHash)
    returns (result: ContractUpgradeResponse, update: SignedTransaction)
    ensures result.Accepted?
    ensures result.ref.state.data ==
      CashV2(CashV2State(Amount(1000000, Issued(PartyAndReference(a, [1]), "USD")), [a.owningKey]))
    ensures update.tx.outputs == [result.ref.state]
  {
    var node := new ServiceHub(a.owningKey);
    var cash := Cash(CashState(Amount(1000, Issued(PartyAndReference(a, [1]), "USD")), a.owningKey));
    var issue := WireTransaction([], [TransactionState(cash, notary)], [], notary);
    var id := idOf(issue);
    node.RecordTransaction(id, SignedTransaction(issue, [a.owningKey]));
    var stateAndRef := StateAndRef(issue.outputs[0], StateRef(id, 0));
    BareTxIsTheCanonicalUpgrade(stateAndRef, CashV2Upgrade);
    // The state's only participant is the instigator: nobody else is asked.
    result := RunUpgrade(node, stateAndRef, CashV2Upgrade, [], idOf);
    update := node.validatedTransactions[result.ref.ref.txhash];
  }
}
