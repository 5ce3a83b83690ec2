# Contract upgrade agreement

A Dafny model of the contract-upgrade flow of a Corda node. A state
governed by one contract is replaced by an equivalent state governed by a
newer contract. A single transaction consumes the old state and produces the
upgraded one. It goes ahead only when every participant of the state agrees.

- The **instigator** builds the canonical upgrade transaction, called the
  bare transaction: the old state as the one input, the descriptor's upgrade
  of it as the one output, the descriptor's command signed by the old state's
  participants, and the old state's notary. The instigator signs it and
  proposes it.
- Each **acceptor** rebuilds the transaction it expects from its own stored
  copy of the state. It approves only if:
  - it has recorded acceptance of an upgrade of the proposed class for that
    state, and
  - the proposed transaction equals the one it rebuilt.

The model also covers:

- the dummy version-2 contract, its upgrade descriptor and the batch builder
  `generateUpgradeFromV1`;
- the `CashV2` test contract;
- the two upgrade scenarios of the flow's tests.

Modules:

- `Ledger`: the ledger values. These are parties, amounts, contract states,
  state references, commands, and wire and signed transactions. Flow errors
  are a `Result` datatype.
- `TransactionBuilding`: the transaction builder, a class whose inputs,
  outputs, commands and signatures are appended to in place.
- `DummyV2Contract`: `DummyContractUpgrade`, `DummyContractV2` and
  `generateUpgradeFromV1`.
- `CashV2Contract`: the upgraded cash contract and its state.
- `ContractUpgrades`: the descriptor interface, a dispatch over the two
  descriptors.
- `NodeServices`: a node's transaction store and its record of accepted
  upgrades, a class updated in place.
- `ContractUpgradeFlow`: `assembleBareTx`, `Instigator.assembleProposal`,
  `Instigator.assembleTx` and `Acceptor.verifyProposal`, plus the
  all-participants agreement around them.
- `ContractUpgradeFlowTest`: the two test scenarios. Each is a method whose
  postconditions are the test's assertions.

On four points the model follows the code closely:

- **Accepted upgrades are recorded per state.** The acceptor looks up its
  accepted upgrade with the state it read (`getAcceptedContractStateUpgrade(state)`,
  ContractUpgradeFlow.kt:53). The store behind that call is not part of this
  model. Keying the record by the state's reference is this model's choice.
- **The order of the acceptor's checks.** The acceptor rebuilds the expected
  transaction before it compares descriptor classes. So a descriptor that
  does not apply to the state fails with `WrongStateType` before the trusted
  path check.
- **The two forms of `upgrade`.** The flow destructures `upgrade(state)` into
  a state and a command. `CashV2.upgrade` returns that pair itself.
  `DummyContractUpgrade.upgrade` returns only the new state. The model pairs
  it with `UpgradeCommand(DummyContractUpgrade())`, the command that
  `generateUpgradeFromV1` builds for it.
- **The descriptor in the dummy test.** The two-party test passes
  `DummyContractV2()` as the descriptor, but that class has no `upgrade`
  member. The model uses `DummyContractUpgrade`, the descriptor for that
  contract.

Descriptor objects carry no fields. So comparing their classes
(`javaClass ==`) is modelled as equality of a two-valued tag.

## Model

| member | source | states |
|---|---|---|
| DummyV2Contract.UpgradeKeepsNumberAndParticipants | core/src/main/kotlin/net/corda/core/contracts/DummyContractV2.kt:13-24 | the upgrade moves a dummy state from the legacy program to the version-2 program, keeps its magic number, and the new state's participants are the old state's participants |
| DummyV2Contract.Verify | core/src/main/kotlin/net/corda/core/contracts/DummyContractV2.kt:32 | the empty contract accepts every transaction |
| DummyV2Contract.FlatParticipants | core/src/main/kotlin/net/corda/core/contracts/DummyContractV2.kt:45 | a key is in the flattened list exactly when it is a participant of one of the states |
| DummyV2Contract.Distinct | core/src/main/kotlin/net/corda/core/contracts/DummyContractV2.kt:45-50 | the set-then-list conversion keeps exactly the same elements, has no repeats, lists them in the order of their first occurrence, and collapses a non-empty list of equal elements to that one element |
| DummyV2Contract.BuildUpgrade | core/src/main/kotlin/net/corda/core/contracts/DummyContractV2.kt:45-52 | for each state in order, the transaction has that state as an input, its upgrade under the given notary as the output, and an upgrade command signed by every participant once; the signee set is exactly the union of the participants |
| DummyV2Contract.GenerateUpgradeFromV1 | core/src/main/kotlin/net/corda/core/contracts/DummyContractV2.kt:41-53 | as written: no states fails as an empty list, more than one state fails as more than one element (if and only if, both), success exactly for one state, and then the transaction and signee set are the upgrade of that state |
| DummyV2Contract.SingleNotaryRefusesTwoStatesOfOneNotary | core/src/main/kotlin/net/corda/core/contracts/DummyContractV2.kt:42 | as written, two states under one and the same notary are refused, while one state yields its notary |
| DummyV2Contract.SharedNotaryIsTheCommonNotary | core/src/main/kotlin/net/corda/core/contracts/DummyContractV2.kt:42-43 | the notary found by distinct-then-single exists exactly when the states are non-empty and share one notary, and it is then every state's notary; an empty list still fails as empty |
| DummyV2Contract.GenerateUpgradeFromStatesOfOneNotary | core/src/main/kotlin/net/corda/core/contracts/DummyContractV2.kt:41-53 | corrected builder: succeeds exactly for a non-empty batch under one notary and then upgrades every state of the batch in input order |
| CashV2Contract.UpgradeCommandNamesBothContracts | core/src/test/kotlin/net/corda/core/flows/ContractUpgradeFlowTest.kt:148-152 | the upgrade command's old contract is the cash state's contract, its new contract is the upgraded state's contract, and the upgrade carries that command |
| CashV2Contract.UpgradeScalesAmountAndKeepsOwner | core/src/test/kotlin/net/corda/core/flows/ContractUpgradeFlowTest.kt:144-146 | the upgraded state holds a thousand times the quantity in the same token, has the old owner as its only owner, keeps the participants, and only that owner and the issuer can exit it |
| CashV2Contract.OwnerAndParticipantsCanExit | core/src/test/kotlin/net/corda/core/flows/ContractUpgradeFlowTest.kt:155-159 | the owner is the first owner, the participants are the owners, and the exit keys are exactly the owners and the issuer |
| CashV2Contract.MoveKeepsTokenAndReplacesOwners | core/src/test/kotlin/net/corda/core/flows/ContractUpgradeFlowTest.kt:161 | a move takes the new quantity but keeps this state's token, and makes the new owner the only owner and participant |
| CashV2Contract.WithNewOwnerIsMoveOfWholeAmount | core/src/test/kotlin/net/corda/core/flows/ContractUpgradeFlowTest.kt:163 | changing the owner is a cash move command with a move of the whole unchanged amount |
| ContractUpgrades.UpgradeAppliesExactlyToLegacyStates | core/src/main/kotlin/net/corda/flows/ContractUpgradeFlow.kt:30 | a descriptor applies exactly to states of its legacy contract, refuses any other state as the wrong type, and produces a state of its upgraded contract with the same participants |
| TransactionBuilding.TransactionBuilder.constructor | core/src/main/kotlin/net/corda/flows/ContractUpgradeFlow.kt:29 | a new builder for the notary is empty |
| TransactionBuilding.TransactionBuilder.WithItems | core/src/main/kotlin/net/corda/flows/ContractUpgradeFlow.kt:31 | appends the state's reference to the inputs, the new state under the builder's notary to the outputs, and the command to the commands, leaving the signatures alone |
| TransactionBuilding.TransactionBuilder.AddInputState | core/src/main/kotlin/net/corda/core/contracts/DummyContractV2.kt:48 | appends the state's reference to the inputs and changes nothing else |
| TransactionBuilding.TransactionBuilder.AddOutputState | core/src/main/kotlin/net/corda/core/contracts/DummyContractV2.kt:49 | appends the state, attached to the builder's notary, to the outputs and changes nothing else |
| TransactionBuilding.TransactionBuilder.AddCommand | core/src/main/kotlin/net/corda/core/contracts/DummyContractV2.kt:50 | appends the command and changes nothing else |
| TransactionBuilding.TransactionBuilder.SignWith | core/src/main/kotlin/net/corda/flows/ContractUpgradeFlow.kt:42 | appends the key to the signatures and leaves the transaction content unchanged |
| ContractUpgradeFlow.BareTxIsTheCanonicalUpgrade | core/src/main/kotlin/net/corda/flows/ContractUpgradeFlow.kt:27-33 | the bare transaction exists exactly for states of the descriptor's legacy contract; it has the state as its only input, its upgrade under the same notary as its only output, the descriptor's command signed by the state's participants, and the state's notary |
| ContractUpgradeFlow.AssembleBareTx | core/src/main/kotlin/net/corda/flows/ContractUpgradeFlow.kt:27-33 | the builder it returns is fresh, holds the bare transaction and has no signatures; a descriptor that does not fit fails with the bare transaction's error |
| ContractUpgradeFlow.AssembleTx | core/src/main/kotlin/net/corda/flows/ContractUpgradeFlow.kt:40-45 | returns the bare transaction signed by the instigator's key alone, together with the original state's participants |
| ContractUpgradeFlow.VerifyProposal | core/src/main/kotlin/net/corda/flows/ContractUpgradeFlow.kt:50-61 | an approval returns the proposal unchanged |
| ContractUpgradeFlow.VerifyProposalApprovesExactlyApprovable | core/src/main/kotlin/net/corda/flows/ContractUpgradeFlow.kt:50-61 | the acceptor approves exactly when it holds the state at the proposed reference, has accepted the proposed descriptor for it, and the proposed transaction is the canonical upgrade of its own copy (both directions) |
| ContractUpgradeFlow.ApprovedTransactionIsRebuiltLocally | core/src/main/kotlin/net/corda/flows/ContractUpgradeFlow.kt:51-58 | an approved proposal consumes only the proposed reference and produces only the upgrade of the acceptor's stored state, with that state's notary and its participants as signers |
| ContractUpgradeFlow.UnknownTransactionRejected | core/src/main/kotlin/net/corda/flows/ContractUpgradeFlow.kt:51 | an acceptor without the referenced transaction refuses it as not found |
| ContractUpgradeFlow.UnauthorisedStateRejected | core/src/main/kotlin/net/corda/flows/ContractUpgradeFlow.kt:53 | an acceptor with no accepted upgrade for the state refuses every proposal for it, as unauthorised once the state resolves |
| ContractUpgradeFlow.UntrustedOrTamperedProposalRejected | core/src/main/kotlin/net/corda/flows/ContractUpgradeFlow.kt:55-58 | a descriptor of another class than the accepted one is refused as untrusted; with the accepted class, any transaction other than the expected one is refused as a mismatch |
| ContractUpgradeFlow.InstigatorProposalApproved | core/src/main/kotlin/net/corda/flows/ContractUpgradeFlow.kt:38-60 | when the acceptor holds the same state and accepted the same descriptor, the instigator's proposal is approved and returned unchanged, whoever signed it |
| ContractUpgradeFlow.CollectSignaturesIsUnanimous | core/src/main/kotlin/net/corda/flows/ContractUpgradeFlow.kt:17-18 | signatures are collected exactly when every counterparty approves; they are then the counterparties' keys in order, and otherwise the error is the first refuser's |
| ContractUpgradeFlow.AgreementIsUnanimousCanonicalUpgrade | core/src/main/kotlin/net/corda/flows/ContractUpgradeFlow.kt:17-20 | the upgrade is agreed exactly when the bare transaction exists and every counterparty approves; the agreed transaction is the bare transaction signed by the instigator and then by each counterparty |
| ContractUpgradeFlow.Negotiate | core/src/main/kotlin/net/corda/flows/ContractUpgradeFlow.kt:17-20 | the loop that proposes to each counterparty in turn and stops at the first refusal computes exactly the agreement |
| ContractUpgradeFlow.RunUpgrade | core/src/main/kotlin/net/corda/flows/ContractUpgradeFlow.kt:14-21 | rejected exactly when there is no agreement, with its reason, and then nothing is recorded anywhere; on agreement the fully signed transaction is recorded by the instigator and every counterparty, and the response is its one output; accepted upgrades are untouched |
| NodeServices.ServiceHub.RecordTransaction | core/src/test/kotlin/net/corda/core/flows/ContractUpgradeFlowTest.kt:61-62 | stores the transaction under its identity hash and changes nothing else |
| NodeServices.ServiceHub.AcceptContractStateUpgrade | core/src/test/kotlin/net/corda/core/flows/ContractUpgradeFlowTest.kt:78-79 | records the accepted descriptor for that state, superseding an earlier one, and changes nothing else |
| ContractUpgradeFlowTest.TwoPartiesContractUpgrade | core/src/test/kotlin/net/corda/core/flows/ContractUpgradeFlowTest.kt:52-117 | the first request is rejected as unauthorised; after the second party accepts, the request is accepted, both parties store the same upgrade transaction, and it has one input and one output, a version-2 dummy state |
| ContractUpgradeFlowTest.UpgradeCashToV2 | core/src/test/kotlin/net/corda/core/flows/ContractUpgradeFlowTest.kt:119-140 | a lone owner's upgrade of 1000 issued units is accepted; the result is 1000000 units of the same issued currency owned by that party only, and the stored transaction has that state as its only output |

## Left out

- Messaging, fibers, notarisation and finality between the nodes are left
  out. `AbstractStateReplacementFlow` is not part of this model.
  `Negotiate` and `RunUpgrade` model only the outcome the flow promises:
  - every counterparty must approve;
  - the signatures are gathered in order;
  - the signed transaction is recorded by all.
- `RunUpgrade` takes the counterparties from its caller. It does not check
  that they are exactly the state's other participants, and it does not check
  the collected signatures cryptographically.
- Signatures are key tags, not cryptographic values. Transaction identity
  hashes are supplied by the caller as a function `idOf`; hashing is not
  modelled.
- `Ledger.Times`: does not model the 64-bit overflow check of
  `Amount.times`. The CashV2 upgrade of a quantity above 2^63/1000 would
  throw in the source but is a plain product here.
- The full transaction builder is not modelled. The model's
  `TransactionBuilder` class keeps only what the flow uses: a notary fixed at
  creation, appended inputs, outputs and commands, and signing. Time windows, attachments, the signer
  set kept per command, and the check that inputs share the builder's notary
  are left out.
- `Cash.kt` and `DummyContract.kt` are not part of this model. Two things
  are assumed: a cash state's participants are its one owner, and a dummy
  state's participants are its listed keys. `DummyContract.generateInitial`
  is modelled only through the state it issues in the two-party scenario.
- Vault bookkeeping is left out: consumed and unconsumed states, and the
  vault query in the cash test. The cash scenario states the upgraded state
  through the recorded transaction's outputs instead.
- `ContractUpgradeFlowTest.TwoPartiesContractUpgrade` does not restate the
  test's check that the upgrade's input resolves to a stored version-1
  state. With an arbitrary `idOf`, the upgrade's hash could coincide with the
  issuing transaction's hash.
- The issuing transactions in the scenarios carry no commands; issuance is
  not part of this model.
- `DummyContractV2.Commands.Create` and `Move` are declared in the source
  but never used, so they are left out. So is `legalContractReference`.
- The following `CashV2` members are left out:
  - the members that only throw (`extractCommands`, `conserveClause`,
    `generateExitCommand`, `generateIssueCommand`, `generateMoveCommand`,
    `deriveState`, `verify`, `legalContractReference`);
  - the object-relational mapping (`generateMappedObject`,
    `supportedSchemas`, `CashSchemaV2`);
  - `toString`.
- The `require(states.isNotEmpty())` in `generateUpgradeFromV1` is not a
  separate branch: it cannot fail once `single()` has succeeded.

## Findings

| source | as written | input that shows it | evidently intended | confidence | as-written member | corrected member |
|---|---|---|---|---|---|---|
| core/src/main/kotlin/net/corda/core/contracts/DummyContractV2.kt:42 | the notary is `states.map { it.state.notary }.single()`, which fails for any list of two or more states | two version-1 states under the same notary | the one notary all the states share (`distinct().single()`), so that the per-state loop and the non-empty check have work to do | medium; not executed | DummyV2Contract.SingleNotaryRefusesTwoStatesOfOneNotary | DummyV2Contract.GenerateUpgradeFromStatesOfOneNotary |
