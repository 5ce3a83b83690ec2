/**
 * The ledger vocabulary the contract-upgrade flow works with: keys and
 * parties, issued amounts, references to transaction outputs, the contract
 * states of the two contract pairs the upgrade is exercised with (the dummy
 * contract and its version 2, cash and its version 2), commands, and
 * transactions before and after signing.
 */
module Ledger {

  /** A (composite) public key. Only its identity matters to the flow. */
  type CompositeKey = nat

  /** The identity hash of a transaction. */
  type SecureHash = nat

  /** A non-empty owner list: `CashV2.State` reads `owners.first()` when it is built. */
  type OwnerList = s: seq<CompositeKey> | |s| > 0 witness [0]

  datatype Party = Party(name: string, owningKey: CompositeKey)

  /** A party together with an opaque reference, as in `party.ref(1)`. */
  datatype PartyAndReference = PartyAndReference(party: Party, reference: seq<bv8>)

  /** A currency code, such as "USD". */
  type Currency = string

  /** The token of an issued amount: which currency, issued by whom. */
  datatype Issued = Issued(issuer: PartyAndReference, product: Currency)

  /** A non-negative quantity of a token. */
  datatype Amount = Amount(quantity: nat, token: Issued)

  /** `amount.times(n)`: the quantity scaled, the token kept. */
  function Times(a: Amount, n: nat): Amount
  {
    Amount(a.quantity * n, a.token)
  }

  /** The contract programs a state can be governed by. */
  datatype ContractId = DummyProgram | DummyV2Program | CashProgram | CashV2Program

  /**
   * The upgrade descriptors of this model. Neither descriptor class carries any
   * field, so a value of this type is exactly the descriptor's class tag.
   * `CashV2Upgrade` is the `CashV2` object in its role of upgraded contract.
   */
  datatype ContractUpgrade = DummyContractUpgrade | CashV2Upgrade

  /** `DummyContract.State` (version 1): a magic number and its participants. */
  datatype DummyState = DummyState(magicNumber: int, participants: seq<CompositeKey>)

  /** `DummyContractV2.State`: a magic number and its owners. */
  datatype DummyV2State = DummyV2State(magicNumber: int, owners: seq<CompositeKey>)

  /** `Cash.State` (version 1): an issued amount held by one owner. */
  datatype CashState = CashState(amount: Amount, owner: CompositeKey)

  /** `CashV2.State`: an issued amount held by a non-empty list of owners. */
  datatype CashV2State = CashV2State(amount: Amount, owners: OwnerList)

  /** Every contract state this model knows about. */
  datatype ContractState =
    | Dummy(dummy: DummyState)
    | DummyV2(dummyV2: DummyV2State)
    | Cash(cash: CashState)
    | CashV2(cashV2: CashV2State)

  /** The contract that governs a state (each state's `contract` property). */
  function ContractOf(s: ContractState): ContractId
  {
    match s
    case Dummy(_) => DummyProgram
    case DummyV2(_) => DummyV2Program
    case Cash(_) => CashProgram
    case CashV2(_) => CashV2Program
  }

  /** The keys that must consent to any change of a state (each state's `participants`). */
  function Participants(s: ContractState): seq<CompositeKey>
  {
    match s
    case Dummy(d) => d.participants
    case DummyV2(d) => d.owners
    case Cash(c) => [c.owner]
    case CashV2(c) => c.owners
  }

  /** Command payloads used by the upgrade and by `CashV2.State.withNewOwner`. */
  datatype CommandData =
    | UpgradeCommand(upgrade: ContractUpgrade)   // `UpgradeCommand(descriptor)`
    | CashV2UpgradeCommand                       // the `CashV2.Commands.Upgrade` object
    | CashMove                                   // `Cash.Commands.Move()`

  /** A command and the keys that must sign for it. */
  datatype Command = Command(value: CommandData, signers: seq<CompositeKey>)

  /** A state as it sits in a transaction output: its data and its notary. */
  datatype TransactionState = TransactionState(data: ContractState, notary: Party)

  /** Output `index` of the transaction whose identity hash is `txhash`. */
  datatype StateRef = StateRef(txhash: SecureHash, index: nat)

  /** A state together with the reference that currently holds it. */
  datatype StateAndRef = StateAndRef(state: TransactionState, ref: StateRef)

  /** The content of a transaction, as compared by the acceptor. */
  datatype WireTransaction = WireTransaction(
    inputs: seq<StateRef>,
    outputs: seq<TransactionState>,
    commands: seq<Command>,
    notary: Party)

  /** A transaction with the keys that have signed it so far (signatures are tags, not cryptography). */
  datatype SignedTransaction = SignedTransaction(tx: WireTransaction, sigs: seq<CompositeKey>)

  /** The reasons an upgrade step fails; each stands for an exception the source throws. */
  datatype FlowError =
    | TransactionNotFound     // the referenced transaction is not stored locally
    | OutputIndexOutOfRange   // the reference names an output the transaction does not have
    | UpgradeUnauthorised     // no accepted upgrade is recorded for the state
    | WrongStateType          // a descriptor applied to a state of another contract
    | UntrustedUpgradePath    // the proposed descriptor is not of the accepted class
    | TransactionMismatch     // the proposed transaction is not the expected one
    | EmptyStateList          // `single()` of an empty list
    | MoreThanOneState        // `single()` of a list with several elements

  datatype Result<T> = Success(value: T) | Failure(error: FlowError)

  datatype Option<T> = None | Some(value: T)
}
