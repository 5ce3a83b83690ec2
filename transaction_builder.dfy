/**
 * The mutable transaction builder that both `assembleBareTx` and
 * `generateUpgradeFromV1` fill in place: a notary fixed at creation, inputs,
 * outputs and commands appended one by one, and signatures added last.
 */
module TransactionBuilding {
  import opened Ledger

  class TransactionBuilder {
    const notary: Party
    var inputs: seq<StateRef>
    var outputs: seq<TransactionState>
    var commands: seq<Command>
    /** The keys that have signed so far (`signWith`), as abstract tags. */
    var signatures: seq<CompositeKey>

    /** `TransactionType.General.Builder(notary)`: an empty transaction for `notary`. */
    constructor (notary: Party)
      ensures this.notary == notary
      ensures inputs == [] && outputs == [] && commands == [] && signatures == []
    {
      this.notary := notary;
      inputs, outputs, commands, signatures := [], [], [], [];
    }

    /** Consumes the state: its reference becomes the next input. */
    method AddInputState(state: StateAndRef)
      modifies this`inputs
      ensures inputs == old(inputs) + [state.ref]
    {
      inputs := inputs + [state.ref];
    }

    /** Produces `data` as the next output, attached to the builder's notary. */
    method AddOutputState(data: ContractState)
      modifies this`outputs
      ensures outputs == old(outputs) + [TransactionState(data, notary)]
    {
      outputs := outputs + [TransactionState(data, notary)];
    }

    method AddCommand(command: Command)
      modifies this`commands
      ensures commands == old(commands) + [command]
    {
      commands := commands + [command];
    }

    /**
     * `withItems(stateAndRef, contractState, command)`: each item is added
     * according to its kind, in the order given.
     */
    method WithItems(input: StateAndRef, output: ContractState, command: Command)
      modifies this`inputs, this`outputs, this`commands
      ensures inputs == old(inputs) + [input.ref]
      ensures outputs == old(outputs) + [TransactionState(output, notary)]
      ensures commands == old(commands) + [command]
    {
      AddInputState(input);
      AddOutputState(output);
      AddCommand(command);
    }

    method SignWith(key: CompositeKey)
      modifies this`signatures
      ensures signatures == old(signatures) + [key]
    {
      signatures := signatures + [key];
    }

    /** The content built so far. */
    function ToWireTransaction(): WireTransaction
      reads this
    {
      WireTransaction(inputs, outputs, commands, notary)
    }

    /** `toSignedTransaction(false)`: the content with the signatures gathered so far, unchecked. */
    function ToSignedTransaction(): SignedTransaction
      reads this
    {
      SignedTransaction(ToWireTransaction(), signatures)
    }
  }
}
