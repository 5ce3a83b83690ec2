/**
 * The part of a node's services the upgrade flow touches: the store of
 * validated transactions, keyed by identity hash, and the record of which
 * upgrade the node has accepted for which state.
 */
module NodeServices {
  import opened Ledger

  class ServiceHub {
    /** The node's legal identity key, with which it signs. */
    const legalIdentityKey: CompositeKey
    /** `storageService.validatedTransactions`. */
    var validatedTransactions: map<SecureHash, SignedTransaction>
    /** What `vaultService.getAcceptedContractStateUpgrade` consults: the accepted upgrade per state. */
    var acceptedUpgrades: map<StateRef, ContractUpgrade>

    /** A node that knows no transaction and has accepted no upgrade. */
    constructor (legalIdentityKey: CompositeKey)
      ensures this.legalIdentityKey == legalIdentityKey
      ensures validatedTransactions == map[] && acceptedUpgrades == map[]
    {
      this.legalIdentityKey := legalIdentityKey;
      validatedTransactions := map[];
      acceptedUpgrades := map[];
    }

    /** `recordTransactions(stx)`: stores `stx` under its identity hash `id`. */
    method RecordTransaction(id: SecureHash, stx: SignedTransaction)
      modifies this`validatedTransactions
      ensures validatedTransactions == old(validatedTransactions)[id := stx]
    {
      validatedTransactions := validatedTransactions[id := stx];
    }

    /**
     * What `ContractUpgradeAcceptFlow(stateAndRef, upgrade)` does: records that
     * this node agrees to `upgrade` for that state, superseding an earlier
     * acceptance for it.
     */
    method AcceptContractStateUpgrade(state: StateAndRef, upgrade: ContractUpgrade)
      modifies this`acceptedUpgrades
      ensures acceptedUpgrades == old(acceptedUpgrades)[state.ref := upgrade]
    {
      acceptedUpgrades := acceptedUpgrades[state.ref := upgrade];
    }
  }
}
