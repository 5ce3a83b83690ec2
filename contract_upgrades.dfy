/**
 * The descriptor interface the flow calls: `upgrade(state)` returning the
 * new state together with the command that authorises the transition, and
 * the legacy and upgraded contracts each descriptor targets.
 */
module ContractUpgrades {
  import opened Ledger
  import DummyV2Contract
  import CashV2Contract

  /** The contract whose states the descriptor upgrades. */
  function LegacyContract(u: ContractUpgrade): ContractId
  {
    match u
    case DummyContractUpgrade => DummyV2Contract.LegacyContract
    case CashV2Upgrade => CashV2Contract.OldContract
  }

  /** The contract that governs the upgraded states. */
  function UpgradedContract(u: ContractUpgrade): ContractId
  {
    match u
    case DummyContractUpgrade => DummyV2Contract.UpgradedContract
    case CashV2Upgrade => CashV2Contract.NewContract
  }

  /**
   * `contractUpgrade.upgrade(state)` in the pair form the flow destructures.
   * `CashV2.upgrade` returns the pair itself; `DummyContractUpgrade.upgrade`
   * returns the state only and is paired with `UpgradeCommand(DummyContractUpgrade())`,
   * the command `generateUpgradeFromV1` builds for it. A state of any other
   * contract does not have the shape the descriptor expects.
   */
  function Upgrade(u: ContractUpgrade, state: ContractState): Result<(ContractState, CommandData)>
  {
    match (u, state)
    case (DummyContractUpgrade, Dummy(d)) =>
      Success((DummyV2(DummyV2Contract.Upgrade(d)), UpgradeCommand(DummyContractUpgrade)))
    case (CashV2Upgrade, Cash(c)) =>
      var (upgraded, command) := CashV2Contract.Upgrade(c);
      Success((CashV2(upgraded), command))
    case _ => Failure(WrongStateType)
  }

  /**
   * A descriptor applies to exactly the states of its legacy contract; it
   * turns them into states of its upgraded contract whose participants are
   * the old state's participants.
   */
  lemma UpgradeAppliesExactlyToLegacyStates(u: ContractUpgrade, state: ContractState)
    ensures Upgrade(u, state).Success? <==> ContractOf(state) == LegacyContract(u)
    ensures Upgrade(u, state).Failure? ==> Upgrade(u, state).error == WrongStateType
    ensures Upgrade(u, state).Success? ==>
      && ContractOf(Upgrade(u, state).value.0) == UpgradedContract(u)
      && Participants(Upgrade(u, state).value.0) == Participants(state)
  {
  }
}
