/**
 * `CashV2`, the upgraded cash contract used by the cash upgrade scenario:
 * its upgrade descriptor, its upgrade command, and the derived fields and
 * copies of its state.
 */
module CashV2Contract {
  import opened Ledger

  /** `CashV2.Commands.Upgrade.oldContract`: `Cash()`. */
  const OldContract: ContractId := CashProgram

  /** `CashV2.Commands.Upgrade.newContract`: `CashV2`. */
  const NewContract: ContractId := CashV2Program

  /** `CashV2.State.owner`: the first owner. */
  function Owner(s: CashV2State): CompositeKey
  {
    s.owners[0]
  }

  /** `CashV2.State.exitKeys`: the owners and the issuer's key, as a set. */
  function ExitKeys(s: CashV2State): set<CompositeKey>
  {
    (set k | k in s.owners) + {s.amount.token.issuer.party.owningKey}
  }

  /**
   * `CashV2.upgrade`: a thousand new units for every old one, the same token,
   * the old owner as the only owner, and the `Upgrade` command.
   */
  function Upgrade(state: CashState): (CashV2State, CommandData)
  {
    (CashV2State(Times(state.amount, 1000), [state.owner]), CashV2UpgradeCommand)
  }

  /** `CashV2.State.move`: the new quantity in this state's token, owned by `newOwner` alone. */
  function Move(s: CashV2State, newAmount: Amount, newOwner: CompositeKey): CashV2State
  {
    s.(amount := Amount(newAmount.quantity, s.amount.token), owners := [newOwner])
  }

  /** `CashV2.State.withNewOwner`: a cash move command and a copy owned by `newOwner` alone. */
  function WithNewOwner(s: CashV2State, newOwner: CompositeKey): (CommandData, CashV2State)
  {
    (CashMove, s.(owners := [newOwner]))
  }

  /**
   * The `Upgrade` command names cash as the contract it leaves and `CashV2`
   * as the one it enters, and the upgrade moves a cash state between exactly
   * those two.
   */
  lemma UpgradeCommandNamesBothContracts(state: CashState)
    ensures OldContract == ContractOf(Cash(state))
    ensures NewContract == ContractOf(CashV2(Upgrade(state).0))
    ensures Upgrade(state).1 == CashV2UpgradeCommand
  {
  }

  /**
   * The upgraded state holds a thousand times the quantity in the same token,
   * belongs to the old owner only, and can be exited by that owner and the
   * issuer only; the keys that must consent to it are those of the old state.
   */
  lemma UpgradeScalesAmountAndKeepsOwner(state: CashState)
    ensures Upgrade(state).0.amount.quantity == 1000 * state.amount.quantity
    ensures Upgrade(state).0.amount.token == state.amount.token
    ensures Owner(Upgrade(state).0) == state.owner
    ensures Participants(CashV2(Upgrade(state).0)) == Participants(Cash(state))
    ensures ExitKeys(Upgrade(state).0) == {state.owner, state.amount.token.issuer.party.owningKey}
  {
  }

  /** The owner is the first participant, and exactly the participants and the issuer can exit the state. */
  lemma OwnerAndParticipantsCanExit(s: CashV2State)
    ensures Owner(s) == Participants(CashV2(s))[0]
    ensures Participants(CashV2(s)) == s.owners
    ensures forall k :: k in Participants(CashV2(s)) ==> k in ExitKeys(s)
    ensures s.amount.token.issuer.party.owningKey in ExitKeys(s)
    ensures forall k :: k in ExitKeys(s) <==> k in s.owners || k == s.amount.token.issuer.party.owningKey
  {
  }

  /**
   * A move keeps the token and takes only the quantity of the new amount; the
   * result has `newOwner` as its only owner, so only that owner and the issuer
   * can exit it.
   */
  lemma MoveKeepsTokenAndReplacesOwners(s: CashV2State, newAmount: Amount, newOwner: CompositeKey)
    ensures Move(s, newAmount, newOwner).amount.quantity == newAmount.quantity
    ensures Move(s, newAmount, newOwner).amount.token == s.amount.token
    ensures Owner(Move(s, newAmount, newOwner)) == newOwner
    ensures Participants(CashV2(Move(s, newAmount, newOwner))) == [newOwner]
    ensures ExitKeys(Move(s, newAmount, newOwner)) == {newOwner, s.amount.token.issuer.party.owningKey}
  {
  }

  /** Changing the owner is a cash move command together with a move of the whole, unchanged amount. */
  lemma WithNewOwnerIsMoveOfWholeAmount(s: CashV2State, newOwner: CompositeKey)
    ensures WithNewOwner(s, newOwner) == (CashMove, Move(s, s.amount, newOwner))
    ensures WithNewOwner(s, newOwner).1.amount == s.amount
  {
  }
}
