/**
 * Version 2 of the dummy contract and the descriptor that upgrades dummy
 * states to it: the upgrade keeps the magic number and turns the old
 * participants into the new owners. `GenerateUpgradeFromV1` is the batch
 * builder that upgrades a list of version-1 states in one transaction.
 */
module DummyV2Contract {
  import opened Ledger
  import opened TransactionBuilding

  /** `DummyContractUpgrade.legacyContract`: `DUMMY_PROGRAM_ID`. */
  const LegacyContract: ContractId := DummyProgram

  /** `DummyContractUpgrade.upgradedContract`: `DUMMY_V2_PROGRAM_ID`. */
  const UpgradedContract: ContractId := DummyV2Program

  /**
   * `DummyContractUpgrade.upgrade`. In this form the descriptor returns the
   * new state only; the command that goes with it is built by the caller.
   */
  function Upgrade(state: DummyState): DummyV2State
  {
    DummyV2State(state.magicNumber, state.participants)
  }

  /**
   * The upgrade moves a state from the descriptor's legacy contract to its
   * upgraded contract, keeps the magic number, and leaves the keys that must
   * consent to the state exactly as they were.
   */
  lemma UpgradeKeepsNumberAndParticipants(state: DummyState)
    ensures ContractOf(Dummy(state)) == LegacyContract
    ensures ContractOf(DummyV2(Upgrade(state))) == UpgradedContract
    ensures Upgrade(state).magicNumber == state.magicNumber
    ensures Participants(DummyV2(Upgrade(state))) == Participants(Dummy(state))
  {
  }

  /** `DummyContractV2.verify`: the empty contract accepts every transaction. */
  function Verify(tx: WireTransaction): (r: Result<()>)
    ensures r.Success?
  {
    Success(())
  }

  /** `states.flatMap { it.state.data.participants }`: every state's participants, in order. */
  function FlatParticipants(states: seq<StateAndRef>): (r: seq<CompositeKey>)
    ensures forall k :: k in r <==> exists i :: 0 <= i < |states| && k in Participants(states[i].state.data)
  {
    if states == [] then []
    else
      var rest := FlatParticipants(states[1..]);
      assert forall k :: k in rest ==> exists i :: 0 <= i < |states| && k in Participants(states[i].state.data) by {
        forall k | k in rest
          ensures exists i :: 0 <= i < |states| && k in Participants(states[i].state.data)
        {
          var i :| 0 <= i < |states[1..]| && k in Participants(states[1..][i].state.data);
          assert states[1..][i] == states[i + 1];
        }
      }
      Participants(states[0].state.data) + rest
  }

  /** The index of the first occurrence of `x` in `xs`. */
  function FirstIndex<T(==)>(xs: seq<T>, x: T): (i: nat)
    requires x in xs
    ensures i < |xs| && xs[i] == x && x !in xs[..i]
  {
    if xs[0] == x then 0 else 1 + FirstIndex(xs[1..], x)
  }

  /** Appending to a list does not move the first occurrence of an element it already holds. */
  lemma {:induction false} FirstIndexOfPrefix<T>(xs: seq<T>, y: T, x: T)
    requires x in xs
    ensures x in xs + [y] && FirstIndex(xs + [y], x) == FirstIndex(xs, x)
  {
    if xs[0] != x {
      assert (xs + [y])[1..] == xs[1..] + [y];
      FirstIndexOfPrefix(xs[1..], y, x);
    }
  }

  /**
   * `xs.toSet().toList()`: the elements in order of first occurrence, each
   * once (an insertion-ordered set).
   */
  function Distinct<T(==,!new)>(xs: seq<T>): (r: seq<T>)
    ensures forall x :: x in r <==> x in xs
    ensures forall i, j :: 0 <= i < j < |r| ==> r[i] != r[j]
    ensures forall i, j :: 0 <= i < j < |r| ==> FirstIndex(xs, r[i]) < FirstIndex(xs, r[j])
    ensures |xs| > 0 && (forall i :: 0 <= i < |xs| ==> xs[i] == xs[0]) ==> r == [xs[0]]
  {
    if xs == [] then []
    else
      var last := xs[|xs| - 1];
      var seen := Distinct(xs[..|xs| - 1]);
      assert xs == xs[..|xs| - 1] + [last];
      forall x | x in seen
        ensures FirstIndex(xs, x) == FirstIndex(xs[..|xs| - 1], x) < |xs| - 1
      {
        FirstIndexOfPrefix(xs[..|xs| - 1], last, x);
      }
      if last in seen then seen else seen + [last]
  }

  /** `states.map { it.state.notary }`. */
  function Notaries(states: seq<StateAndRef>): (r: seq<Party>)
    ensures |r| == |states|
    ensures forall i :: 0 <= i < |states| ==> r[i] == states[i].state.notary
  {
    seq(|states|, i requires 0 <= i < |states| => states[i].state.notary)
  }

  /** Kotlin's `single()`: the only element, failing on an empty list and on a longer one. */
  function Single<T>(xs: seq<T>): Result<T>
  {
    if |xs| == 0 then Failure(EmptyStateList)
    else if |xs| > 1 then Failure(MoreThanOneState)
    else Success(xs[0])
  }

  /** The notary as written at DummyContractV2.kt:42: `states.map { it.state.notary }.single()`. */
  function SingleNotary(states: seq<StateAndRef>): Result<Party>
  {
    Single(Notaries(states))
  }

  /**
   * As written, the notary is found only for a single state: two states under
   * one and the same notary are refused as "more than one element".
   */
  lemma SingleNotaryRefusesTwoStatesOfOneNotary(s: StateAndRef, t: StateAndRef)
    requires s.state.notary == t.state.notary
    ensures SingleNotary([s, t]) == Failure(MoreThanOneState)
    ensures SingleNotary([s]) == Success(s.state.notary)
  {
  }

  /**
   * The notary the batch builder evidently intends: the one notary all the
   * given states share, `states.map { it.state.notary }.distinct().single()`.
   */
  function SharedNotary(states: seq<StateAndRef>): Result<Party>
  {
    Single(Distinct(Notaries(states)))
  }

  /**
   * The shared notary exists exactly when at least one state is given and all
   * of them have the same notary; it is then every state's notary. Empty
   * input still fails as an empty list, and states under different notaries
   * as more than one element.
   */
  lemma SharedNotaryIsTheCommonNotary(states: seq<StateAndRef>)
    ensures SharedNotary(states).Success? <==>
      |states| > 0 && forall i :: 0 <= i < |states| ==> states[i].state.notary == states[0].state.notary
    ensures SharedNotary(states).Success? ==>
      forall i :: 0 <= i < |states| ==> states[i].state.notary == SharedNotary(states).value
    ensures |states| == 0 ==> SharedNotary(states) == Failure(EmptyStateList)
    ensures SharedNotary(states).Failure? && |states| > 0 ==> SharedNotary(states) == Failure(MoreThanOneState)
  {
    var notaries := Notaries(states);
    var distinct := Distinct(notaries);
    if |states| > 0 {
      assert notaries[0] in distinct;
      if |distinct| == 1 {
        forall i | 0 <= i < |states|
          ensures states[i].state.notary == distinct[0]
        {
          assert notaries[i] in distinct;
        }
      }
    }
  }

  /**
   * The shape of the batch upgrade: one input, one output and one command per
   * state, in input order. Each output is the upgrade of its input under
   * `notary`, and each command is the dummy upgrade command signed by `signers`.
   */
  predicate UpgradesEach(states: seq<StateAndRef>, notary: Party, signers: seq<CompositeKey>, tx: WireTransaction)
    requires forall i :: 0 <= i < |states| ==> states[i].state.data.Dummy?
  {
    && tx.notary == notary
    && |tx.inputs| == |states| && |tx.outputs| == |states| && |tx.commands| == |states|
    && forall i :: 0 <= i < |states| ==>
         && tx.inputs[i] == states[i].ref
         && tx.outputs[i] == TransactionState(DummyV2(Upgrade(states[i].state.data.dummy)), notary)
         && tx.commands[i] == Command(UpgradeCommand(DummyContractUpgrade), signers)
  }

  /**
   * The builder loop of `generateUpgradeFromV1`: for each state in turn, add
   * it as an input, its upgrade as an output, and the dummy upgrade command
   * signed by all the states' participants. The returned signer set is the
   * union of those participants, and the commands' signer list holds each of
   * them once.
   */
  method BuildUpgrade(states: seq<StateAndRef>, notary: Party)
    returns (tx: WireTransaction, signees: set<CompositeKey>)
    requires forall i :: 0 <= i < |states| ==> states[i].state.data.Dummy?
    ensures forall k :: k in signees <==> exists i :: 0 <= i < |states| && k in Participants(states[i].state.data)
    ensures UpgradesEach(states, notary, Distinct(FlatParticipants(states)), tx)
  {
    var signeeList := Distinct(FlatParticipants(states));
    var builder := new TransactionBuilder(notary);
    var i := 0;
    while i < |states|
      invariant 0 <= i <= |states|
      invariant |builder.inputs| == i && |builder.outputs| == i && |builder.commands| == i
      invariant forall j :: 0 <= j < i ==>
        && builder.inputs[j] == states[j].ref
        && builder.outputs[j] == TransactionState(DummyV2(Upgrade(states[j].state.data.dummy)), notary)
        && builder.commands[j] == Command(UpgradeCommand(DummyContractUpgrade), signeeList)
    {
      builder.AddInputState(states[i]);
      builder.AddOutputState(DummyV2(Upgrade(states[i].state.data.dummy)));
      builder.AddCommand(Command(UpgradeCommand(DummyContractUpgrade), signeeList));
      i := i + 1;
    }
    return builder.ToWireTransaction(), set k | k in signeeList;
  }

  /**
   * `DummyContractV2.generateUpgradeFromV1`, as written. The notary is
   * `states.map { notary }.single()`, which fails unless exactly one state is
   * given; only then is the transaction built. The later
   * `require(states.isNotEmpty())` can never fail once `single()` has succeeded.
   */
  method GenerateUpgradeFromV1(states: seq<StateAndRef>) returns (r: Result<(WireTransaction, set<CompositeKey>)>)
    requires forall i :: 0 <= i < |states| ==> states[i].state.data.Dummy?
    ensures |states| == 0 <==> r == Failure(EmptyStateList)
    ensures |states| > 1 <==> r == Failure(MoreThanOneState)
    ensures r.Success? <==> |states| == 1
    ensures r.Success? ==>
      forall k :: k in r.value.1 <==> exists i :: 0 <= i < |states| && k in Participants(states[i].state.data)
    ensures r.Success? ==>
      UpgradesEach(states, states[0].state.notary, Distinct(FlatParticipants(states)), r.value.0)
  {
    var notary := SingleNotary(states);
    if notary.Failure? {
      return Failure(notary.error);
    }
    var tx, signees := BuildUpgrade(states, notary.value);
    return Success((tx, signees));
  }

  /**
   * The batch builder with the notary it evidently intends: any number of
   * states that share one notary are upgraded together, in input order.
   */
  method GenerateUpgradeFromStatesOfOneNotary(states: seq<StateAndRef>)
    returns (r: Result<(WireTransaction, set<CompositeKey>)>)
    requires forall i :: 0 <= i < |states| ==> states[i].state.data.Dummy?
    ensures r.Success? <==>
      |states| > 0 && forall i :: 0 <= i < |states| ==> states[i].state.notary == states[0].state.notary
    ensures |states| == 0 ==> r == Failure(EmptyStateList)
    ensures r.Success? ==>
      forall k :: k in r.value.1 <==> exists i :: 0 <= i < |states| && k in Participants(states[i].state.data)
    ensures r.Success? ==>
      UpgradesEach(states, states[0].state.notary, Distinct(FlatParticipants(states)), r.value.0)
  {
    SharedNotaryIsTheCommonNotary(states);
    var notary := SharedNotary(states);
    if notary.Failure? {
      return Failure(notary.error);
    }
    var tx, signees := BuildUpgrade(states, notary.value);
    return Success((tx, signees));
  }
}
