/** The pre-flight arity check and the unsigned contract-creation record. */
module Transaction {
  import opened Wrappers
  import opened Text
  import opened Network
  import opened Fees

  /** An ABI entry as far as the arity check reads it: its `type` and its
      `inputs` list, which may be missing. */
  datatype AbiEntry = AbiEntry(kind: string, inputs: Option<seq<string>>)

  /** The number of constructor arguments the script supplies. */
  const ExpectedArity: nat := 5

  predicate IsConstructor(e: AbiEntry)
  {
    e.kind == "constructor"
  }

  /** `(ctor.inputs || []).length`. */
  function InputCount(e: AbiEntry): (n: nat)
    ensures e.inputs.None? ==> n == 0
    ensures e.inputs.Some? ==> n == |e.inputs.value|
  {
    if e.inputs.Some? then |e.inputs.value| else 0
  }

  /** `(abi.find(x => x.type === "constructor") || { inputs: [] }).inputs.length`:
      the input count of the first constructor entry, 0 when there is none. */
  function ConstructorInputCount(abi: seq<AbiEntry>): (n: nat)
    ensures (forall i :: 0 <= i < |abi| ==> !IsConstructor(abi[i])) ==> n == 0
    ensures forall i ::
      0 <= i < |abi| && IsConstructor(abi[i]) && (forall j :: 0 <= j < i ==> !IsConstructor(abi[j]))
      ==> n == InputCount(abi[i])
  {
    if abi == [] then 0
    else if IsConstructor(abi[0]) then InputCount(abi[0])
    else
      var n := ConstructorInputCount(abi[1..]);
      assert forall i :: 1 <= i < |abi| ==> abi[i] == abi[1..][i - 1];
      n
  }

  /** `parseUnits("1000000", 18).toString()`: one million tokens of 18 decimals. */
  const DefaultInitialSupply: string := "1000000000000000000000000"

  /** The constructor arguments `[NAME, SYMBOL, TREASURY, INITIAL_SUPPLY,
      MINT_INTERVAL]`, each overridable from the environment; the treasury
      defaults to the sender. */
  function ConstructorArgs(env: Env, from: string): (args: seq<string>)
    ensures |args| == ExpectedArity
    ensures args[0] == EnvOr(env, "ZRN_NAME", "ZRNCoin")
    ensures args[1] == EnvOr(env, "ZRN_SYMBOL", "ZRN")
    ensures args[2] == EnvOr(env, "ZRN_TREASURY", from)
    ensures args[3] == EnvOr(env, "ZRN_INITIAL_SUPPLY", "1000000000000000000000000")
    ensures args[4] == EnvOr(env, "ZRN_MINT_INTERVAL", "0")
  {
    [ EnvOr(env, "ZRN_NAME", "ZRNCoin"),
      EnvOr(env, "ZRN_SYMBOL", "ZRN"),
      EnvOr(env, "ZRN_TREASURY", from),
      EnvOr(env, "ZRN_INITIAL_SUPPLY", DefaultInitialSupply),
      EnvOr(env, "ZRN_MINT_INTERVAL", "0") ]
  }

  /** `artifact.bytecode + encodedCtor.slice(2)`: the bytecode followed by the
      encoded arguments without their "0x". */
  function DeployData(bytecode: string, encoded: string): (data: string)
    ensures |data| == |bytecode| + (if 2 < |encoded| then |encoded| - 2 else 0)
  {
    bytecode + SliceFrom(encoded, 2)
  }

  /** The deploy data splits into the bytecode and the encoder's output past
      its first two characters; when that output starts with "0x" the split
      gives it back whole. */
  lemma DeployDataSplits(bytecode: string, encoded: string)
    ensures var data := DeployData(bytecode, encoded);
      && StartsWith(data, bytecode)
      && data[|bytecode|..] == SliceFrom(encoded, 2)
      && (StartsWith(encoded, "0x") ==> "0x" + data[|bytecode|..] == encoded)
  {
    var data := DeployData(bytecode, encoded);
    assert data[..|bytecode|] == bytecode;
    assert data[|bytecode|..] == SliceFrom(encoded, 2);
    if StartsWith(encoded, "0x") {
      SliceFromShape(encoded, 2);
    }
  }

  /** The unsigned transaction record: `to` omitted for a contract creation. */
  datatype UnsignedTx = UnsignedTx(
    to: Option<string>,
    data: string,
    nonce: nat,
    gasLimit: nat,
    chainId: nat,
    fee: GasFields,
    value: nat)

  /** The record built at step 6: a contract creation carrying no value. */
  function BuildTx(data: string, nonce: nat, gasLimit: nat, chainId: nat, fee: GasFields): (tx: UnsignedTx)
    ensures tx.to.None? && tx.value == 0
    ensures tx.data == data && tx.nonce == nonce && tx.gasLimit == gasLimit
    ensures tx.chainId == chainId && tx.fee == fee
  {
    UnsignedTx(None, data, nonce, gasLimit, chainId, fee, 0)
  }

  /** `tx.type`: 2 when the spread fee fields carried it, absent for legacy. */
  function TypeField(tx: UnsignedTx): (t: Option<nat>)
    ensures t == Some(2) <==> tx.fee.Type2?
    ensures t.None? <==> tx.fee.Legacy?
  {
    match tx.fee
    case Type2(_, _) => Some(2)
    case Legacy(_) => None
  }
}
