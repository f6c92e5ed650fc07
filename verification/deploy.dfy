/** `main` of the deployment script: pick the network and the signing
    authority, check the artifact, build the unsigned contract creation,
    sign it on the device or with the local key, broadcast it. Every network,
    device and file operation is an answer taken from a `World`; the method
    records the operations it performs, in order, in a trace. */
module Deploy {
  import opened Wrappers
  import opened Text
  import opened Failures
  import opened Network
  import opened Fees
  import opened Transaction
  import opened Signing

  /** The compiled artifact: its ABI and creation bytecode. */
  datatype Artifact = Artifact(abi: seq<AbiEntry>, bytecode: string)

  /** The answers of the outside world to one invocation. */
  datatype World = World(
    env: Env,
    transportOpens: bool,                                   // TransportNodeHid.create() and new AppEth
    deviceAddress: Result<string, Thrown>,                  // ethApp.getAddress(path)
    keyAddress: Result<string, Thrown>,                     // new Wallet(DEPLOYER_PK).getAddress()
    artifact: Result<Artifact, Thrown>,                     // readArtifact()
    abiInterface: seq<AbiEntry> -> Option<Thrown>,          // new Interface(abi): what it throws, if anything
    encodeDeploy: seq<string> -> Result<string, Thrown>,    // BigNumber.from and iface.encodeDeploy
    feeData: Result<FeeData, Thrown>,                       // provider.getFeeData()
    transactionCount: string -> Result<nat, Thrown>,        // provider.getTransactionCount(from)
    estimateGas: (string, string) -> Result<nat, Thrown>,   // provider.estimateGas({from, data})
    serializeUnsigned: UnsignedTx -> Result<string, Thrown>,  // serializeTransaction(tx)
    resolveTransaction: (string, Strategy) -> Result<Option<Resolution>, Thrown>,  // (rawHex, call shape)
    deviceSign: (string, string, SignCall) -> Result<RawSig, Thrown>,  // ethApp.signTransaction(path, rawHex, ...)
    serializeSigned: (UnsignedTx, NormalizedSig) -> Result<string, Thrown>,  // serializeTransaction(tx, sig)
    keySign: UnsignedTx -> Result<string, Thrown>,         // pkWallet.signTransaction(tx)
    broadcast: string -> Result<string, Thrown>)           // sendTransaction, wait: the contract address

  /** The operations `main` performs on the world. */
  datatype Step =
    | OpenTransport
    | DeviceGetAddress(path: string)
    | KeyGetAddress
    | ReadArtifact
    | BuildInterface
    | EncodeDeploy(args: seq<string>)
    | GetFeeData
    | GetTransactionCount(address: string)
    | EstimateGas(from: string, data: string)
    | SerializeUnsigned
    | ResolveTransaction(rawHex: string, strategy: Strategy)
    | DeviceSign(path: string, rawHex: string, call: SignCall)
    | SerializeSigned
    | KeySign
    | Broadcast(raw: string)
    | CloseTransport

  /** The position of each operation in the pipeline's fixed order. */
  function Stage(s: Step): nat
  {
    match s
    case OpenTransport => 0
    case DeviceGetAddress(_) => 1
    case KeyGetAddress => 2
    case ReadArtifact => 3
    case BuildInterface => 4
    case EncodeDeploy(_) => 5
    case GetFeeData => 6
    case GetTransactionCount(_) => 7
    case EstimateGas(_, _) => 8
    case SerializeUnsigned => 9
    case ResolveTransaction(_, _) => 10
    case DeviceSign(_, _, _) => 11
    case KeySign => 11
    case SerializeSigned => 12
    case Broadcast(_) => 13
    case CloseTransport => 14
  }

  /** The operations that may happen before the arity check. */
  predicate IsPreflight(s: Step)
  {
    Stage(s) <= Stage(BuildInterface)
  }

  /** Only operations that may precede the arity check happened: stated by
      the last stage of the trace; `PreflightOnlyMeans` gives the operation-wise form. */
  predicate PreflightOnly(trace: seq<Step>)
  {
    LastStage(trace) <= Stage(BuildInterface)
  }

  /** The stage of the `i`-th operation of a trace. */
  function StageAt(trace: seq<Step>, i: nat): nat
    requires i < |trace|
  {
    Stage(trace[i])
  }

  /** The operations of a trace happen in pipeline order. */
  predicate Ordered(trace: seq<Step>)
  {
    forall i, j :: 0 <= i < j < |trace| ==> StageAt(trace, i) <= StageAt(trace, j)
  }

  function FirstStage(trace: seq<Step>): nat
  {
    if |trace| == 0 then 0 else Stage(trace[0])
  }

  function LastStage(trace: seq<Step>): nat
  {
    if |trace| == 0 then 0 else Stage(trace[|trace| - 1])
  }

  /** In an ordered trace that is `PreflightOnly`, every operation may precede the arity check. */
  lemma PreflightOnlyMeans(t: seq<Step>)
    requires Ordered(t) && PreflightOnly(t)
    ensures forall s :: s in t ==> IsPreflight(s)
  {
    forall s | s in t
      ensures IsPreflight(s)
    {
      StageBounds(t, s);
    }
  }

  /** Who holds the key: the hardware device or the local private key. */
  datatype Authority = Device | LocalKey

  /** Whether `USE_LEDGER` selects the device (anything but "0"). */
  function UseLedger(env: Env): (r: bool)
    ensures !r <==> "USE_LEDGER" in env && env["USE_LEDGER"] == "0"
  {
    EnvOr(env, "USE_LEDGER", "1") != "0"
  }

  const DefaultLedgerPath: string := "44'/60'/0'/0/0"

  function LedgerPath(env: Env): (p: string)
    ensures p != ""
    ensures !("LEDGER_PATH" in env && env["LEDGER_PATH"] != "") ==> p == DefaultLedgerPath
    ensures "LEDGER_PATH" in env && env["LEDGER_PATH"] != "" ==> p == env["LEDGER_PATH"]
  {
    EnvOr(env, "LEDGER_PATH", DefaultLedgerPath)
  }

  /** Where the sender address comes from: the device when it was selected,
      opened and returned a non-empty address, the local key otherwise. */
  function AddressSource(w: World): (a: Authority)
    ensures a == Device ==> UseLedger(w.env) && w.transportOpens && w.deviceAddress.Ok? && w.deviceAddress.value != ""
    ensures UseLedger(w.env) && w.transportOpens && w.deviceAddress.Ok? && w.deviceAddress.value != "" ==> a == Device
  {
    if UseLedger(w.env) && w.transportOpens && w.deviceAddress.Ok? && w.deviceAddress.value != ""
    then Device else LocalKey
  }

  /** The signer as the script selects it at step 7: the device whenever the
      transport opened (`ethApp` is set), even if its address request failed. */
  function SignerAsWritten(w: World): (r: Authority)
    ensures AddressSource(w) == Device ==> r == Device
    ensures r == Device <==> UseLedger(w.env) && w.transportOpens
  {
    if UseLedger(w.env) && w.transportOpens then Device else LocalKey
  }

  /** Transport opens, address request fails: the script takes the sender
      (and its nonce) from the local key but signs on the device. */
  lemma SignerAsWrittenMismatch(w: World)
    requires UseLedger(w.env) && w.transportOpens && w.deviceAddress.Err?
    ensures AddressSource(w) == LocalKey
    ensures SignerAsWritten(w) == Device
  {
  }

  /** How the deployment was signed. */
  datatype Signature =
    | ByDevice(unsigned: string, call: SignCall, raw: RawSig, normalized: NormalizedSig)
    | ByKey

  /** A completed deployment. */
  datatype Deployment = Deployment(
    from: string,
    signer: Authority,
    tx: UnsignedTx,
    signature: Signature,
    raw: string,
    contractAddress: string)

  /** The `resolveTransaction` calls on `rawHex`, one per call shape tried. */
  function ResolveSteps(rawHex: string, tried: seq<Strategy>): (steps: seq<Step>)
    ensures |steps| == |tried|
    ensures forall i :: 0 <= i < |tried| ==> steps[i] == ResolveTransaction(rawHex, tried[i])
  {
    seq(|tried|, i requires 0 <= i < |tried| => ResolveTransaction(rawHex, tried[i]))
  }

  /** Appending a step of a later stage keeps a trace ordered. */
  lemma OrderedAppend(t: seq<Step>, s: Step)
    requires Ordered(t) && (t == [] || LastStage(t) <= Stage(s))
    ensures Ordered(t + [s]) && LastStage(t + [s]) == Stage(s)
    ensures FirstStage(t + [s]) == (if t == [] then Stage(s) else FirstStage(t))
  {
    var u := t + [s];
    forall i, j | 0 <= i < j < |u| ensures StageAt(u, i) <= StageAt(u, j) {
      assert u[i] == t[i];
      if j < |t| {
        assert u[j] == t[j] && StageAt(t, i) <= StageAt(t, j);
      } else if i < |t| - 1 {
        assert StageAt(t, i) <= StageAt(t, |t| - 1);
      }
    }
  }

  /** Concatenating two ordered traces, the second starting no earlier than
      the first ends, gives an ordered trace. */
  lemma OrderedConcat(a: seq<Step>, b: seq<Step>)
    requires Ordered(a) && Ordered(b)
    requires a == [] || b == [] || LastStage(a) <= FirstStage(b)
    ensures Ordered(a + b)
    ensures FirstStage(a + b) == (if a == [] then FirstStage(b) else FirstStage(a))
    ensures LastStage(a + b) == (if b == [] then LastStage(a) else LastStage(b))
  {
    var u := a + b;
    forall i, j | 0 <= i < j < |u| ensures StageAt(u, i) <= StageAt(u, j) {
      if j < |a| {
        assert u[i] == a[i] && u[j] == a[j] && StageAt(a, i) <= StageAt(a, j);
      } else if i >= |a| {
        assert u[i] == b[i - |a|] && u[j] == b[j - |a|];
        assert StageAt(b, i - |a|) <= StageAt(b, j - |a|);
      } else {
        assert u[i] == a[i] && u[j] == b[j - |a|];
        assert StageAt(a, i) <= StageAt(a, |a| - 1) by {
          if i < |a| - 1 { assert StageAt(a, i) <= StageAt(a, |a| - 1); }
        }
        assert StageAt(b, 0) <= StageAt(b, j - |a|) by {
          if 0 < j - |a| { assert StageAt(b, 0) <= StageAt(b, j - |a|); }
        }
      }
    }
  }

  /** An operation of an ordered trace lies between its first and last stage. */
  lemma StageBounds(t: seq<Step>, x: Step)
    requires Ordered(t)
    ensures x in t ==> FirstStage(t) <= Stage(x) <= LastStage(t)
  {
    if x in t {
      var i :| 0 <= i < |t| && t[i] == x;
      assert StageAt(t, 0) <= StageAt(t, i) by { if 0 < i { assert StageAt(t, 0) <= StageAt(t, i); } }
      assert StageAt(t, i) <= StageAt(t, |t| - 1) by { if i < |t| - 1 { assert StageAt(t, i) <= StageAt(t, |t| - 1); } }
    }
  }

  /** Some operation of the trace is the broadcast. */
  predicate Broadcasted(trace: seq<Step>)
  {
    exists s :: s in trace && s.Broadcast?
  }

  /** An operation of a later stage than all of `a` occurs in `a + b` only through `b`. */
  lemma MembershipAfter(a: seq<Step>, b: seq<Step>, x: Step)
    requires Ordered(a) && (a == [] || LastStage(a) < Stage(x))
    ensures x in a + b <==> x in b
  {
    StageBounds(a, x);
  }

  /** An ordered trace that ends before the broadcast stage has no broadcast. */
  lemma NotBroadcasted(t: seq<Step>)
    requires Ordered(t) && (t == [] || LastStage(t) < Stage(Broadcast("")))
    ensures !Broadcasted(t)
  {
    if Broadcasted(t) {
      var s :| s in t && s.Broadcast?;
      StageBounds(t, s);
    }
  }

  /** Operations before the broadcast stage add no broadcast. */
  lemma BroadcastedAfter(a: seq<Step>, b: seq<Step>)
    requires Ordered(a) && (a == [] || LastStage(a) < Stage(Broadcast("")))
    ensures Broadcasted(a + b) <==> Broadcasted(b)
  {
    if Broadcasted(a + b) {
      var s :| s in a + b && s.Broadcast?;
      NotBroadcasted(a);
      assert s in b;
    }
    if Broadcasted(b) {
      var s :| s in b && s.Broadcast?;
      assert s in a + b;
    }
  }

  /** Joining a trace that ends before the signing stages to one that
      starts at them: the join is ordered, and the signing, closing and
      broadcast operations in it are exactly those of the second part. */
  lemma JoinBeforeSigning(a: seq<Step>, b: seq<Step>)
    requires Ordered(a) && Ordered(b) && b != []
    requires a == [] || LastStage(a) <= Stage(EstimateGas("", ""))
    requires FirstStage(b) >= Stage(SerializeUnsigned)
    ensures Ordered(a + b) && LastStage(a + b) == LastStage(b)
    ensures a != [] ==> FirstStage(a + b) == FirstStage(a)
    ensures CloseTransport in a + b <==> CloseTransport in b
    ensures forall h :: ResolveTransaction(h, ResolutionStrategies[1]) in a + b <==> ResolveTransaction(h, ResolutionStrategies[1]) in b
    ensures forall p, h, c :: DeviceSign(p, h, c) in a + b <==> DeviceSign(p, h, c) in b
    ensures Broadcasted(a + b) <==> Broadcasted(b)
  {
    OrderedConcat(a, b);
    MembershipAfter(a, b, CloseTransport);
    forall h ensures ResolveTransaction(h, ResolutionStrategies[1]) in a + b <==> ResolveTransaction(h, ResolutionStrategies[1]) in b {
      MembershipAfter(a, b, ResolveTransaction(h, ResolutionStrategies[1]));
    }
    forall p, h, c ensures DeviceSign(p, h, c) in a + b <==> DeviceSign(p, h, c) in b {
      MembershipAfter(a, b, DeviceSign(p, h, c));
    }
    BroadcastedAfter(a, b);
  }

  /** A trace that ends before the signing stages has no signing, closing or broadcast operation. */
  lemma BeforeSigning(a: seq<Step>)
    requires Ordered(a) && (a == [] || LastStage(a) <= Stage(EstimateGas("", "")))
    ensures CloseTransport !in a
    ensures forall h :: ResolveTransaction(h, ResolutionStrategies[1]) !in a
    ensures forall p, h, c :: DeviceSign(p, h, c) !in a
    ensures !Broadcasted(a)
  {
    StageBounds(a, CloseTransport);
    forall h ensures ResolveTransaction(h, ResolutionStrategies[1]) !in a {
      StageBounds(a, ResolveTransaction(h, ResolutionStrategies[1]));
    }
    forall p, h, c ensures DeviceSign(p, h, c) !in a {
      StageBounds(a, DeviceSign(p, h, c));
    }
    NotBroadcasted(a);
  }

  /** Joining the sender's operations to those from the artifact read on:
      the join is ordered, the transport is opened only in the first part,
      and signing, closing and broadcast happen only in the second. */
  lemma JoinAfterSender(a: seq<Step>, b: seq<Step>)
    requires Ordered(a) && (a == [] || LastStage(a) <= Stage(KeyGetAddress))
    requires Ordered(b) && b != [] && FirstStage(b) == Stage(ReadArtifact)
    ensures Ordered(a + b) && LastStage(a + b) == LastStage(b)
    ensures OpenTransport in a + b <==> OpenTransport in a
    ensures CloseTransport in a + b <==> CloseTransport in b
    ensures forall h :: ResolveTransaction(h, ResolutionStrategies[1]) in a + b <==> ResolveTransaction(h, ResolutionStrategies[1]) in b
    ensures forall p, h, c :: DeviceSign(p, h, c) in a + b <==> DeviceSign(p, h, c) in b
    ensures Broadcasted(a + b) <==> Broadcasted(b)
  {
    OrderedConcat(a, b);
    BeforeSigning(a);
    StageBounds(b, OpenTransport);
    BroadcastedAfter(a, b);
  }

  /** The sender of the deployment and the authority that holds its key. */
  datatype Sender = Sender(address: string, authority: Authority)

  /** Step 2 of `main`: try the device when it is selected, and fall back to
      the private key when the device gave no address. */
  method AcquireSender(w: World) returns (sender: Result<Sender, Failure>, trace: seq<Step>)
    ensures Ordered(trace) && LastStage(trace) <= Stage(KeyGetAddress)
    ensures OpenTransport in trace <==> UseLedger(w.env)
    ensures sender == Err(NoSigningAuthority) <==>
      AddressSource(w) == LocalKey && EnvOr(w.env, "DEPLOYER_PK", "") == ""
    ensures sender.Err? ==> sender.error == NoSigningAuthority || (w.keyAddress.Err? && sender.error == Rethrown(w.keyAddress.error))
    ensures sender.Ok? ==> sender.value.authority == AddressSource(w)
    ensures sender.Ok? && sender.value.authority == Device ==> w.deviceAddress == Ok(sender.value.address)
    ensures sender.Ok? && sender.value.authority == LocalKey ==> w.keyAddress == Ok(sender.value.address)
    ensures AddressSource(w) == Device ==> sender == Ok(Sender(w.deviceAddress.value, Device))
    ensures AddressSource(w) == LocalKey && EnvOr(w.env, "DEPLOYER_PK", "") != "" ==>
      sender == if w.keyAddress.Ok? then Ok(Sender(w.keyAddress.value, LocalKey)) else Err(Rethrown(w.keyAddress.error))
    ensures KeyGetAddress in trace <==> AddressSource(w) == LocalKey && EnvOr(w.env, "DEPLOYER_PK", "") != ""
  {
    trace := [];
    var fromAddress: Option<string> := None;
    if UseLedger(w.env) {
      trace := [OpenTransport];
      if w.transportOpens {
        trace := [OpenTransport, DeviceGetAddress(LedgerPath(w.env))];
        if w.deviceAddress.Ok? {
          fromAddress := Some(w.deviceAddress.value);
        }
      }
    }
    if fromAddress.Some? && fromAddress.value != "" {
      return Ok(Sender(fromAddress.value, Device)), trace;
    }
    if EnvOr(w.env, "DEPLOYER_PK", "") == "" {
      return Err(NoSigningAuthority), trace;
    }
    OrderedAppend(trace, KeyGetAddress);
    trace := trace + [KeyGetAddress];
    if w.keyAddress.Err? {
      return Err(Rethrown(w.keyAddress.error)), trace;
    }
    sender := Ok(Sender(w.keyAddress.value, LocalKey));
  }

  /** Step 2 ends with a sender: the device gave a non-empty address, or
      `DEPLOYER_PK` is set and the key gave its address. */
  predicate SenderAvailable(w: World)
  {
    AddressSource(w) == Device || (EnvOr(w.env, "DEPLOYER_PK", "") != "" && w.keyAddress.Ok?)
  }

  /** The sender step 2 settles on when one is available. */
  function ChosenSender(w: World): (s: Sender)
    requires SenderAvailable(w)
    ensures s.authority == AddressSource(w)
    ensures s.authority == Device ==> w.deviceAddress == Ok(s.address)
    ensures s.authority == LocalKey ==> w.keyAddress == Ok(s.address)
  {
    if AddressSource(w) == Device then Sender(w.deviceAddress.value, Device) else Sender(w.keyAddress.value, LocalKey)
  }

  /** The constructor arguments encoded for the deployment. */
  function EncodedArgs(w: World, from: string): Result<string, Thrown>
  {
    w.encodeDeploy(ConstructorArgs(w.env, from))
  }

  /** The artifact exists, `Interface` accepts its ABI, and its constructor
      takes the expected five inputs. */
  predicate ArityChecked(w: World)
  {
    && w.artifact.Ok?
    && w.abiInterface(w.artifact.value.abi).None?
    && ConstructorInputCount(w.artifact.value.abi) == ExpectedArity
  }

  /** The arity error names the input count of an artifact `Interface` accepted. */
  predicate ArityRejected(w: World, f: Failure)
  {
    && f.ArityMismatch?
    && w.artifact.Ok?
    && w.abiInterface(w.artifact.value.abi).None?
    && f.found == ConstructorInputCount(w.artifact.value.abi) != ExpectedArity
  }

  /** `Interface` accepted the artifact's ABI, and its constructor does not take five inputs. */
  predicate ArityWrong(w: World)
  {
    && w.artifact.Ok?
    && w.abiInterface(w.artifact.value.abi).None?
    && ConstructorInputCount(w.artifact.value.abi) != ExpectedArity
  }

  /** The arity check passes and the constructor arguments encode. */
  predicate Encodes(w: World, from: string)
  {
    ArityChecked(w) && EncodedArgs(w, from).Ok?
  }

  /** The provider reports fee data and the nonce of `from`. */
  predicate ProviderAnswers(w: World, from: string)
  {
    w.feeData.Ok? && w.transactionCount(from).Ok?
  }

  /** The record `main` builds around `data` for `from` on `chainId`: no
      recipient and no value, fee fields from the fee data, the account's
      nonce, and the padded gas estimate for exactly this data. */
  predicate RecordFor(w: World, from: string, chainId: nat, data: string, tx: UnsignedTx)
  {
    && tx.data == data && tx.to.None? && tx.value == 0 && tx.chainId == chainId
    && w.feeData.Ok? && tx.fee == BuildGasFields(w.feeData.value)
    && w.transactionCount(from) == Ok(tx.nonce)
    && tx.gasLimit == SafeEstimateGas(w.estimateGas(from, data))
  }

  /** The unsigned contract creation `main` builds for `from` on `chainId`:
      the checked bytecode followed by the encoded constructor arguments, in
      the record `RecordFor` describes. */
  predicate BuiltFor(w: World, from: string, chainId: nat, tx: UnsignedTx)
  {
    && ArityChecked(w)
    && EncodedArgs(w, from).Ok?
    && RecordFor(w, from, chainId, DeployData(w.artifact.value.bytecode, EncodedArgs(w, from).value), tx)
  }

  /** Steps 3 and 4 of `main`: read the artifact, build the ABI interface,
      check the constructor's arity before anything else is asked of the
      network, encode the data. */
  method PrepareData(w: World, from: string) returns (data: Result<string, Failure>, trace: seq<Step>)
    ensures Ordered(trace) && trace != [] && FirstStage(trace) == Stage(ReadArtifact)
    ensures LastStage(trace) < Stage(GetFeeData)
    ensures data.Err? ==> ArityRejected(w, data.error) || data.error.Rethrown?
    ensures PreflightOnly(trace) || ArityChecked(w)
    ensures data.Ok? ==>
      ArityChecked(w) && EncodedArgs(w, from).Ok? &&
      data.value == DeployData(w.artifact.value.bytecode, EncodedArgs(w, from).value)
    ensures w.artifact.Err? ==> data == Err(Rethrown(w.artifact.error))
    ensures w.artifact.Ok? && w.abiInterface(w.artifact.value.abi).Some? ==>
      data == Err(Rethrown(w.abiInterface(w.artifact.value.abi).value))
    ensures ArityWrong(w) ==> data == Err(ArityMismatch(ConstructorInputCount(w.artifact.value.abi)))
    ensures ArityChecked(w) && EncodedArgs(w, from).Err? ==> data == Err(Rethrown(EncodedArgs(w, from).error))
    ensures Encodes(w, from) ==> data.Ok?
  {
    var args := ConstructorArgs(w.env, from);
    assert Stage(ReadArtifact) < Stage(BuildInterface) < Stage(EncodeDeploy(args)) < Stage(GetFeeData);
    trace := [ReadArtifact];
    if w.artifact.Err? {
      return Err(Rethrown(w.artifact.error)), trace;
    }
    var artifact := w.artifact.value;
    trace := [ReadArtifact, BuildInterface];
    var rejected := w.abiInterface(artifact.abi);
    if rejected.Some? {
      return Err(Rethrown(rejected.value)), trace;
    }
    var count := ConstructorInputCount(artifact.abi);
    if count != ExpectedArity {
      return Err(ArityMismatch(count)), trace;
    }
    trace := [ReadArtifact, BuildInterface, EncodeDeploy(args)];
    var encoded := w.encodeDeploy(args);
    if encoded.Err? {
      return Err(Rethrown(encoded.error)), trace;
    }
    data := Ok(DeployData(artifact.bytecode, encoded.value));
  }

  /** Steps 5 and 6 of `main`: fee fields, nonce and gas limit for `data`. */
  method BuildRecord(w: World, from: string, chainId: nat, data: string) returns (built: Result<UnsignedTx, Failure>, trace: seq<Step>)
    ensures Ordered(trace) && trace != [] && FirstStage(trace) == Stage(GetFeeData)
    ensures LastStage(trace) <= Stage(EstimateGas("", ""))
    ensures built.Err? ==> built.error.Rethrown?
    ensures built.Ok? ==> RecordFor(w, from, chainId, data, built.value)
    ensures w.feeData.Err? ==> built == Err(Rethrown(w.feeData.error))
    ensures w.feeData.Ok? && w.transactionCount(from).Err? ==> built == Err(Rethrown(w.transactionCount(from).error))
    ensures ProviderAnswers(w, from) ==> built.Ok?
  {
    trace := [GetFeeData];
    if w.feeData.Err? {
      return Err(Rethrown(w.feeData.error)), trace;
    }
    var gasFields := BuildGasFields(w.feeData.value);
    trace := [GetFeeData, GetTransactionCount(from)];
    var nonce := w.transactionCount(from);
    if nonce.Err? {
      return Err(Rethrown(nonce.error)), trace;
    }
    trace := [GetFeeData, GetTransactionCount(from), EstimateGas(from, data)];
    var gasLimit := SafeEstimateGas(w.estimateGas(from, data));
    built := Ok(BuildTx(data, nonce.value, gasLimit, chainId, gasFields));
  }

  /** Joining the artifact and encoding operations to the fee, nonce and
      gas operations gives an ordered trace from the artifact read to at
      most the gas estimate. */
  lemma JoinPrepared(a: seq<Step>, b: seq<Step>)
    requires Ordered(a) && a != [] && FirstStage(a) == Stage(ReadArtifact) && LastStage(a) < Stage(GetFeeData)
    requires Ordered(b) && b != [] && FirstStage(b) == Stage(GetFeeData) && LastStage(b) <= Stage(EstimateGas("", ""))
    ensures Ordered(a + b) && FirstStage(a + b) == Stage(ReadArtifact) && LastStage(a + b) <= Stage(EstimateGas("", ""))
  {
    OrderedConcat(a, b);
  }

  /** The record steps 3 to 6 build when every answer they need is a
      success: the only record `BuiltFor` admits. */
  function BuiltRecord(w: World, from: string, chainId: nat): (tx: UnsignedTx)
    requires Encodes(w, from) && ProviderAnswers(w, from)
    ensures BuiltFor(w, from, chainId, tx)
  {
    var data := DeployData(w.artifact.value.bytecode, EncodedArgs(w, from).value);
    BuildTx(data, w.transactionCount(from).value, SafeEstimateGas(w.estimateGas(from, data)), chainId, BuildGasFields(w.feeData.value))
  }

  /** `BuiltFor` admits one record only: the answers determine it. */
  lemma BuiltRecordUnique(w: World, from: string, chainId: nat, tx: UnsignedTx)
    requires BuiltFor(w, from, chainId, tx)
    ensures Encodes(w, from) && ProviderAnswers(w, from)
    ensures tx == BuiltRecord(w, from, chainId)
  {
  }

  /** The failure steps 3 to 6 end in, if any: the first answer that is not
      a success, in the order the script asks for them. */
  function BuildFailure(w: World, from: string): (f: Option<Failure>)
    ensures f.None? <==> Encodes(w, from) && ProviderAnswers(w, from)
    ensures f.Some? ==> f.value.Rethrown? || ArityRejected(w, f.value)
  {
    if w.artifact.Err? then Some(Rethrown(w.artifact.error))
    else if w.abiInterface(w.artifact.value.abi).Some? then Some(Rethrown(w.abiInterface(w.artifact.value.abi).value))
    else if ArityWrong(w) then Some(ArityMismatch(ConstructorInputCount(w.artifact.value.abi)))
    else if EncodedArgs(w, from).Err? then Some(Rethrown(EncodedArgs(w, from).error))
    else if w.feeData.Err? then Some(Rethrown(w.feeData.error))
    else if w.transactionCount(from).Err? then Some(Rethrown(w.transactionCount(from).error))
    else None
  }

  /** Steps 3 to 6 of `main`: the unsigned record. */
  method BuildUnsigned(w: World, from: string, chainId: nat) returns (built: Result<UnsignedTx, Failure>, trace: seq<Step>)
    ensures Ordered(trace) && trace != [] && FirstStage(trace) == Stage(ReadArtifact)
    ensures LastStage(trace) <= Stage(EstimateGas("", ""))
    ensures built.Err? ==> ArityRejected(w, built.error) || built.error.Rethrown?
    ensures PreflightOnly(trace) || ArityChecked(w)
    ensures built.Ok? ==> BuiltFor(w, from, chainId, built.value)
    ensures ArityWrong(w) ==> built == Err(ArityMismatch(ConstructorInputCount(w.artifact.value.abi)))
    ensures Encodes(w, from) && ProviderAnswers(w, from) ==> built == Ok(BuiltRecord(w, from, chainId))
    ensures built.Err? <==> BuildFailure(w, from).Some?
    ensures built.Err? ==> built.error == BuildFailure(w, from).value
  {
    assert Stage(GetFeeData) <= Stage(EstimateGas("", ""));
    var data;
    data, trace := PrepareData(w, from);
    if data.Err? {
      assert !Encodes(w, from);
      return Err(data.error), trace;
    }
    var record, recordSteps := BuildRecord(w, from, chainId, data.value);
    JoinPrepared(trace, recordSteps);
    trace := trace + recordSteps;
    if record.Err? {
      assert !ProviderAnswers(w, from);
      return Err(record.error), trace;
    }
    built := record;
    BuiltRecordUnique(w, from, chainId, record.value);
  }

  /** `serializeTransaction(tx).slice(2)`: the unsigned bytes the device is shown. */
  function UnsignedHex(w: World, tx: UnsignedTx): (r: Result<string, Thrown>)
    ensures w.serializeUnsigned(tx).Err? ==> r == Err(w.serializeUnsigned(tx).error)
    ensures w.serializeUnsigned(tx).Ok? ==> r.Ok?
    ensures w.serializeUnsigned(tx).Ok? && 2 <= |w.serializeUnsigned(tx).value| ==>
      w.serializeUnsigned(tx).value == w.serializeUnsigned(tx).value[..2] + r.value
  {
    match w.serializeUnsigned(tx)
    case Ok(unsigned) =>
      assert 2 <= |unsigned| ==> unsigned == unsigned[..2] + SliceFrom(unsigned, 2) by {
        if 2 < |unsigned| { SliceFromShape(unsigned, 2); }
      }
      Ok(SliceFrom(unsigned, 2))
    case Err(e) => Err(e)
  }

  /** The `resolveTransaction` call on `rawHex` for each call shape. */
  function ResolveAttempts(w: World, rawHex: string): Strategy -> Result<Option<Resolution>, Thrown>
  {
    strategy => w.resolveTransaction(rawHex, strategy)
  }

  /** The sign call the device path makes for `rawHex`. */
  function DeviceCall(w: World, rawHex: string): SignCall
  {
    SignCallFor(NestedResolution(ResolveAttempts(w, rawHex)))
  }

  /** The device's answer to that sign call at the configured path. */
  function DeviceAnswer(w: World, rawHex: string): Result<RawSig, Thrown>
  {
    w.deviceSign(LedgerPath(w.env), rawHex, DeviceCall(w, rawHex))
  }

  /** `raw` is `tx` signed by `signer`: on the device, shown `tx`'s own
      unsigned serialization at the configured path with the negotiated sign
      call, the signature normalised to the transaction's encoding before
      serialising; or by the local key. */
  predicate SignedBy(w: World, signer: Authority, tx: UnsignedTx, sig: Signature, raw: string)
  {
    && (sig.ByDevice? <==> signer == Device)
    && (sig.ByDevice? ==>
          && w.serializeUnsigned(tx) == Ok(sig.unsigned)
          && sig.call == DeviceCall(w, SliceFrom(sig.unsigned, 2))
          && w.deviceSign(LedgerPath(w.env), SliceFrom(sig.unsigned, 2), sig.call) == Ok(sig.raw)
          && sig.normalized == Normalize(sig.raw, tx)
          && w.serializeSigned(tx, sig.normalized) == Ok(raw))
    && (sig.ByKey? ==> w.keySign(tx) == Ok(raw))
  }

  /** The device path succeeds on `tx`: the record serialises, the device
      signs its bytes, and the normalised signature serialises. */
  predicate DeviceSigns(w: World, tx: UnsignedTx)
  {
    && UnsignedHex(w, tx).Ok?
    && DeviceAnswer(w, UnsignedHex(w, tx).value).Ok?
    && w.serializeSigned(tx, Normalize(DeviceAnswer(w, UnsignedHex(w, tx).value).value, tx)).Ok?
  }

  /** `signer` signs `tx` without an error. */
  predicate Signs(w: World, signer: Authority, tx: UnsignedTx)
  {
    if signer == Device then DeviceSigns(w, tx) else w.keySign(tx).Ok?
  }

  /** The signed transaction `signer` produces for `tx`: the only one `SignedBy` admits. */
  function SignedRaw(w: World, signer: Authority, tx: UnsignedTx): (raw: string)
    requires Signs(w, signer, tx)
  {
    if signer == Device
    then w.serializeSigned(tx, Normalize(DeviceAnswer(w, UnsignedHex(w, tx).value).value, tx)).value
    else w.keySign(tx).value
  }

  /** `SignedBy` admits one signed transaction only, and `signer` then signs without an error. */
  lemma SignedRawUnique(w: World, signer: Authority, tx: UnsignedTx, sig: Signature, raw: string)
    requires SignedBy(w, signer, tx, sig, raw)
    ensures Signs(w, signer, tx) && raw == SignedRaw(w, signer, tx)
  {
  }

  /** The device refused the sign call for `rawHex` with the blind-signing message. */
  predicate DeviceRefused(w: World, rawHex: string)
  {
    DeviceAnswer(w, rawHex).Err? && Includes(Describe(DeviceAnswer(w, rawHex).error), RefusalPhrase)
  }

  /** The failure signing `tx` ends in, if any: a serializer or key error
      rethrown, or the device's error mapped as the script maps it. */
  function SignFailure(w: World, signer: Authority, tx: UnsignedTx): (f: Option<Failure>)
    ensures f.None? <==> Signs(w, signer, tx)
    ensures f == Some(BlindSigningRefused) <==>
      signer == Device && UnsignedHex(w, tx).Ok? && DeviceRefused(w, UnsignedHex(w, tx).value)
  {
    if signer == LocalKey then
      if w.keySign(tx).Err? then Some(Rethrown(w.keySign(tx).error)) else None
    else if UnsignedHex(w, tx).Err? then Some(Rethrown(UnsignedHex(w, tx).error))
    else if DeviceAnswer(w, UnsignedHex(w, tx).value).Err? then
      Some(MapSignError(DeviceAnswer(w, UnsignedHex(w, tx).value).error))
    else if !DeviceSigns(w, tx) then
      Some(Rethrown(w.serializeSigned(tx, Normalize(DeviceAnswer(w, UnsignedHex(w, tx).value).value, tx)).error))
    else None
  }

  /** The failure signing and broadcasting `tx` ends in, if any. */
  function SendFailure(w: World, signer: Authority, tx: UnsignedTx): (f: Option<Failure>)
    ensures f.None? <==> Signs(w, signer, tx) && w.broadcast(SignedRaw(w, signer, tx)).Ok?
    ensures SignFailure(w, signer, tx).Some? ==> f == SignFailure(w, signer, tx)
  {
    if SignFailure(w, signer, tx).Some? then SignFailure(w, signer, tx)
    else if w.broadcast(SignedRaw(w, signer, tx)).Err? then Some(Rethrown(w.broadcast(SignedRaw(w, signer, tx)).error))
    else None
  }

  /** The trace holds a sign call that the device refused with the blind-signing message. */
  ghost predicate RefusedIn(w: World, trace: seq<Step>)
  {
    exists h :: DeviceSign(LedgerPath(w.env), h, DeviceCall(w, h)) in trace && DeviceRefused(w, h)
  }

  /** The device path's operations once the unsigned bytes `rawHex` are known:
      the resolution calls, the sign call, and the signed serialization when
      the device signed. */
  function DeviceSteps(w: World, rawHex: string): seq<Step>
  {
    ResolveSteps(rawHex, NestedAttempts(ResolveAttempts(w, rawHex)))
      + [DeviceSign(LedgerPath(w.env), rawHex, DeviceCall(w, rawHex))]
      + (if DeviceAnswer(w, rawHex).Ok? then [SerializeSigned] else [])
  }

  /** Step 7 of `main` on the device path: serialise the record, negotiate a
      resolution for its bytes, sign at the configured path, normalise the
      signature to the encoding, and serialise the signed transaction. */
  method SignOnDevice(w: World, tx: UnsignedTx) returns (signed: Result<(Signature, string), Failure>, trace: seq<Step>)
    ensures UnsignedHex(w, tx).Err? ==>
      trace == [SerializeUnsigned] && signed == Err(Rethrown(UnsignedHex(w, tx).error))
    ensures UnsignedHex(w, tx).Ok? ==> trace == [SerializeUnsigned] + DeviceSteps(w, UnsignedHex(w, tx).value)
    ensures UnsignedHex(w, tx).Ok? && DeviceAnswer(w, UnsignedHex(w, tx).value).Err? ==>
      signed == Err(MapSignError(DeviceAnswer(w, UnsignedHex(w, tx).value).error))
    ensures signed.Err? ==> signed.error == BlindSigningRefused || signed.error.Rethrown?
    ensures signed == Err(BlindSigningRefused) ==>
      UnsignedHex(w, tx).Ok? && DeviceRefused(w, UnsignedHex(w, tx).value)
    ensures signed.Ok? ==> SignedBy(w, Device, tx, signed.value.0, signed.value.1)
    ensures UnsignedHex(w, tx).Ok? && DeviceAnswer(w, UnsignedHex(w, tx).value).Ok? && !DeviceSigns(w, tx) ==>
      signed == Err(Rethrown(w.serializeSigned(tx, Normalize(DeviceAnswer(w, UnsignedHex(w, tx).value).value, tx)).error))
    ensures DeviceSigns(w, tx) ==> signed.Ok?
  {
    trace := [SerializeUnsigned];
    var unsigned := w.serializeUnsigned(tx);
    if unsigned.Err? {
      return Err(Rethrown(unsigned.error)), trace;
    }
    var rawHex := SliceFrom(unsigned.value, 2);
    var path := LedgerPath(w.env);
    var resolution, tried, warned := ResolveWithFallback(ResolveAttempts(w, rawHex));
    trace := trace + ResolveSteps(rawHex, tried);
    var call := SignCallFor(resolution);
    trace := trace + [DeviceSign(path, rawHex, call)];
    var result := w.deviceSign(path, rawHex, call);
    if result.Err? {
      return Err(MapSignError(result.error)), trace;
    }
    var sig := Normalize(result.value, tx);
    trace := trace + [SerializeSigned];
    var sealed := w.serializeSigned(tx, sig);
    if sealed.Err? {
      return Err(Rethrown(sealed.error)), trace;
    }
    signed := Ok((ByDevice(unsigned.value, call, result.value, sig), sealed.value));
  }

  /** The device path's operations are in order and of the signing stages;
      every sign call is the negotiated one on `rawHex` at the configured path. */
  lemma DeviceStepsOrdered(w: World, rawHex: string)
    ensures var t := [SerializeUnsigned] + DeviceSteps(w, rawHex);
      && Ordered(t) && FirstStage(t) == Stage(SerializeUnsigned) && LastStage(t) <= Stage(SerializeSigned)
      && (forall p, h, c :: DeviceSign(p, h, c) in t ==>
            p == LedgerPath(w.env) && h == rawHex && c == DeviceCall(w, rawHex))
      && DeviceSign(LedgerPath(w.env), rawHex, DeviceCall(w, rawHex)) in t
      && (forall h :: ResolveTransaction(h, ResolutionStrategies[1]) in t ==>
            h == rawHex && w.resolveTransaction(rawHex, ResolutionStrategies[0]).Err?)
  {
    var attempt := ResolveAttempts(w, rawHex);
    var tried := NestedAttempts(attempt);
    var sign := DeviceSign(LedgerPath(w.env), rawHex, DeviceCall(w, rawHex));
    var tail := if DeviceAnswer(w, rawHex).Ok? then [SerializeSigned] else [];
    SigningStepsOrdered(rawHex, tried, sign, tail);
    assert [SerializeUnsigned] + DeviceSteps(w, rawHex) == [SerializeUnsigned] + ResolveSteps(rawHex, tried) + [sign] + tail;
    assert tried == ResolutionStrategies ==> attempt(ResolutionStrategies[0]).Err?;
  }

  /** The shape of a device-signing trace: the serialization, the resolution
      attempts in strategy order, one sign call, then possibly the signed
      serialization. */
  lemma SigningStepsOrdered(rawHex: string, tried: seq<Strategy>, sign: Step, tail: seq<Step>)
    requires tried == [ResolutionStrategies[0]] || tried == ResolutionStrategies
    requires sign.DeviceSign? && (tail == [] || tail == [SerializeSigned])
    ensures var t := [SerializeUnsigned] + ResolveSteps(rawHex, tried) + [sign] + tail;
      && Ordered(t) && FirstStage(t) == Stage(SerializeUnsigned) && LastStage(t) <= Stage(SerializeSigned)
      && sign in t && (forall p, h, c :: DeviceSign(p, h, c) in t ==> DeviceSign(p, h, c) == sign)
      && (forall h :: ResolveTransaction(h, ResolutionStrategies[1]) in t ==>
            h == rawHex && tried == ResolutionStrategies)
  {
    var r := ResolveSteps(rawHex, tried);
    var t := [SerializeUnsigned] + r + [sign] + tail;
    assert t[1 + |tried|] == sign;
  }

  /** Step 7 of `main`: sign on the device or with the local key. */
  method Sign(w: World, signer: Authority, tx: UnsignedTx) returns (signed: Result<(Signature, string), Failure>, trace: seq<Step>)
    ensures Ordered(trace) && trace != []
    ensures FirstStage(trace) >= Stage(SerializeUnsigned)
    ensures LastStage(trace) <= Stage(SerializeSigned)
    ensures !Broadcasted(trace) && CloseTransport !in trace
    ensures forall h :: ResolveTransaction(h, ResolutionStrategies[1]) in trace ==>
      w.resolveTransaction(h, ResolutionStrategies[0]).Err?
    ensures forall p, h, c :: DeviceSign(p, h, c) in trace ==>
      signer == Device && p == LedgerPath(w.env) && UnsignedHex(w, tx) == Ok(h) && c == DeviceCall(w, h)
    ensures signed.Err? ==> signed.error == BlindSigningRefused || signed.error.Rethrown?
    ensures signed == Err(BlindSigningRefused) ==> signer == Device && RefusedIn(w, trace)
    ensures signed.Ok? ==> SignedBy(w, signer, tx, signed.value.0, signed.value.1)
    ensures signer == Device && UnsignedHex(w, tx).Err? ==> signed == Err(Rethrown(UnsignedHex(w, tx).error))
    ensures signer == Device && UnsignedHex(w, tx).Ok? && DeviceAnswer(w, UnsignedHex(w, tx).value).Err? ==>
      signed == Err(MapSignError(DeviceAnswer(w, UnsignedHex(w, tx).value).error))
    ensures signer == Device && UnsignedHex(w, tx).Ok? && DeviceAnswer(w, UnsignedHex(w, tx).value).Ok? && !DeviceSigns(w, tx) ==>
      signed == Err(Rethrown(w.serializeSigned(tx, Normalize(DeviceAnswer(w, UnsignedHex(w, tx).value).value, tx)).error))
    ensures signer == LocalKey && w.keySign(tx).Err? ==> signed == Err(Rethrown(w.keySign(tx).error))
    ensures Signs(w, signer, tx) ==> signed.Ok?
    ensures signed.Err? <==> SignFailure(w, signer, tx).Some?
    ensures signed.Err? ==> signed.error == SignFailure(w, signer, tx).value
  {
    if signer == Device {
      signed, trace := SignOnDevice(w, tx);
      if UnsignedHex(w, tx).Ok? {
        DeviceStepsOrdered(w, UnsignedHex(w, tx).value);
      }
    } else {
      trace := [KeySign];
      var result := w.keySign(tx);
      if result.Err? {
        return Err(Rethrown(result.error)), trace;
      }
      signed := Ok((ByKey, result.value));
    }
    BeforeBroadcast(trace);
  }

  /** A signed and broadcast deployment. */
  datatype Sent = Sent(signature: Signature, raw: string, contractAddress: string)

  /** A trace that ends by the signed serialization has neither broadcast
      nor closed the transport. */
  lemma BeforeBroadcast(t: seq<Step>)
    requires Ordered(t) && t != [] && LastStage(t) <= Stage(SerializeSigned)
    ensures !Broadcasted(t) && CloseTransport !in t
  {
    NotBroadcasted(t);
    StageBounds(t, CloseTransport);
  }

  /** The broadcast and, in the `finally`, the close of an opened transport. */
  function BroadcastSteps(w: World, raw: string): (steps: seq<Step>)
    ensures 1 <= |steps| <= 2 && steps[0] == Broadcast(raw)
    ensures CloseTransport in steps <==> UseLedger(w.env) && w.transportOpens
  {
    [Broadcast(raw)] + (if UseLedger(w.env) && w.transportOpens then [CloseTransport] else [])
  }

  /** Appending the broadcast operations to a signing trace keeps it ordered,
      adds no resolution or sign call, broadcasts, and closes the transport
      exactly when it was opened. */
  lemma JoinBroadcast(w: World, a: seq<Step>, raw: string)
    requires Ordered(a) && a != [] && LastStage(a) <= Stage(SerializeSigned)
    ensures var t := a + BroadcastSteps(w, raw);
      && Ordered(t) && FirstStage(t) == FirstStage(a)
      && (forall h :: ResolveTransaction(h, ResolutionStrategies[1]) in t <==> ResolveTransaction(h, ResolutionStrategies[1]) in a)
      && (forall p, h, c :: DeviceSign(p, h, c) in t <==> DeviceSign(p, h, c) in a)
      && (CloseTransport in t <==> UseLedger(w.env) && w.transportOpens)
      && Broadcasted(t)
  {
    var b := BroadcastSteps(w, raw);
    OrderedAppend([], Broadcast(raw));
    if UseLedger(w.env) && w.transportOpens {
      OrderedAppend([Broadcast(raw)], CloseTransport);
    }
    OrderedConcat(a, b);
    StageBounds(a, CloseTransport);
    assert (a + b)[|a|] == Broadcast(raw);
  }

  /** Step 7 and the broadcast of `main`: sign with the chosen authority,
      broadcast, and in the `finally` close a transport that was opened. */
  method SignAndBroadcast(w: World, signer: Authority, tx: UnsignedTx) returns (sent: Result<Sent, Failure>, trace: seq<Step>)
    ensures Ordered(trace) && trace != []
    ensures FirstStage(trace) >= Stage(SerializeUnsigned)
    ensures forall h :: ResolveTransaction(h, ResolutionStrategies[1]) in trace ==>
      w.resolveTransaction(h, ResolutionStrategies[0]).Err?
    ensures forall p, h, c :: DeviceSign(p, h, c) in trace ==>
      signer == Device && p == LedgerPath(w.env) && UnsignedHex(w, tx) == Ok(h) && c == DeviceCall(w, h)
    ensures sent.Err? ==> sent.error == BlindSigningRefused || sent.error.Rethrown?
    ensures sent == Err(BlindSigningRefused) ==>
      signer == Device && RefusedIn(w, trace) && CloseTransport !in trace
    ensures CloseTransport in trace <==> UseLedger(w.env) && w.transportOpens && Broadcasted(trace)
    ensures sent.Ok? ==>
      SignedBy(w, signer, tx, sent.value.signature, sent.value.raw) &&
      w.broadcast(sent.value.raw) == Ok(sent.value.contractAddress)
    ensures Broadcasted(trace) <==> Signs(w, signer, tx)
    ensures Signs(w, signer, tx) && w.broadcast(SignedRaw(w, signer, tx)).Err? ==>
      sent == Err(Rethrown(w.broadcast(SignedRaw(w, signer, tx)).error))
    ensures Signs(w, signer, tx) && w.broadcast(SignedRaw(w, signer, tx)).Ok? ==> sent.Ok?
    ensures signer == Device && UnsignedHex(w, tx).Ok? && DeviceRefused(w, UnsignedHex(w, tx).value) ==>
      sent == Err(BlindSigningRefused)
    ensures sent.Err? <==> SendFailure(w, signer, tx).Some?
    ensures sent.Err? ==> sent.error == SendFailure(w, signer, tx).value
  {
    var signed;
    signed, trace := Sign(w, signer, tx);
    if signed.Err? {
      return Err(signed.error), trace;
    }
    var (signature, raw) := signed.value;
    SignedRawUnique(w, signer, tx, signature, raw);
    JoinBroadcast(w, trace, raw);
    trace := trace + BroadcastSteps(w, raw);
    var receipt := w.broadcast(raw);
    if receipt.Err? {
      return Err(Rethrown(receipt.error)), trace;
    }
    sent := Ok(Sent(signature, raw, receipt.value));
  }

  /** Every answer from the artifact read to the signature is a success for
      `sender`: the point at which the script broadcasts. */
  predicate SignsRecord(w: World, sender: Sender, chainId: nat)
  {
    && Encodes(w, sender.address) && ProviderAnswers(w, sender.address)
    && Signs(w, sender.authority, BuiltRecord(w, sender.address, chainId))
  }

  /** Every answer from the artifact read to the broadcast is a success for `sender`. */
  predicate Delivers(w: World, sender: Sender, chainId: nat)
  {
    && SignsRecord(w, sender, chainId)
    && w.broadcast(SignedRaw(w, sender.authority, BuiltRecord(w, sender.address, chainId))).Ok?
  }

  /** The failure steps 3 to 7 and the broadcast end in for `sender`, if any. */
  function DeliverFailure(w: World, sender: Sender, chainId: nat): (f: Option<Failure>)
    ensures f.None? <==> Delivers(w, sender, chainId)
    ensures BuildFailure(w, sender.address).Some? ==> f == BuildFailure(w, sender.address)
  {
    if BuildFailure(w, sender.address).Some? then BuildFailure(w, sender.address)
    else SendFailure(w, sender.authority, BuiltRecord(w, sender.address, chainId))
  }

  /** The record for `sender` is built and serialises, and the device refuses
      its bytes with the blind-signing message. */
  predicate Refuses(w: World, sender: Sender, chainId: nat)
  {
    && sender.authority == Device
    && Encodes(w, sender.address) && ProviderAnswers(w, sender.address)
    && UnsignedHex(w, BuiltRecord(w, sender.address, chainId)).Ok?
    && DeviceRefused(w, UnsignedHex(w, BuiltRecord(w, sender.address, chainId)).value)
  }

  /** Steps 3 to 7 and the broadcast of `main`, once the sender is known. */
  method Deliver(w: World, sender: Sender, chainId: nat) returns (result: Result<Deployment, Failure>, trace: seq<Step>)
    ensures Ordered(trace) && trace != [] && FirstStage(trace) == Stage(ReadArtifact)
    ensures result.Err? ==>
      ArityRejected(w, result.error) || result.error == BlindSigningRefused || result.error.Rethrown?
    ensures PreflightOnly(trace) || ArityChecked(w)
    ensures forall h :: ResolveTransaction(h, ResolutionStrategies[1]) in trace ==>
      w.resolveTransaction(h, ResolutionStrategies[0]).Err?
    ensures forall p, h, c :: DeviceSign(p, h, c) in trace ==>
      sender.authority == Device && p == LedgerPath(w.env) && c == DeviceCall(w, h)
    ensures result == Err(BlindSigningRefused) ==>
      sender.authority == Device && RefusedIn(w, trace) && CloseTransport !in trace
    ensures CloseTransport in trace <==> UseLedger(w.env) && w.transportOpens && Broadcasted(trace)
    ensures result.Ok? ==> var d := result.value;
      && d.from == sender.address && d.signer == sender.authority
      && BuiltFor(w, d.from, chainId, d.tx)
      && SignedBy(w, d.signer, d.tx, d.signature, d.raw)
      && w.broadcast(d.raw) == Ok(d.contractAddress)
    ensures ArityWrong(w) ==> result == Err(ArityMismatch(ConstructorInputCount(w.artifact.value.abi)))
    ensures Delivers(w, sender, chainId) ==> result.Ok?
    ensures Refuses(w, sender, chainId) ==> result == Err(BlindSigningRefused)
    ensures result.Err? <==> DeliverFailure(w, sender, chainId).Some?
    ensures result.Err? ==> result.error == DeliverFailure(w, sender, chainId).value
    ensures Broadcasted(trace) <==> SignsRecord(w, sender, chainId)
  {
    var built;
    built, trace := BuildUnsigned(w, sender.address, chainId);
    if built.Err? {
      BeforeSigning(trace);
      return Err(built.error), trace;
    }
    var tx := built.value;
    var sent, sendSteps := SignAndBroadcast(w, sender.authority, tx);
    JoinBeforeSigning(trace, sendSteps);
    trace := trace + sendSteps;
    if sent.Err? {
      return Err(sent.error), trace;
    }
    var d := sent.value;
    result := Ok(Deployment(sender.address, sender.authority, tx, d.signature, d.raw, d.contractAddress));
  }

  /** Every answer `main` waits for is a success: a supported network, a
      sender, and a cooperating artifact, provider, signer and broadcast. */
  predicate Cooperates(w: World)
  {
    && ResolveNetwork(w.env).Ok?
    && SenderAvailable(w)
    && Delivers(w, ChosenSender(w), ChainIds[NetworkName(w.env)])
  }

  /** The failure `main` ends in, if any: an unsupported network, no signing
      authority, a rethrown key error, or the failure of the later steps for
      the chosen sender. */
  function RunFailure(w: World): (f: Option<Failure>)
    ensures f.None? <==> Cooperates(w)
    ensures ResolveNetwork(w.env).Ok? && SenderAvailable(w) ==>
      f == DeliverFailure(w, ChosenSender(w), ChainIds[NetworkName(w.env)])
  {
    if ResolveNetwork(w.env).Err? then Some(ResolveNetwork(w.env).error)
    else if AddressSource(w) == LocalKey && EnvOr(w.env, "DEPLOYER_PK", "") == "" then Some(NoSigningAuthority)
    else if AddressSource(w) == LocalKey && w.keyAddress.Err? then Some(Rethrown(w.keyAddress.error))
    else DeliverFailure(w, ChosenSender(w), ChainIds[NetworkName(w.env)])
  }

  /** `main`, with the signer chosen by the address source (see
      `SignerAsWritten` for the rule as the script writes it). */
  method RunDeployment(w: World) returns (result: Result<Deployment, Failure>, trace: seq<Step>)
    // the network table is consulted before anything else
    ensures ResolveNetwork(w.env).Err? ==>
      result == Err(UnsupportedNetwork(NetworkName(w.env))) && trace == []
    // operations happen in pipeline order
    ensures Ordered(trace)
    // no signing authority: no device address and no private key
    ensures result == Err(NoSigningAuthority) <==>
      ResolveNetwork(w.env).Ok? && AddressSource(w) == LocalKey && EnvOr(w.env, "DEPLOYER_PK", "") == ""
    // the arity check precedes encoding, fee, nonce and gas lookups
    ensures result.Err? && result.error.ArityMismatch? ==> ArityRejected(w, result.error)
    ensures PreflightOnly(trace) || ArityChecked(w)
    // resolution shape B only after shape A failed on the same bytes; the sign call follows the resolution
    ensures forall h :: ResolveTransaction(h, ResolutionStrategies[1]) in trace ==>
      w.resolveTransaction(h, ResolutionStrategies[0]).Err?
    ensures forall p, h, c :: DeviceSign(p, h, c) in trace ==> p == LedgerPath(w.env) && c == DeviceCall(w, h)
    // the refusal becomes the blind-signing error, and the transport stays open
    ensures result == Err(BlindSigningRefused) ==> RefusedIn(w, trace) && CloseTransport !in trace
    // the transport is closed exactly when it was opened and the broadcast was reached
    ensures CloseTransport in trace <==> OpenTransport in trace && w.transportOpens && Broadcasted(trace)
    // what a completed deployment consists of
    ensures result.Ok? ==> var d := result.value;
      && ResolveNetwork(w.env).Ok?
      && d.signer == AddressSource(w)
      && (d.signer == Device ==> w.deviceAddress == Ok(d.from))
      && (d.signer == LocalKey ==> w.keyAddress == Ok(d.from))
      && BuiltFor(w, d.from, ChainIds[NetworkName(w.env)], d.tx)
      && SignedBy(w, d.signer, d.tx, d.signature, d.raw)
      && w.broadcast(d.raw) == Ok(d.contractAddress)
    // the forward directions: a wrong arity, a refusal, a cooperating world
    ensures ResolveNetwork(w.env).Ok? && SenderAvailable(w) && ArityWrong(w) ==>
      result == Err(ArityMismatch(ConstructorInputCount(w.artifact.value.abi)))
    ensures ResolveNetwork(w.env).Ok? && SenderAvailable(w) && Refuses(w, ChosenSender(w), ChainIds[NetworkName(w.env)]) ==>
      result == Err(BlindSigningRefused)
    ensures Cooperates(w) ==> result.Ok?
    // every failure is the first answer that is not a success
    ensures result.Err? <==> RunFailure(w).Some?
    ensures result.Err? ==> result.error == RunFailure(w).value
    // the broadcast is reached exactly when every answer up to the signature is a success
    ensures Broadcasted(trace) <==>
      ResolveNetwork(w.env).Ok? && SenderAvailable(w) && SignsRecord(w, ChosenSender(w), ChainIds[NetworkName(w.env)])
    ensures result.Ok? ==> Broadcasted(trace)
    ensures result.Ok? && UseLedger(w.env) && w.transportOpens ==> CloseTransport in trace
  {
    var net := ResolveNetwork(w.env);
    if net.Err? {
      return Err(net.error), [];
    }
    var sender;
    sender, trace := AcquireSender(w);
    if sender.Err? {
      BeforeSigning(trace);
      assert !SenderAvailable(w);
      return Err(sender.error), trace;
    }
    assert sender.value == ChosenSender(w) && net.value.chainId == ChainIds[NetworkName(w.env)];
    var delivered, rest := Deliver(w, sender.value, net.value.chainId);
    JoinAfterSender(trace, rest);
    trace := trace + rest;
    result := delivered;
  }

  // ----- example worlds: the forward promises of `RunDeployment` are reachable -----

  /** A world where the local key deploys: `USE_LEDGER=0`, `DEPLOYER_PK` set,
      an artifact whose constructor takes `inputs` inputs, and every
      provider and signer answer a success. */
  function KeyWorld(inputs: nat): World
  {
    World(
      map["USE_LEDGER" := "0", "DEPLOYER_PK" := "key"],
      false,
      Err(Thrown("", "")),
      Ok("0xsender"),
      Ok(Artifact([AbiEntry("constructor", Some(seq(inputs, _ => "uint256")))], "0x6080")),
      _ => None,
      _ => Ok("0x00"),
      Ok(FeeData(None, None, None)),
      _ => Ok(0),
      (_, _) => Ok(21000),
      _ => Ok("0x02"),
      (_, _) => Err(Thrown("", "")),
      (_, _, _) => Err(Thrown("", "")),
      (_, _) => Ok("0x02f8"),
      _ => Ok("0xf8"),
      _ => Ok("0xcontract"))
  }

  /** In a key world the network is mainnet and the key supplies the sender. */
  lemma KeyWorldSender(inputs: nat)
    ensures NetworkName(KeyWorld(inputs).env) == "mainnet" && ResolveNetwork(KeyWorld(inputs).env).Ok?
    ensures SenderAvailable(KeyWorld(inputs)) && ChosenSender(KeyWorld(inputs)) == Sender("0xsender", LocalKey)
    ensures ConstructorInputCount(KeyWorld(inputs).artifact.value.abi) == inputs
  {
  }

  /** With five constructor inputs every answer cooperates, so `main` deploys. */
  lemma KeyWorldCooperates()
    ensures Cooperates(KeyWorld(5))
  {
    KeyWorldSender(5);
    assert Encodes(KeyWorld(5), "0xsender") && ProviderAnswers(KeyWorld(5), "0xsender");
  }

  /** With three constructor inputs the world reaches the arity error. */
  lemma KeyWorldArityWrong()
    ensures ResolveNetwork(KeyWorld(3).env).Ok? && SenderAvailable(KeyWorld(3)) && ArityWrong(KeyWorld(3))
  {
    KeyWorldSender(3);
  }

  /** A world where the device supplies the sender and then refuses to sign
      blind: no resolution call succeeds and the sign call fails with the
      refusal phrase. */
  function RefusingWorld(): World
  {
    World(
      map[],
      true,
      Ok("0xdevice"),
      Err(Thrown("", "")),
      Ok(Artifact([AbiEntry("constructor", Some(["string", "string", "address", "uint256", "uint256"]))], "0x6080")),
      _ => None,
      _ => Ok("0x00"),
      Ok(FeeData(None, None, Some(Gwei))),
      _ => Ok(7),
      (_, _) => Err(Thrown("", "")),
      _ => Ok("0x02ab"),
      (_, _) => Err(Thrown("", "")),
      (_, _, _) => Err(Thrown(RefusalPhrase, "")),
      (_, _) => Ok("0x02f8"),
      _ => Err(Thrown("", "")),
      _ => Ok("0xcontract"))
  }

  /** In the refusing world the network is mainnet and the device supplies the sender. */
  lemma RefusingWorldSender()
    ensures NetworkName(RefusingWorld().env) == "mainnet" && ResolveNetwork(RefusingWorld().env).Ok?
    ensures SenderAvailable(RefusingWorld()) && ChosenSender(RefusingWorld()) == Sender("0xdevice", Device)
  {
  }

  /** In the refusing world the record is built for the device's address. */
  lemma RefusingWorldBuilds()
    ensures Encodes(RefusingWorld(), "0xdevice") && ProviderAnswers(RefusingWorld(), "0xdevice")
  {
    assert ConstructorInputCount(RefusingWorld().artifact.value.abi) == 5;
  }

  /** The refusing world reaches the blind-signing error. */
  lemma RefusingWorldRefuses()
    ensures ResolveNetwork(RefusingWorld().env).Ok? && SenderAvailable(RefusingWorld())
    ensures Refuses(RefusingWorld(), ChosenSender(RefusingWorld()), ChainIds[NetworkName(RefusingWorld().env)])
  {
    var w := RefusingWorld();
    RefusingWorldSender();
    RefusingWorldBuilds();
    var tx := BuiltRecord(w, "0xdevice", ChainIds["mainnet"]);
    assert UnsignedHex(w, tx) == Ok(SliceFrom("0x02ab", 2));
    assert Includes(Describe(Thrown(RefusalPhrase, "")), RefusalPhrase) by {
      assert StartsWith(RefusalPhrase, RefusalPhrase);
    }
  }
}
