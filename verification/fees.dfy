/** The fee-model and gas-limit decisions of the deployment script, over
    values already fetched from the network. */
module Fees {
  import opened Wrappers
  import opened Failures

  /** What `getFeeData()` reports; each field may be missing (null). */
  datatype FeeData = FeeData(maxFeePerGas: Option<nat>, maxPriorityFeePerGas: Option<nat>, gasPrice: Option<nat>)

  /** The fee fields spread into the transaction: legacy `{gasPrice}` or
      EIP-1559 `{type: 2, maxFeePerGas, maxPriorityFeePerGas}`. */
  datatype GasFields =
    | Legacy(gasPrice: nat)
    | Type2(maxFeePerGas: nat, maxPriorityFeePerGas: nat)

  const Gwei: nat := 1_000_000_000

  /** `parseUnits("3", "gwei")`. */
  const DefaultGasPrice: nat := 3 * Gwei

  /** `buildGasFields`: type 2 exactly when both EIP-1559 fields are
      reported, otherwise legacy with the reported gas price or 3 gwei. */
  function BuildGasFields(fee: FeeData): (r: GasFields)
    ensures r.Type2? <==> fee.maxFeePerGas.Some? && fee.maxPriorityFeePerGas.Some?
    ensures r.Type2? ==>
      r.maxFeePerGas == fee.maxFeePerGas.value && r.maxPriorityFeePerGas == fee.maxPriorityFeePerGas.value
    ensures r.Legacy? && fee.gasPrice.Some? ==> r.gasPrice == fee.gasPrice.value
    ensures r.Legacy? && fee.gasPrice.None? ==> r.gasPrice == 3_000_000_000
  {
    if fee.maxFeePerGas.Some? && fee.maxPriorityFeePerGas.Some? then
      Type2(fee.maxFeePerGas.value, fee.maxPriorityFeePerGas.value)
    else
      Legacy(if fee.gasPrice.Some? then fee.gasPrice.value else DefaultGasPrice)
  }

  /** The gas limit used when estimation fails. */
  const FallbackGasLimit: nat := 5_000_000

  /** `safeEstimateGas`: a successful estimate plus 20 %, never below the
      estimate; any failure gives the fallback. */
  function SafeEstimateGas(estimate: Result<nat, Thrown>): (limit: nat)
    ensures estimate.Err? ==> limit == 5_000_000
    ensures estimate.Ok? ==> estimate.value <= limit
  {
    match estimate
    case Ok(est) => est * 120 / 100
    case Err(_) => FallbackGasLimit
  }

  /** The limit for a successful estimate is 120 % of it, rounded down. */
  lemma SafeEstimateGasMargin(est: nat)
    ensures var limit := SafeEstimateGas(Ok(est));
      limit * 100 <= est * 120 < limit * 100 + 100
  {
  }
}
