/** The device signing steps of the deployment script: the ordered
    fallback for obtaining a clear-signing resolution, the choice of sign
    call, the mapping of the device's refusal, and the normalisation of
    the returned signature. */
module Signing {
  import opened Wrappers
  import opened Text
  import opened Numerals
  import opened Fees
  import opened Transaction
  import opened Failures

  /** The interpretation toggles passed to `resolveTransaction`. */
  datatype LoadConfig = LoadConfig(externalPlugins: bool, erc20: bool, nft: bool)

  const Toggles: LoadConfig := LoadConfig(true, true, false)

  /** The two call shapes of `resolveTransaction`: the toggles as the only
      options argument (older SDKs), or an empty resolution config followed
      by the toggles as load config (newer SDKs). */
  datatype Strategy =
    | OptionsArgument(options: LoadConfig)
    | EmptyConfigThenLoadConfig(loadConfig: LoadConfig)

  /** The fallback order: shape A, then shape B. */
  const ResolutionStrategies: seq<Strategy> :=
    [OptionsArgument(Toggles), EmptyConfigThenLoadConfig(Toggles)]

  /** The clear-signing metadata the device consumes; opaque to the script. */
  datatype Resolution = Resolution(metadata: string)

  /** Tries the strategies in order and stops at the first call that does
      not throw; its value, possibly null, is the resolution. When every call
      throws the resolution is null and a warning is printed. */
  method NegotiateResolution(strategies: seq<Strategy>, attempt: Strategy -> Result<Option<Resolution>, Thrown>)
    returns (resolution: Option<Resolution>, tried: seq<Strategy>, warned: bool)
    ensures tried <= strategies
    ensures forall i :: 0 <= i < |tried| - 1 ==> attempt(tried[i]).Err?
    ensures warned <==> forall i :: 0 <= i < |strategies| ==> attempt(strategies[i]).Err?
    ensures warned ==> tried == strategies && resolution.None?
    ensures !warned ==> tried != [] && attempt(tried[|tried| - 1]) == Ok(resolution)
  {
    tried := [];
    var i := 0;
    while i < |strategies|
      invariant 0 <= i <= |strategies|
      invariant tried == strategies[..i]
      invariant forall j :: 0 <= j < i ==> attempt(strategies[j]).Err?
    {
      var outcome := attempt(strategies[i]);
      tried := tried + [strategies[i]];
      if outcome.Ok? {
        resolution, warned := outcome.value, false;
        return;
      }
      i := i + 1;
    }
    resolution, warned := None, true;
  }

  /** The script's nested try/catch written out: shape A's value when that
      call does not throw, else shape B's, else null. */
  function NestedResolution(attempt: Strategy -> Result<Option<Resolution>, Thrown>): (r: Option<Resolution>)
    ensures r.Some? ==>
      attempt(ResolutionStrategies[0]) == Ok(r) ||
      (attempt(ResolutionStrategies[0]).Err? && attempt(ResolutionStrategies[1]) == Ok(r))
    ensures attempt(ResolutionStrategies[0]).Err? && attempt(ResolutionStrategies[1]).Err? ==> r.None?
    ensures attempt(ResolutionStrategies[0]).Ok? ==> r == attempt(ResolutionStrategies[0]).value
    ensures attempt(ResolutionStrategies[0]).Err? && attempt(ResolutionStrategies[1]).Ok? ==>
      r == attempt(ResolutionStrategies[1]).value
  {
    match attempt(ResolutionStrategies[0])
    case Ok(res) => res
    case Err(_) =>
      match attempt(ResolutionStrategies[1])
      case Ok(res) => res
      case Err(_) => None
  }

  /** The calls the nested try/catch makes: shape B only after shape A threw. */
  function NestedAttempts(attempt: Strategy -> Result<Option<Resolution>, Thrown>): seq<Strategy>
  {
    if attempt(ResolutionStrategies[0]).Ok? then [ResolutionStrategies[0]] else ResolutionStrategies
  }

  /** The fallback loop over the two call shapes behaves as the nested
      try/catch: the same calls, the same resolution, and a warning exactly
      when both shapes throw. */
  method ResolveWithFallback(attempt: Strategy -> Result<Option<Resolution>, Thrown>)
    returns (resolution: Option<Resolution>, tried: seq<Strategy>, warned: bool)
    ensures resolution == NestedResolution(attempt)
    ensures tried == NestedAttempts(attempt)
    ensures warned <==> attempt(ResolutionStrategies[0]).Err? && attempt(ResolutionStrategies[1]).Err?
  {
    resolution, tried, warned := NegotiateResolution(ResolutionStrategies, attempt);
    if |tried| == 2 {
      assert tried == ResolutionStrategies;
    } else {
      assert tried == [ResolutionStrategies[0]];
    }
  }

  /** The sign call: three arguments when there is a resolution, the
      two-argument (blind) call when it is null. */
  datatype SignCall = WithResolution(resolution: Resolution) | Blind

  function SignCallFor(resolution: Option<Resolution>): (c: SignCall)
    ensures c.Blind? <==> resolution.None?
    ensures c.WithResolution? ==> resolution == Some(c.resolution)
  {
    match resolution
    case Some(res) => WithResolution(res)
    case None => Blind
  }

  /** The part of the device app's refusal that the script recognises. */
  const RefusalPhrase: string := "please provide the 'resolution' parameter"

  /** A sign error whose description mentions the refusal phrase becomes
      the blind-signing error; any other is rethrown unchanged. */
  function MapSignError(e: Thrown): (f: Failure)
    ensures f == BlindSigningRefused <==> Includes(Describe(e), RefusalPhrase)
    ensures f != BlindSigningRefused ==> f == Rethrown(e)
  {
    if Includes(Describe(e), RefusalPhrase) then BlindSigningRefused else Rethrown(e)
  }

  /** The device's `v` as returned: a number or a string. */
  datatype RawV = VNumber(n: int) | VString(s: string)

  /** The signature as the device returns it; `r` and `s` are hexadecimal
      strings that may lack leading zeros. */
  datatype RawSig = RawSig(v: RawV, r: string, s: string)

  /** The signature fields handed to the serializer. */
  datatype NormalizedSig = NormalizedSig(v: JsNum, r: string, s: string)

  /** `Number(v)`. */
  function NumberOf(v: RawV): (r: JsNum)
    ensures v.VNumber? ==> r == Num(v.n)
    ensures v.VString? && r.Num? ==> r.value >= 0
    ensures v.VString? && v.s == "" ==> r == Num(0)
  {
    match v
    case VNumber(n) => Num(n)
    case VString(s) => NumberOfString(s)
  }

  /** `Number(sig.v) % 2`: the EIP-1559 parity bit. */
  function YParity(v: RawV): (p: JsNum)
    ensures p.NaN? <==> NumberOf(v).NaN?
    ensures p.Num? && NumberOf(v).value >= 0 ==> p.value == NumberOf(v).value % 2
    ensures p.Num? && NumberOf(v).value >= 0 ==> p.value == 0 || p.value == 1
  {
    RemainderByTwo(NumberOf(v))
  }

  /** A device `v` of 27 has parity 1, whether returned as a number or a numeral. */
  lemma YParityOf27()
    ensures YParity(VNumber(27)) == Num(1)
    ensures YParity(VString("27")) == Num(1)
    ensures YParity(VString("0x1b")) == Num(1)
  {
    NumberReadsDecimal(27);
    assert NatToString(27) == "27";
    NumberReadsHex(27);
    assert NatToHex(27) == "1b";
  }

  /** The legacy `v`: a string starting with "0x" goes through
      `parseInt(v, 16)`, anything else through `Number(v)`. */
  function LegacyV(v: RawV): (n: JsNum)
    ensures n.Num? ==> v.VNumber? || n.value >= 0
  {
    if v.VString? && StartsWith(v.s, "0x") then ParseIntHex(v.s) else NumberOf(v)
  }

  /** Whatever way the device writes a natural number, the legacy `v` is that number. */
  lemma LegacyVReadsNumerals(n: nat)
    ensures LegacyV(VNumber(n)) == Num(n)
    ensures LegacyV(VString(NatToString(n))) == Num(n)
    ensures LegacyV(VString("0x" + NatToHex(n))) == Num(n)
  {
    NumberReadsDecimal(n);
    var d := NatToString(n);
    assert !StartsWith(d, "0x") by {
      if |d| >= 2 { assert '0' <= d[1] <= '9'; }
    }
    HexRoundTrip(n);
    ParseIntHexAgreesWithNumber(NatToHex(n));
    assert StartsWith("0x" + NatToHex(n), "0x");
  }

  /** `"0x" + x.padStart(64, "0")`. */
  function PadComponent(x: string): (p: string)
    ensures |p| == 2 + (if |x| < 64 then 64 else |x|)
  {
    "0x" + PadStart(x, 64, '0')
  }

  /** A padded component is "0x", then zeros, then `x`, at least 64 digits long. */
  lemma PadComponentShape(x: string)
    ensures var p := PadComponent(x);
      && |p| == 2 + (if |x| < 64 then 64 else |x|)
      && StartsWith(p, "0x") && p[|p| - |x|..] == x
      && (forall i :: 2 <= i < |p| - |x| ==> p[i] == '0')
      && (|x| >= 64 ==> p == "0x" + x)
  {
    var p := PadComponent(x);
    PadStartShape(x, 64, '0');
    assert p[2..] == PadStart(x, 64, '0');
    assert p[|p| - |x|..] == p[2..][|p[2..]| - |x|..];
  }

  /** Padding keeps the number a hexadecimal component denotes. */
  lemma PadComponentKeepsValue(x: string)
    requires AllHex(x)
    ensures AllHex(PadComponent(x)[2..])
    ensures HexValue(PadComponent(x)[2..]) == HexValue(x)
  {
    var p := PadComponent(x);
    assert p[2..] == PadStart(x, 64, '0');
    PadStartShape(x, 64, '0');
    if |x| < 64 {
      HexLeadingZeros(64 - |x|, x);
    }
  }

  /** Padding an already padded component changes nothing. */
  lemma PadComponentIdempotent(x: string)
    ensures PadComponent(PadComponent(x)[2..]) == PadComponent(x)
  {
    var p := PadComponent(x);
    assert p[2..] == PadStart(x, 64, '0');
    PadStartIdempotent(x, 64, '0');
  }

  /** The recovery field matches the encoding `tx.type` names: the parity
      bit of `Number(v)` for type 2, the legacy reading of `v` otherwise;
      `r` and `s` are padded to 64 digits. */
  function Normalize(sig: RawSig, tx: UnsignedTx): (n: NormalizedSig)
    ensures TypeField(tx) == Some(2) ==> n.v == RemainderByTwo(NumberOf(sig.v))
    ensures TypeField(tx) == Some(2) && NumberOf(sig.v).Num? && NumberOf(sig.v).value >= 0 ==>
      n.v == Num(NumberOf(sig.v).value % 2) && (n.v == Num(0) || n.v == Num(1))
    ensures TypeField(tx) != Some(2) ==> n.v == LegacyV(sig.v)
    ensures n.r == PadComponent(sig.r) && n.s == PadComponent(sig.s)
  {
    var v := if TypeField(tx) == Some(2) then YParity(sig.v) else LegacyV(sig.v);
    NormalizedSig(v, PadComponent(sig.r), PadComponent(sig.s))
  }
}
