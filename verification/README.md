# ZRNCoin deployment pipeline and ABI fingerprint, in Dafny

This project models two parts of the zarincoin repository.

- `scripts/deploy-ledger-zarin.js` deploys the ZRNCoin contract. It picks the
  network from the environment and chooses a signing authority: a Ledger
  hardware device, or the `DEPLOYER_PK` private key when no device address is
  available. It checks that the artifact's constructor takes five inputs. It
  builds the unsigned contract creation:
  - the fee fields (EIP-1559 type 2 or legacy);
  - the nonce;
  - a gas limit padded by 20 %, or 5 000 000 when estimation fails.

  On the device it serialises the unsigned record and, for those bytes,
  negotiates a clear-signing resolution, trying two call shapes in order. It then signs, with the resolution or blind. It turns
  the device's "resolution required" refusal into its own error. It
  normalises `v`, `r` and `s` to the transaction's encoding and broadcasts.
- `tasks/fingerprint.js` holds `stable(obj)`. It is the canonical JSON text
  of an ABI: object keys are sorted, arrays keep their order, and leaves
  print as `JSON.stringify` prints them.

Modules:

- `Wrappers`: `Option`, `Result`.
- `Text`: the string built-ins the script uses (`padStart`, `includes`,
  `slice`, `join`, `String(n)`).
- `Numerals`: `Number(s)`, `parseInt(s, 16)`, and JavaScript's `%` by two.
- `Failures`: the errors `main` throws, and their messages.
- `Network`: `env`, `resolveNetwork`.
- `Fees`: `buildGasFields`, `safeEstimateGas`.
- `Transaction`: the arity check, the constructor arguments, the deploy data,
  and the unsigned record.
- `Signing`: the resolution fallback, the sign call, the refusal mapping, and
  signature normalisation.
- `Deploy`: `main` as an imperative method over a `World` of answers from the
  environment, the device, the key, the artifact file and the RPC provider.
  It records every operation it performs, in order, in a trace of `Step`s.
- `Fingerprint`: `stable`.

Each property is proved for every `World`:

- Operations happen in pipeline order.
- The arity check comes before any encoding, fee, nonce or gas request.
- Call shape B is tried only after call shape A threw.
- The refusal becomes the blind-signing error, and the transport then stays
  open. A constructor without five inputs gives the arity error, and a world
  where every answer is a success deploys.
- The transport is closed exactly when it was opened and the broadcast was
  reached.
- Every failure is the first answer that is not a success, rethrown
  unchanged unless the script maps it to its own error.
- A completed deployment is the checked bytecode plus the encoded arguments,
  in the record the fee data, the nonce and the estimate dictate. It is
  signed by the authority that supplied the sender address and broadcast.

For `stable`, the text does not depend on the order in which an object's
fields were inserted. Quoting and unquoting a string is a round trip.

## Model

| member | source | states |
|---|---|---|
| Network.NetworkName | scripts/deploy-ledger-zarin.js:35 | The name is never empty. A set, non-empty `HARDHAT_NETWORK` wins. Otherwise it is `NETWORK` when set and non-empty, and "mainnet" when not. |
| Network.EnvOr | scripts/deploy-ledger-zarin.js:28-31 | A set, non-empty variable is returned. Unset or empty gives the fallback. |
| Network.ResolveNetwork | scripts/deploy-ledger-zarin.js:34-65 | The name is `HARDHAT_NETWORK`, else `NETWORK`, else "mainnet"; empty counts as unset. The result is Ok exactly when the name is one of the four networks, and then carries its chain id and its RPC variable or default endpoint. Otherwise the error is `UnsupportedNetwork` with that name. |
| Network.DefaultsToMainnet | scripts/deploy-ledger-zarin.js:35-42 | With neither variable set, the network is mainnet with chain id 1. |
| Network.ChainIdsDistinct | scripts/deploy-ledger-zarin.js:36-63 | No two supported networks share a chain id. |
| Failures.Describe | scripts/deploy-ledger-zarin.js:215 | The error's message when it has one, otherwise what `String(e)` prints. Empty exactly when both are empty. |
| Failures.Message | scripts/deploy-ledger-zarin.js:64 | The messages thrown here and at lines 133, 155 and 217: every message but a rethrown one is non-empty. The network message ends with the name, and the arity message starts with the fixed prefix. A rethrown error keeps its description. |
| Failures.ArityMessageNamesCount | scripts/deploy-ledger-zarin.js:154-156 | The arity error message starts with the fixed prefix. The text after it reads back as the input count the ABI shows. |
| Fees.BuildGasFields | scripts/deploy-ledger-zarin.js:75-89 | Type 2 exactly when both EIP-1559 fields are reported, and then it carries them. Legacy otherwise, with the reported gas price or 3 gwei. |
| Fees.SafeEstimateGas | scripts/deploy-ledger-zarin.js:91-98 | A failed estimate gives 5 000 000. A successful one gives a limit no lower than the estimate. |
| Fees.SafeEstimateGasMargin | scripts/deploy-ledger-zarin.js:94 | The limit is 120 % of the estimate, rounded down. |
| Transaction.ConstructorInputCount | scripts/deploy-ledger-zarin.js:153-154 | The input count of the first constructor entry. A missing `inputs` counts 0, and no constructor gives 0. |
| Transaction.InputCount | scripts/deploy-ledger-zarin.js:154 | An entry's `inputs.length`, or 0 when `inputs` is missing. |
| Transaction.ConstructorArgs | scripts/deploy-ledger-zarin.js:141-157 | Five arguments, in order: `ZRN_NAME` or "ZRNCoin", `ZRN_SYMBOL` or "ZRN", `ZRN_TREASURY` or the sender address, `ZRN_INITIAL_SUPPLY` or 10^24 written out, `ZRN_MINT_INTERVAL` or "0". |
| Transaction.DeployData | scripts/deploy-ledger-zarin.js:159 | The data is as long as the bytecode plus the encoder's output less two characters, or the bytecode alone when the output has at most two. |
| Transaction.DeployDataSplits | scripts/deploy-ledger-zarin.js:158-159 | The data starts with the bytecode, followed by the encoder's output without its first two characters. With a "0x" prefix, that gives the encoder's output back whole. |
| Transaction.BuildTx | scripts/deploy-ledger-zarin.js:167-175 | A contract creation: no recipient, value 0, and the given data, nonce, gas limit, chain id and fee fields. |
| Transaction.TypeField | scripts/deploy-ledger-zarin.js:173 | `tx.type` is 2 exactly for type-2 fee fields, and absent for legacy. |
| Text.PadStart | scripts/deploy-ledger-zarin.js:227-228 | The result has `width` characters, or the input's length when that is larger, and then it is the input unchanged. |
| Text.SliceFrom | scripts/deploy-ledger-zarin.js:181 | `slice(k)` has `|s| - k` characters, or none when `k` is past the end. |
| Text.Includes | scripts/deploy-ledger-zarin.js:216 | True whenever the text starts with the phrase, and never when the phrase is longer than the text. |
| Text.PadStartShape | scripts/deploy-ledger-zarin.js:227-228 | `padStart` gives at least `width` characters. They end with the input and are otherwise the fill character. |
| Text.PadStartIdempotent | scripts/deploy-ledger-zarin.js:227-228 | Padding twice is padding once. |
| Text.IncludesMeansOccurs | scripts/deploy-ledger-zarin.js:216 | `includes` is true exactly when the phrase occurs at some index. |
| Text.Join | tasks/fingerprint.js:7-9 | Joining no parts is empty, one part is that part, and the text starts with the first part. |
| Numerals.NumberOfString | scripts/deploy-ledger-zarin.js:222-231 | `Number(s)` is never negative on the numerals modelled. The empty string is 0, and a bare "0x" is NaN. |
| Numerals.ParseIntHex | scripts/deploy-ledger-zarin.js:231 | On the "0x" strings the script passes it, `parseInt(s, 16)` is never negative. The empty string and a bare "0x" are NaN. |
| Numerals.NumberReadsDecimal | scripts/deploy-ledger-zarin.js:224 | `Number` reads back every decimal numeral. |
| Numerals.ParseIntHexAgreesWithNumber | scripts/deploy-ledger-zarin.js:231 | On a well-formed "0x" numeral, `parseInt(s, 16)` and `Number(s)` agree on its value. |
| Numerals.RemainderByTwo | scripts/deploy-ledger-zarin.js:224 | JavaScript's `% 2` keeps NaN, differs from its operand by a multiple of two, and takes the operand's sign. |
| Signing.NestedResolution | scripts/deploy-ledger-zarin.js:184-203 | The nested try/catch: shape A's answer when shape A does not throw; shape B's answer when A throws and B does not; null when both throw. Every non-null resolution came from one of the two. |
| Signing.NumberOf | scripts/deploy-ledger-zarin.js:224 | `Number(v)` of a number is that number. Of a string it is never negative on the numerals modelled, and the empty string is 0. |
| Signing.NegotiateResolution | scripts/deploy-ledger-zarin.js:182-203 | Tries the strategies in order and stops at the first call that does not throw, whose value is the resolution. Every earlier call threw. It warns exactly when every strategy threw, and then the resolution is null. |
| Signing.ResolveWithFallback | scripts/deploy-ledger-zarin.js:184-203 | Run over shapes A and B, the loop makes the calls the nested try/catch makes and gives its resolution. It warns exactly when both shapes throw. |
| Signing.SignCallFor | scripts/deploy-ledger-zarin.js:207-213 | The blind two-argument call exactly when the resolution is null. Otherwise the three-argument call with that resolution. |
| Signing.MapSignError | scripts/deploy-ledger-zarin.js:214-220 | The blind-signing error exactly when the error's description includes the refusal phrase. Any other error is rethrown unchanged. |
| Signing.YParity | scripts/deploy-ledger-zarin.js:224 | NaN exactly when `Number(v)` is NaN. For a non-negative `v`, the parity bit, 0 or 1. |
| Signing.YParityOf27 | scripts/deploy-ledger-zarin.js:224 | A device `v` of 27 has parity 1, whether given as the number 27, "27" or "0x1b". |
| Signing.LegacyV | scripts/deploy-ledger-zarin.js:231 | A legacy `v` read from a string is never negative. |
| Signing.LegacyVReadsNumerals | scripts/deploy-ledger-zarin.js:231 | A natural number as a number, a decimal string or a "0x" hexadecimal string gives the same legacy `v`. |
| Signing.PadComponent | scripts/deploy-ledger-zarin.js:227-228 | "0x" and at least 64 digits: exactly 66 characters for a component of up to 64 digits, two more than the component otherwise. |
| Signing.PadComponentShape | scripts/deploy-ledger-zarin.js:227-228 | "0x", then zeros, then the component. At least 64 digits, and a component of 64 digits or more is kept as is. |
| Signing.PadComponentKeepsValue | scripts/deploy-ledger-zarin.js:227-228 | A hexadecimal component keeps its numeric value when padded. |
| Signing.PadComponentIdempotent | scripts/deploy-ledger-zarin.js:227-228 | Padding an already padded component changes nothing. |
| Signing.Normalize | scripts/deploy-ledger-zarin.js:222-237 | Type 2: `v` is JavaScript's `Number(v) % 2` for every `v`; for a non-negative `v` it is the parity bit, 0 or 1. Legacy: `v` is the legacy reading. `r` and `s` are padded components. |
| Deploy.UseLedger | scripts/deploy-ledger-zarin.js:109 | The device is selected unless `USE_LEDGER` is exactly "0". |
| Deploy.LedgerPath | scripts/deploy-ledger-zarin.js:108 | The derivation path is never empty: `LEDGER_PATH` when set and non-empty, otherwise "44'/60'/0'/0/0". |
| Deploy.AddressSource | scripts/deploy-ledger-zarin.js:115-138 | The device supplies the sender exactly when it was selected, the transport opened and it returned a non-empty address. Otherwise the local key does. |
| Deploy.SignerAsWritten | scripts/deploy-ledger-zarin.js:179 | The script signs on the device exactly when the transport was selected and opened. That includes every case where the device supplied the sender. |
| Deploy.PreflightOnlyMeans | scripts/deploy-ledger-zarin.js:150-156 | In an ordered trace that ends no later than the artifact read, every operation may come before the arity check. |
| Deploy.SignerAsWrittenMismatch | scripts/deploy-ledger-zarin.js:115-138 | The signer choice as written: the device opens but its address request fails. The sender comes from the local key, yet the script signs on the device. |
| Deploy.AcquireSender | scripts/deploy-ledger-zarin.js:107-138 | The transport opens exactly when `USE_LEDGER` is not "0". When the device gives a non-empty address, that is the sender, with the device as authority. Otherwise, with `DEPLOYER_PK` set, the key's address is the sender, or the key's error is rethrown; the key is asked exactly then. `NoSigningAuthority` exactly when there is no device address and `DEPLOYER_PK` is unset. |
| Deploy.ChosenSender | scripts/deploy-ledger-zarin.js:115-138 | When a sender is available, its authority is the address source, and its address is that authority's answer. |
| Deploy.PrepareData | scripts/deploy-ledger-zarin.js:149-159 | Reads the artifact, builds the `Interface`, checks the arity, then encodes. A failed read or a throwing `Interface` is rethrown. A constructor without five inputs gives the arity error with its input count, and an arity error arises only then. A failed encoding is rethrown, and a successful one gives data. Without a passed check, nothing past the `Interface` happens. The data is the bytecode and the encoded arguments. |
| Deploy.BuildRecord | scripts/deploy-ledger-zarin.js:161-175 | Fee data, then nonce, then gas estimate, in order. A failed fee or nonce request is rethrown; when both answer, a record is built. It has the fee fields, the account's nonce and the padded estimate for exactly this data. |
| Deploy.BuiltRecord | scripts/deploy-ledger-zarin.js:161-175 | When the encoder and the provider answer, this record satisfies `BuiltFor`: the checked bytecode and encoded arguments, the fee fields, the nonce and the padded estimate. |
| Deploy.BuiltRecordUnique | scripts/deploy-ledger-zarin.js:161-175 | `BuiltFor` admits only `BuiltRecord`, and only when the encoder and the provider answered. |
| Deploy.BuildFailure | scripts/deploy-ledger-zarin.js:149-175 | The first failing answer of steps 3 to 6, in the script's order: artifact read, `Interface`, arity, encoding, fee data, nonce. None exactly when the encoder and the provider answer. A failure is rethrown or the arity error. |
| Deploy.BuildUnsigned | scripts/deploy-ledger-zarin.js:149-175 | Steps 3 to 6 in order, with the arity facts of `PrepareData`. The result fails exactly when `BuildFailure` names a failure, and then with that failure. A constructor without five inputs gives the arity error with its count. Otherwise the record is exactly `BuiltRecord`. |
| Deploy.UnsignedHex | scripts/deploy-ledger-zarin.js:180-181 | A serializer failure is passed on. Otherwise the hex is the serialisation with its first two characters removed, so those two and the hex give the serialisation back. |
| Deploy.SignOnDevice | scripts/deploy-ledger-zarin.js:179-237 | Serialises the record first; a serializer failure is rethrown and nothing else happens. Then, on the hex without "0x": the resolution calls the nested try/catch makes, the sign call at `LEDGER_PATH` chosen from their result, and serialisation when signing succeeded. Sign errors map by `MapSignError`, and the refusal means the device refused those bytes. A failed signed serialisation is rethrown; when device and serializer answer, a signature results. A signature is of the record's own serialisation, normalised to the encoding and serialised. |
| Deploy.SigningStepsOrdered | scripts/deploy-ledger-zarin.js:180-237 | The device path's shape: serialisation, the resolution attempts in order, one sign call, then possibly the signed serialisation. This is ordered and makes no other sign call. Shape B appears only when both shapes were tried. |
| Deploy.DeviceStepsOrdered | scripts/deploy-ledger-zarin.js:180-220 | The device path's operations are in order. Exactly the negotiated sign call is made, at `LEDGER_PATH`, on the record's own hex. Shape B appears only on those bytes, after shape A threw. |
| Deploy.SignFailure | scripts/deploy-ledger-zarin.js:178-240 | The failure signing ends in: a key or serializer error rethrown, or the device's error mapped by `MapSignError`. None exactly when the signer answers. The blind-signing error exactly when the device refused the record's bytes. |
| Deploy.SendFailure | scripts/deploy-ledger-zarin.js:178-255 | The signing failure, else a rethrown broadcast error. None exactly when the signer and the broadcast answer. |
| Deploy.Sign | scripts/deploy-ledger-zarin.js:178-240 | Signs on the device or with the local key, before any broadcast. It fails exactly when `SignFailure` names a failure, and then with that failure: a serializer or key error rethrown, a device error mapped by `MapSignError`. When the signer answers, a signature results. Device sign calls are made only for the device, at `LEDGER_PATH`, on the record's own hex, with the negotiated call. The blind-signing error arises only from the device's refusal. |
| Deploy.SignedRawUnique | scripts/deploy-ledger-zarin.js:178-240 | A signature `SignedBy` admits means the signer answered, and its signed transaction is `SignedRaw`, the only one possible. |
| Deploy.BeforeBroadcast | scripts/deploy-ledger-zarin.js:178-241 | A trace that ends by the signed serialisation has neither broadcast nor closed the transport. |
| Deploy.BroadcastSteps | scripts/deploy-ledger-zarin.js:241-255 | The broadcast comes first, and the `finally` closes the transport exactly when it was selected and opened. |
| Deploy.JoinBroadcast | scripts/deploy-ledger-zarin.js:241-255 | Appending the broadcast and the `finally` keeps the trace ordered, adds no resolution or sign call, and closes exactly when the transport opened. |
| Deploy.SignAndBroadcast | scripts/deploy-ledger-zarin.js:178-255 | Signs, then broadcasts. The broadcast is reached exactly when signing succeeds. The result fails exactly when `SendFailure` names a failure, and then with that failure: a failed broadcast is rethrown. A device refusal of the record's bytes gives the blind-signing error. The transport is closed exactly when it was opened and the broadcast was reached. After a refusal, it is never closed. |
| Deploy.Deliver | scripts/deploy-ledger-zarin.js:140-255 | Steps 3 to 7 and the broadcast in order. The result fails exactly when `DeliverFailure` names a failure, and then with that failure: the first answer that is not a success, rethrown unchanged, or the arity or blind-signing error. The broadcast is reached exactly when every answer up to the signature is a success. Every sign call is the device's, at `LEDGER_PATH`, with the negotiated call. A completed deployment is built for the sender, signed by the sender's authority, and broadcast. |
| Deploy.DeliverFailure | scripts/deploy-ledger-zarin.js:140-255 | The failure of steps 3 to 6 if there is one, else that of signing and broadcasting the built record. None exactly when every answer up to the broadcast is a success (`Delivers`). |
| Deploy.RunDeployment | scripts/deploy-ledger-zarin.js:100-256 | `main`: an unsupported network fails before any operation. Operations are in pipeline order. The result fails exactly when `RunFailure` names a failure, and then with that failure: `NoSigningAuthority` exactly when neither authority is available, a key, artifact, provider, signer or broadcast error rethrown unchanged, the arity error with its count, or the blind-signing error after a refusal. It completes exactly when every answer is a success (`Cooperates`). The broadcast is reached exactly when every answer up to the signature is a success, so a completed deployment was broadcast and closed the transport it opened. The arity check comes first. Shape B comes only after shape A. Every sign call is at `LEDGER_PATH` with the negotiated call. The refusal leaves the transport open. A deployment is built, signed by the authority that supplied the sender, and broadcast. |
| Deploy.RunFailure | scripts/deploy-ledger-zarin.js:100-256 | The failure `main` ends in: the unsupported network, no signing authority, the key's error, or the later steps' failure for the chosen sender. None exactly when `Cooperates` holds. |
| Deploy.KeyWorldSender | scripts/deploy-ledger-zarin.js:100-138 | In a world with `USE_LEDGER=0` and `DEPLOYER_PK` set, the network is mainnet and the key supplies the sender. |
| Deploy.KeyWorldCooperates | scripts/deploy-ledger-zarin.js:100-256 | A key world whose constructor takes five inputs satisfies `Cooperates`, so `main` completes there. |
| Deploy.KeyWorldArityWrong | scripts/deploy-ledger-zarin.js:150-156 | A key world whose constructor takes three inputs reaches the arity error. |
| Deploy.RefusingWorldSender | scripts/deploy-ledger-zarin.js:100-138 | In a world with an open device and no `USE_LEDGER`, the device supplies the sender. |
| Deploy.RefusingWorldBuilds | scripts/deploy-ledger-zarin.js:149-175 | In that world the record is built for the device address. |
| Deploy.RefusingWorldRefuses | scripts/deploy-ledger-zarin.js:178-220 | In that world the device refuses the record with the refusal phrase, so `main` gives the blind-signing error. |
| Fingerprint.Escape | tasks/fingerprint.js:9-11 | Escaping never shortens, and a string with no control character, quote or backslash is unchanged. |
| Fingerprint.Quote | tasks/fingerprint.js:9-11 | The text is enclosed in double quotes and is at least two characters longer than the string. |
| Fingerprint.UnescapeEscape | tasks/fingerprint.js:9 | Unescaping what `JSON.stringify` escapes gives the string back. |
| Fingerprint.UnquoteQuote | tasks/fingerprint.js:9 | A quoted key or string reads back as itself. |
| Fingerprint.QuoteInjective | tasks/fingerprint.js:9 | Distinct keys print differently. |
| Fingerprint.LexLeqTotal | tasks/fingerprint.js:9 | Any two keys are comparable in the `sort()` order. |
| Fingerprint.LexLeqAntisymmetric | tasks/fingerprint.js:9 | Keys each ordered before the other are equal. |
| Fingerprint.LexLeqTransitive | tasks/fingerprint.js:9 | The `sort()` order is transitive. |
| Fingerprint.Insert | tasks/fingerprint.js:9 | Inserting a key into a sorted list keeps it sorted and adds exactly that key. |
| Fingerprint.SortKeys | tasks/fingerprint.js:9 | `Object.keys(obj).sort()` is sorted and a permutation of the keys. |
| Fingerprint.SortKeysAnyOrder | tasks/fingerprint.js:9 | Any arrangement of the same keys sorts to the same sequence. |
| Fingerprint.SortedUnique | tasks/fingerprint.js:9 | Two sorted permutations of the same keys are equal, so the sorted order is unique. |
| Fingerprint.Keys | tasks/fingerprint.js:9 | `Object.keys` lists each field's key, in insertion order. |
| Fingerprint.ValueAt | tasks/fingerprint.js:9 | `obj[k]` is the value of a field with key `k`. |
| Fingerprint.ValueAtUnique | tasks/fingerprint.js:9 | With distinct keys, `obj[k]` is the value of the field inserted with `k`. |
| Fingerprint.KeysPermutation | tasks/fingerprint.js:9 | Reordering the fields reorders the keys. |
| Fingerprint.Leaf | tasks/fingerprint.js:11 | A string's text unquotes to the string. A number's text starts with '-' exactly when it is negative, and a natural number's reads back as the number. |
| Fingerprint.Stable | tasks/fingerprint.js:6-12 | An array's text is enclosed in brackets, an object's in braces. |
| Fingerprint.StableRespectsSameValue | tasks/fingerprint.js:6-12 | Values that differ only in field insertion order, at any depth, have the same stable text. |
| Fingerprint.InsertionOrderIrrelevant | tasks/fingerprint.js:8-9 | An object's stable text does not depend on the order of its fields. |
| Fingerprint.StableArrayAppend | tasks/fingerprint.js:7 | Arrays print in element order: one more element adds a comma and its text before the closing bracket. |
| Fingerprint.ItemTexts | tasks/fingerprint.js:7 | The i-th text is the stable text of the array's i-th element. |
| Fingerprint.MemberTexts | tasks/fingerprint.js:9 | The i-th text is the i-th key quoted, a colon, then the stable text of that key's value. |
| Fingerprint.StableSortedObject | tasks/fingerprint.js:9 | An object with distinct keys already in `sort()` order prints its members in field order: quoted key, colon, value's text, separated by commas inside braces. |
| Fingerprint.StableLeaves | tasks/fingerprint.js:11 | null, true and false print as such. A string's text unquotes to the string. A natural number's text reads back as the number. |

## Left out

- Input and output are answers in a `World` value, not calls. This covers the environment, the device transport, the private-key wallet, the artifact file, the RPC provider and its receipt wait. The script's logging is not modelled.
- Creating the transport and constructing the Ethereum app are one answer (`transportOpens`). A transport that opens while the app constructor throws is not distinguished.
- `ethers.utils.serializeTransaction` (unsigned and signed), `new ethers.utils.Interface(abi)`, `iface.encodeDeploy`, `ledgerService.resolveTransaction`, `BigNumber.from` and the signers' own work belong to foreign libraries. They are functions of the `World`: the `Interface` constructor answers whether it throws on the ABI, and the serializer answers a hex string or an error. RLP encoding, hashing and ECDSA are not part of this model.
- The RPC endpoint chosen by `resolveNetwork` only builds the provider. The provider's answers are given by the `World`, whatever the endpoint.
- `Number(s)` covers the empty string, decimal digits and "0x"/"0X" hexadecimal. Whitespace, signs, fractions, exponents, "Infinity", and "0b"/"0o" prefixes give NaN here rather than a value. JavaScript numbers are doubles, so numerals beyond 2^53 lose precision there; here they are unbounded integers.
- The legacy `v` is passed to the serializer as read, like the script. No chain-id adjustment is applied or checked.
- `Numerals.ParseIntHex`: models `parseInt(s, 16)` on the strings line 231 can pass, which start with "0x". A leading sign or whitespace gives NaN here; in JavaScript `parseInt("-1b", 16)` is -27, and leading whitespace is skipped.
- `Fees.SafeEstimateGas`: its own contract states only that the limit is not below the estimate. The exact 120 % margin is stated by `Fees.SafeEstimateGasMargin`.
- `Deploy.RunDeployment`: signs with the authority that supplied the sender address. The script instead signs on the device whenever the transport opened (see Findings).
- The fee choice tests whether the fields are present, as the code does. A reported zero counts as present, because a BigNumber object is truthy.
- The device transport is closed only in the `finally` around the broadcast, as the code does. A failure before the broadcast leaves it open, including the blind-signing refusal. `Deploy.RunDeployment` states the exact condition.
- JSON numbers in `stable` are integers. Floating-point formatting is not modelled.
- `sort()` compares UTF-16 code units. Here keys are compared by Dafny character, which is the same order for keys without surrogate pairs. Lone surrogates are not modelled.
- Fingerprint.Keys: lists keys in insertion order. JavaScript's `Object.keys` lists integer-like keys first, in numeric order. `stable` sorts the keys at once, and `Fingerprint.SortKeysAnyOrder` proves that the listing order cannot change the output.
- JSON objects are field lists. The properties about key order assume distinct keys, as `JSON.parse` yields.
- `stable(undefined)` and functions are not JSON values and are not modelled.
- The rest of the fingerprint task is not part of this model: reading the on-chain code, keccak256, SHA-256 and printing. So is `scripts/fingerprint.js`.

## Findings

| source | as written | input that shows it | evidently intended | confidence | as-written member | corrected member |
|---|---|---|---|---|---|---|
| scripts/deploy-ledger-zarin.js:179 | Signs on the device whenever `ethApp` is set. That includes when `getAddress` threw and the sender and nonce came from `DEPLOYER_PK`. | `USE_LEDGER` unset, the transport opens, `getAddress` throws (app not open), `DEPLOYER_PK` set | Sign with the authority whose address is the sender | medium; not executed | Deploy.SignerAsWrittenMismatch | Deploy.RunDeployment |
