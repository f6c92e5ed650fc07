/** What the deployment script throws, and the messages it throws them with. */
module Failures {
  import opened Text
  import opened Numerals

  /** A value caught from a foreign call: its `message` ("" when absent)
      and what `String(e)` prints for it. */
  datatype Thrown = Thrown(message: string, text: string)

  /** `(e && e.message) || String(e)`: the message when there is one, else the printed value. */
  function Describe(e: Thrown): (d: string)
    ensures e.message != "" ==> d == e.message
    ensures e.message == "" ==> d == e.text
    ensures d == "" <==> e.message == "" && e.text == ""
  {
    if e.message != "" then e.message else e.text
  }

  /** The errors that end a deployment. */
  datatype Failure =
    | UnsupportedNetwork(name: string)  // the network name is not in the table
    | NoSigningAuthority                // no device address and no private key
    | ArityMismatch(found: nat)         // the artifact's constructor does not take five inputs
    | BlindSigningRefused               // the device app asked for a clear-signing resolution
    | Rethrown(cause: Thrown)           // a foreign failure, propagated unchanged

  const ArityMessagePrefix: string := "Constructor expects 5 args, ABI shows "
  const NoAuthorityMessage: string := "Ledger unavailable and DEPLOYER_PK not set."
  const BlindSigningMessage: string :=
    "Ledger ETH app refused signing without 'resolution'. Enable Blind signing or ensure resolveTransaction is available."

  /** The message of the error the script throws for each failure. */
  function Message(f: Failure): (m: string)
    ensures !f.Rethrown? ==> m != ""
    ensures f.UnsupportedNetwork? ==> |f.name| <= |m| && m[|m| - |f.name|..] == f.name
    ensures f.ArityMismatch? ==> StartsWith(m, ArityMessagePrefix)
    ensures f.Rethrown? ==> m == Describe(f.cause)
  {
    match f
    case UnsupportedNetwork(name) => "Unsupported network: " + name
    case NoSigningAuthority => NoAuthorityMessage
    case ArityMismatch(n) => ArityMessagePrefix + NatToString(n)
    case BlindSigningRefused => BlindSigningMessage
    case Rethrown(e) => Describe(e)
  }

  /** The arity message names the input count the ABI shows: reading the
      text after the fixed prefix gives the count back. */
  lemma ArityMessageNamesCount(n: nat)
    ensures StartsWith(Message(ArityMismatch(n)), ArityMessagePrefix)
    ensures NumberOfString(Message(ArityMismatch(n))[|ArityMessagePrefix|..]) == Num(n)
  {
    var m := Message(ArityMismatch(n));
    assert m[|ArityMessagePrefix|..] == NatToString(n);
    NumberReadsDecimal(n);
  }
}
