/**
 * The canonical form of a subscription: the normalized, comparable-by-value snapshot
 * that the registry compares to detect unchanged registrations.
 */
module Canonical {
  import opened Wrappers

  /** Codes of the `status` element of the HL7 FHIR R4 Subscription resource. */
  datatype SubscriptionStatus = Requested | Active | Error | Off

  /** The delivery channel types a canonical subscription can name. */
  datatype ChannelType = RestHook | Websocket | Email | Sms | Message

  /** The wire code of a channel type. */
  function ToCode(t: ChannelType): string
  {
    match t
    case RestHook => "rest-hook"
    case Websocket => "websocket"
    case Email => "email"
    case Sms => "sms"
    case Message => "message"
  }

  /**
   * A canonical subscription. Two of them are equal exactly when every field is
   * equal (datatype equality), which is what `equals` is used for by the registry.
   * `status` and `channelType` are `None` when the resource carries none.
   * The remaining fields are opaque to the registry.
   */
  datatype CanonicalSubscription = CanonicalSubscription(
    idElement: string,
    status: Option<SubscriptionStatus>,
    channelType: Option<ChannelType>,
    endpointUrl: string,
    criteria: string,
    payload: string,
    headers: seq<string>)

  predicate IsUpperAscii(c: char)
  {
    'A' <= c <= 'Z'
  }

  function LowerChar(c: char): (l: char)
    ensures !IsUpperAscii(l)
    ensures !IsUpperAscii(c) ==> l == c
  {
    if IsUpperAscii(c) then (c as int + 32) as char else c
  }

  /** `String.toLowerCase()`, restricted to the ASCII letters. */
  function ToLowerCase(s: string): (r: string)
    ensures |r| == |s|
    ensures forall i | 0 <= i < |s| :: r[i] == LowerChar(s[i])
  {
    if s == [] then [] else [LowerChar(s[0])] + ToLowerCase(s[1..])
  }

  /**
   * Every channel type code is already lower case, so the code handed to the
   * channel factory is the channel type's own code.
   */
  lemma LowerCaseCodeIsCode(t: ChannelType)
    ensures ToLowerCase(ToCode(t)) == ToCode(t)
  {
  }
}
