/** The SDK's error type (SbankenClient/Types/SbankenError.swift): four kinds into which every
    failure is normalised before it reaches a caller, two smart constructors and `description`. */
module Errors {

  /** Any Swift `Error` the client can meet: one of the SDK's own, or one raised by a framework
      (an `NSError` from the URL loading system, say), which carries its own description. */
  datatype AnyError = Sbanken(sbanken: SbankenError) | Foreign(foreignDescription: string)

  datatype SbankenError =
    | MissingNetworkResponse
    | UnableToDecodeNetworkResponse
    | Message(text: string)
    | Generic(underlying: AnyError)

  const MissingNetworkResponseText := "Sbanken svarer ikke med forventet data"
  const UnableToDecodeText := "Unable to decode network response"

  /** `SbankenError.description`. */
  function Description(e: SbankenError): (r: string)
    ensures e.Message? ==> r == e.text
    ensures e.Generic? ==> r == ErrorDescription(e.underlying)
    ensures e.MissingNetworkResponse? ==> r == MissingNetworkResponseText && r != UnableToDecodeText
    ensures e.UnableToDecodeNetworkResponse? ==> r == UnableToDecodeText && r != MissingNetworkResponseText
  {
    match e
    case MissingNetworkResponse => MissingNetworkResponseText
    case UnableToDecodeNetworkResponse => UnableToDecodeText
    case Message(m) => m
    case Generic(u) => ErrorDescription(u)
  }

  /** `(error as CustomStringConvertible).description` for any error. */
  function ErrorDescription(u: AnyError): string
  {
    match u
    case Sbanken(e) => Description(e)
    case Foreign(d) => d
  }

  /** `SbankenError.init(_ message: String)`. */
  function FromMessage(s: string): (r: SbankenError)
    ensures r.Message? && Description(r) == s
  {
    Message(s)
  }

  /** `SbankenError.init(_ error: Error)`: an error that already is a `SbankenError` passes
      through unchanged, any other is wrapped as `.generic`. Either way a caller reading the
      description sees the original error's. */
  function FromError(u: AnyError): (r: SbankenError)
    ensures u.Sbanken? ==> r == u.sbanken
    ensures u.Foreign? ==> r == Generic(u)
    ensures Description(r) == ErrorDescription(u)
  {
    if u.Sbanken? then u.sbanken else Generic(u)
  }

  /** Normalising twice is normalising once: re-wrapping an already normalised error changes nothing. */
  lemma FromErrorIdempotent(u: AnyError)
    ensures FromError(Sbanken(FromError(u))) == FromError(u)
  {
  }

  /** A framework error wrapped as `.generic` describes itself with its own text, and the two
      fixed kinds have different descriptions. */
  lemma DescriptionOfKinds(u: AnyError)
    ensures u.Foreign? ==> Description(Generic(u)) == u.foreignDescription
    ensures Description(MissingNetworkResponse) != Description(UnableToDecodeNetworkResponse)
  {
  }
}
