/** The URL library the feed types delegate to. Its grammar is not modelled:
    a parser is any total function from text to a parsed URL or an error. */
module Urls {
  import opened Wrappers

  /** A parsed absolute URL, kept as its serialization (`Url::as_str`). */
  datatype Url = Url(serialization: string)

  /** The error kinds `Url::parse` reports. */
  datatype ParseError =
    | EmptyHost
    | IdnaError
    | InvalidPort
    | InvalidIpv4Address
    | InvalidIpv6Address
    | InvalidDomainCharacter
    | RelativeUrlWithoutBase
    | RelativeUrlWithCannotBeABaseBase
    | SetHostOnCannotBeABaseUrl
    | Overflow

  /** `Url::parse`, supplied from outside the model. */
  type Parser = string -> Result<Url, ParseError>
}
