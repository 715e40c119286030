/** The slice of HTTP/1 the gateway looks at. Decoding and encoding belong to an
    external library; only the decoder's verdicts and the fields the gateway
    reads or writes are modelled. */
module Http {
  import opened Primitives

  /** A request header's name as the decoder classified it. A name the decoder
      could not classify, or any other name, is `OtherName`. */
  datatype HeaderName = HostName | ContentLengthName | OtherName

  /** A request header's value as the decoder parsed it; a value it failed to
      parse, or of any other shape, is `OtherValue`. */
  datatype HeaderValue = Domain(domain: string) | Length(len: nat) | OtherValue

  datatype Header = Header(name: HeaderName, value: HeaderValue)

  /** A response header as pushed onto an outgoing response. */
  datatype Field = Field(name: string, value: string)

  /** A response from a backend service. */
  datatype Response = Response(status: nat, fields: seq<Field>, body: seq<u8>)
}
