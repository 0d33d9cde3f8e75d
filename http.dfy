/** The records the client exchanges with its injected URL session: the request it builds
    (Foundation's `URLRequest`) and the reply the session's completion handler receives. */
module Http {
  import opened Wrappers
  import opened Errors

  type Bytes = seq<bv8>

  /** A parsed URL; `absoluteString` is what Foundation prints it back as. */
  datatype Url = Url(absoluteString: string)

  /** A `URLRequest`: method, optional URL, header fields and optional body. A request made
      with `URLRequest(url:)` is a GET with no header fields and no body. */
  datatype Request = Request(httpMethod: string, url: Option<Url>, headers: map<string, string>, httpBody: Option<Bytes>)
  {
    /** `setValue(_:forHTTPHeaderField:)`: replaces the field's value, or adds the field. */
    function SetValue(value: string, field: string): Request {
      this.(headers := headers[field := value])
    }
  }

  function NewRequest(url: Url): Request {
    Request("GET", Some(url), map[], None)
  }

  /** What the session hands to a `dataTask` completion handler: the body, if any, and the
      transport error, if any. The `URLResponse` metadata is never read by the client. */
  datatype Reply = Reply(data: Option<Bytes>, error: Option<AnyError>)
}
