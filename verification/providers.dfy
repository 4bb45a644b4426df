/** The record every provider is asked to commit, and the reply of a plain
    HTTP GET as the update-token providers see it. Each provider's
    `CommitRecord` is a pure function in its own module: the network
    exchanges it would perform are explicit inputs, and the requests it
    would send are part of its result. */
module Providers {

  /** A desired DNS record: the configured record with `content` set to the
      address it should carry. */
  datatype DNSRecord = DNSRecord(
    name: string,
    rtype: string,
    content: string,
    ttl: int,
    proxied: bool,
    updateToken: string)

  /** The outcome of `http.Get` followed by `io.ReadAll` of the body:
      either the request failed, or a body arrived, possibly cut short by a
      read error (`readError` is `ReadFailed` then). */
  datatype HttpReply =
    | TransportError(message: string)
    | Reply(body: string, readError: ReadError)

  datatype ReadError = ReadOk | ReadFailed(message: string)
}
