/**
 * A URL reduced to the parts that createSolanaClient reads or writes, both as
 * an immutable record and as the mutable `URL` object whose setters the
 * source calls.
 */
module Urls {

  /**
   * `protocol` keeps its trailing colon (`"https:"`), `port` is the empty string
   * when the URL has none, and `rest` is everything after the port (path, query
   * and fragment).
   */
  datatype UrlRecord = UrlRecord(protocol: string, hostname: string, port: string, rest: string)

  /** `url.toString()`: the serialised form of the record. */
  function Href(u: UrlRecord): string
  {
    u.protocol + "//" + u.hostname + (if u.port == "" then "" else ":" + u.port) + u.rest
  }

  /** A WHATWG `URL` object: its properties are assigned in place. */
  class Url {
    var protocol: string
    var hostname: string
    var port: string
    var rest: string

    /** `new URL(...)` once parsing has produced `r`. */
    constructor (r: UrlRecord)
      ensures Record() == r
    {
      protocol, hostname, port, rest := r.protocol, r.hostname, r.port, r.rest;
    }

    /** The value the object currently holds. */
    function Record(): UrlRecord
      reads this
    {
      UrlRecord(protocol, hostname, port, rest)
    }
  }
}
