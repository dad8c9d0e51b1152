/**
 * The parts of Go's net/http that the gateway touches: an incoming request
 * (method, path and its header map) and a response writer whose header map,
 * status line and body are updated in place.
 *
 * Header maps hold one value per key, and keys are taken to be in Go's
 * canonical form already (Go canonicalises them when it parses a request and
 * in Header().Get/Set).
 */
module Http {

  type Header = map<string, string>

  datatype Request = Request(verb: string, path: string, header: Header)

  /** Header.Get: the value stored under `key`, or the empty string when there is none. */
  function Get(h: Header, key: string): string
  {
    if key in h then h[key] else ""
  }

  /**
   * A response being written. `statuses` records every WriteHeader call in
   * order, so that a caller can see what was forwarded to the client.
   */
  class ResponseWriter {
    var header: Header
    var statuses: seq<int>
    var body: string

    constructor ()
      ensures header == map[] && statuses == [] && body == []
    {
      header := map[];
      statuses := [];
      body := [];
    }

    /** Header().Set(key, value) */
    method SetHeader(key: string, value: string)
      modifies this
      ensures header == old(header)[key := value]
      ensures statuses == old(statuses) && body == old(body)
    {
      header := header[key := value];
    }

    /** A run of Header().Set calls, one per key of `h`. */
    method SetHeaders(h: Header)
      modifies this
      ensures header == old(header) + h
      ensures statuses == old(statuses) && body == old(body)
    {
      header := header + h;
    }

    method WriteHeader(code: int)
      modifies this
      ensures statuses == old(statuses) + [code]
      ensures header == old(header) && body == old(body)
    {
      statuses := statuses + [code];
    }

    method Write(data: string)
      modifies this
      ensures body == old(body) + data
      ensures header == old(header) && statuses == old(statuses)
    {
      body := body + data;
    }
  }
}
