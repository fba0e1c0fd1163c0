/**
 * The protocol-side records the handlers exchange with the SCIM layer: a resource with its
 * metadata, a page of resources, the list-request parameters, and the ways a handler call
 * can fail.
 */
module ScimTypes {
  import opened Wrappers
  import opened JsonValues

  /** An RFC 3339 timestamp, kept as its text (parsing it is not modelled). */
  type Timestamp = string

  datatype Meta = Meta(
    resourceType: string,
    created: Option<Timestamp>,
    lastModified: Option<Timestamp>,
    version: string,
    location: string)

  /** The zero value of the source's `scim.Meta`. */
  const ZeroMeta := Meta("", None, None, "", "")

  datatype Resource = Resource(
    id: string,
    externalId: Option<string>,
    attributes: map<string, Json>,
    meta: Meta)

  datatype Page = Page(totalResults: int, resources: seq<Resource>)

  /** What makes the Go runtime panic inside a handler. */
  datatype PanicCause =
    | TypeAssertion   // `value.(map[string]interface{})` on a value that is not a map
    | SliceBounds     // `data[from:to]` with bounds out of range
    | NilMapWrite     // assignment into a nil map

  /**
   * `NotFound(id)` and `Internal` are the errors the handlers return; `Panic` stands for a
   * runtime panic of the source, which aborts the request.
   */
  datatype HandlerError = NotFound(id: string) | Internal | Panic(cause: PanicCause)

  /** The list request parameters; the store-backed GetAll receives them by pointer and rewrites `count`. */
  class ListRequestParams {
    var startIndex: int
    var count: int

    constructor (startIndex: int, count: int)
      ensures this.startIndex == startIndex && this.count == count
    {
      this.startIndex := startIndex;
      this.count := count;
    }
  }
}
