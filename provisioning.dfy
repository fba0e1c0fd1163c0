/**
 * The client that forwards provisioning requests to a downstream SCIM service: how it
 * builds request URLs, and how it judges the response to a POST. The transport itself
 * is not modelled; the status code, the response body and the result of decoding that
 * body as JSON are inputs. `url.Values.Encode` is an uninterpreted parameter.
 */
module Provisioning {
  import opened Wrappers
  import opened JsonValues

  datatype ProvisioningClient = ProvisioningClient(baseUri: string, params: map<string, string>)

  /** `url.Values.Encode`, left uninterpreted. */
  type Encoder = map<string, seq<string>> -> string

  /** The `url.Values` that `params.Add(k, v)` builds from a one-value-per-key map. */
  function ValuesOf(params: map<string, string>): map<string, seq<string>>
  {
    map k | k in params :: [params[k]]
  }

  /** The part between the base URI and the query: "/" and the identifier, unescaped, or nothing. */
  function PathPart(identifier: string): string
  {
    if |identifier| > 0 then "/" + identifier else ""
  }

  /**
   * The URL for `identifier`: the base URI, then "/" and the identifier exactly as given
   * when it is non-empty, then "?" (always, even with no parameters), then the encoded
   * parameters.
   */
  function UrlOf(client: ProvisioningClient, identifier: string, encode: Encoder): (url: string)
    ensures |url| == |client.baseUri| + |PathPart(identifier)| + 1 + |encode(ValuesOf(client.params))|
    ensures url[..|client.baseUri|] == client.baseUri
    ensures |identifier| > 0 ==>
      && url[|client.baseUri|] == '/'
      && url[|client.baseUri| + 1..|client.baseUri| + 1 + |identifier|] == identifier
      && url[|client.baseUri| + 1 + |identifier|] == '?'
    ensures |identifier| == 0 ==> url[|client.baseUri|] == '?'
    ensures url[|url| - |encode(ValuesOf(client.params))|..] == encode(ValuesOf(client.params))
  {
    client.baseUri + PathPart(identifier) + "?" + encode(ValuesOf(client.params))
  }

  /** The URL as the source builds it: accumulate the path, then add each parameter to a value set. */
  method Url(client: ProvisioningClient, identifier: string, encode: Encoder) returns (url: string)
    ensures url == UrlOf(client, identifier, encode)
  {
    url := client.baseUri;
    if |identifier| > 0 {
      url := url + "/" + identifier;
    }
    var values: map<string, seq<string>> := map[];
    var pending := client.params.Keys;
    while pending != {}
      invariant pending <= client.params.Keys
      invariant values.Keys == client.params.Keys - pending
      invariant forall k :: k in values ==> values[k] == [client.params[k]]
      decreases pending
    {
      var k :| k in pending;
      pending := pending - {k};
      // `Add` on a key not added before: the map's keys are distinct
      values := values[k := [client.params[k]]];
    }
    assert values == ValuesOf(client.params);
    url := url + "?" + encode(values);
  }

  /** Two identifiers give the same URL (for one client and encoder) only when they are equal. */
  lemma {:induction false} UrlDeterminesIdentifier(client: ProvisioningClient, a: string, b: string, encode: Encoder)
    requires UrlOf(client, a, encode) == UrlOf(client, b, encode)
    ensures a == b
  {
    var n := |client.baseUri|;
    var url := UrlOf(client, a, encode);
    assert |PathPart(a)| == |PathPart(b)|;
    if |a| > 0 {
      assert |b| > 0;
      assert a == url[n + 1..n + 1 + |a|] == b;
    } else {
      assert |b| == 0;
    }
  }

  /** With no parameters the URL still ends in "?" (when the empty value set encodes as nothing). */
  lemma NoParamsEndsInQuestionMark(client: ProvisioningClient, identifier: string, encode: Encoder)
    requires client.params == map[]
    requires encode(map[]) == ""
    ensures var url := UrlOf(client, identifier, encode); |url| > 0 && url[|url| - 1] == '?'
  {
    assert ValuesOf(client.params) == map[];
  }

  // ---------------------------------------------------------------------------
  // Accepting the response to a POST
  // ---------------------------------------------------------------------------

  /** Why a POST response is refused. */
  datatype PostError =
    | StatusError(body: string)   // the status is not 201; the error text is the body
    | DecodeError                 // the body is not a JSON object (or null)
    | MissingExternalId           // `externalId` is absent or not a string
    | MissingId                   // `id` is absent or not a string

  /** An accepted POST: the downstream id and the extra attributes to keep. */
  datatype Accepted = Accepted(id: string, extra: map<string, string>)

  /**
   * What decoding into a fresh `map[string]interface{}` leaves: an object gives its
   * fields, `null` leaves the map empty, anything else (or no JSON at all) is an error.
   */
  function DecodedFields(decoded: Option<Json>): (fields: Option<map<string, Json>>)
    ensures fields.Some? <==> decoded.Some? && (decoded.value.Obj? || decoded.value.Null?)
  {
    match decoded
    case Some(Obj(f)) => Some(f)
    case Some(Null) => Some(map[])
    case _ => None
  }

  /** The field `key` when it is a string. */
  function StringField(fields: map<string, Json>, key: string): Option<string>
  {
    if key in fields && fields[key].Str? then Some(fields[key].s) else None
  }

  /**
   * The acceptance decision of `Post`, given the status code, the body and the result of
   * decoding the body (`None` when it is not JSON): a 201 whose body decodes to an object
   * with string `externalId` and `id` is accepted with exactly one extra attribute,
   * `externalId`; the checks are made in the order status, decoding, `externalId`, `id`.
   */
  function PostOutcome(status: int, body: string, decoded: Option<Json>): (r: Result<Accepted, PostError>)
    ensures r.Ok? <==>
      && status == 201
      && DecodedFields(decoded).Some?
      && StringField(DecodedFields(decoded).value, "externalId").Some?
      && StringField(DecodedFields(decoded).value, "id").Some?
    ensures r.Ok? ==>
      var fields := DecodedFields(decoded).value;
      && "id" in fields && fields["id"] == Str(r.value.id)
      && r.value.extra.Keys == {"externalId"}
      && "externalId" in fields && fields["externalId"] == Str(r.value.extra["externalId"])
    ensures status != 201 ==> r == Err(StatusError(body))
    ensures status == 201 && DecodedFields(decoded).None? ==> r == Err(DecodeError)
  {
    if status != 201 then Err(StatusError(body))
    else
      match DecodedFields(decoded)
      case None => Err(DecodeError)
      case Some(fields) =>
        match StringField(fields, "externalId")
        case None => Err(MissingExternalId)
        case Some(externalId) =>
          match StringField(fields, "id")
          case None => Err(MissingId)
          case Some(id) => Ok(Accepted(id, map["externalId" := externalId]))
  }

  /** A missing `externalId` is reported even when `id` is missing too: it is checked first. */
  lemma ExternalIdCheckedBeforeId(body: string, fields: map<string, Json>)
    requires StringField(fields, "externalId").None?
    ensures PostOutcome(201, body, Some(Obj(fields))) == Err(MissingExternalId)
  {
  }

  /** With a string `externalId`, a missing or non-string `id` is the error. */
  lemma MissingIdReported(body: string, fields: map<string, Json>)
    requires StringField(fields, "externalId").Some? && StringField(fields, "id").None?
    ensures PostOutcome(201, body, Some(Obj(fields))) == Err(MissingId)
  {
  }

  /** A 201 with the body `null` decodes to an empty map and so lacks `externalId`. */
  lemma NullBodyLacksExternalId(body: string)
    ensures PostOutcome(201, body, Some(Null)) == Err(MissingExternalId)
  {
  }

  /** Other fields of the response are dropped; only `id` and `externalId` matter. */
  lemma OtherFieldsIgnored(status: int, body: string, fields: map<string, Json>, key: string, v: Json)
    requires key != "id" && key != "externalId"
    ensures PostOutcome(status, body, Some(Obj(fields[key := v]))) == PostOutcome(status, body, Some(Obj(fields)))
  {
  }
}
