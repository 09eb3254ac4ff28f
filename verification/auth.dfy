/** Authentication helpers: the fixed browser-like request headers, and the
    classification of the `/explore` page scrape that yields the user id.
    The HTTP request itself is a parameter: the model receives its outcome. */
module Auth {
  import opened Wrappers
  import opened Json
  import opened Strings

  const ExploreUrl: string := "https://www.midjourney.com/explore"

  /** The sentinels around the embedded Next.js JSON payload. */
  const NextDataStart: string := "<script id=\"__NEXT_DATA__\" type=\"application/json\">"
  const NextDataEnd: string := "</script>"

  // ----- Request headers -----

  /** The header names every REST call carries. */
  const RequestHeaderNames: set<string> := {
    "accept", "accept-language", "cache-control", "pragma",
    "sec-ch-ua-mobile", "sec-ch-ua-platform", "sec-fetch-dest",
    "sec-fetch-mode", "sec-fetch-site", "x-csrf-protection",
    "Referrer-Policy", "cookie"
  }

  /** `requestHeaders`. The Swift library builds it from a dictionary literal, whose
      iteration order Swift leaves unspecified, so it is a map here. The
      stored cookie is the only entry that varies. */
  function RequestHeaders(cookie: string): (h: map<string, string>)
    ensures h.Keys == RequestHeaderNames
    ensures h["cookie"] == cookie
  {
    map[
      "accept" := "*/*",
      "accept-language" := "en-US,en;q=0.9",
      "cache-control" := "no-cache",
      "pragma" := "no-cache",
      "sec-ch-ua-mobile" := "?0",
      "sec-ch-ua-platform" := "\"macOS\"",
      "sec-fetch-dest" := "empty",
      "sec-fetch-mode" := "cors",
      "sec-fetch-site" := "same-origin",
      "x-csrf-protection" := "1",
      "Referrer-Policy" := "origin-when-cross-origin",
      "cookie" := cookie]
  }

  /** There are twelve headers. */
  lemma RequestHeaderCount(cookie: string)
    ensures |RequestHeaders(cookie)| == 12
  {
    assert RequestHeaders(cookie).Keys == RequestHeaderNames;
    HeaderNameCount();
  }

  lemma HeaderNameCount()
    ensures |RequestHeaderNames| == 12
  {
    var a := {"accept", "accept-language", "cache-control", "pragma"};
    var b := {"sec-ch-ua-mobile", "sec-ch-ua-platform", "sec-fetch-dest", "sec-fetch-mode"};
    var c := {"sec-fetch-site", "x-csrf-protection", "Referrer-Policy", "cookie"};
    DistinctFour("accept", "accept-language", "cache-control", "pragma");
    DistinctFour("sec-ch-ua-mobile", "sec-ch-ua-platform", "sec-fetch-dest", "sec-fetch-mode");
    DistinctFour("sec-fetch-site", "x-csrf-protection", "Referrer-Policy", "cookie");
    assert a !! b;
    assert (a + b) !! c;
    assert RequestHeaderNames == a + b + c;
  }

  lemma DistinctFour(w: string, x: string, y: string, z: string)
    requires w != x && w != y && w != z && x != y && x != z && y != z
    ensures |{w, x, y, z}| == 4
  {
  }

  /** Every header but `cookie` is the same whatever the cookie. */
  lemma HeadersIndependentOfCookie(c1: string, c2: string)
    ensures forall name :: name in RequestHeaders(c1) && name != "cookie" ==>
      name in RequestHeaders(c2) && RequestHeaders(c1)[name] == RequestHeaders(c2)[name]
  {
  }

  /** The client-hint brand list `myUserId` adds. */
  const BrandHint: string := "\"Not_A Brand\";v=\"8\", \"Chromium\";v=\"120\", \"Google Chrome\";v=\"120\""

  /** The headers `myUserId` sends inline: the same dictionary as the shared
      set, plus the brand list and a `Referer` naming the page itself. */
  function ExploreHeaders(cookie: string): (h: map<string, string>)
    ensures h.Keys == RequestHeaderNames + {"sec-ch-ua", "Referer"}
    ensures forall name :: name in RequestHeaderNames ==> name in h && h[name] == RequestHeaders(cookie)[name]
    ensures h["sec-ch-ua"] == BrandHint && h["Referer"] == ExploreUrl
  {
    assert "sec-ch-ua" !in RequestHeaderNames && "Referer" !in RequestHeaderNames;
    RequestHeaders(cookie)["sec-ch-ua" := BrandHint]["Referer" := ExploreUrl]
  }

  // ----- The scraped payload -----

  datatype AuthUser = AuthUser(midjourneyId: string)
  datatype AuthProperties = AuthProperties(initialAuthUser: AuthUser)
  datatype AuthResponse = AuthResponse(props: AuthProperties)

  /** The payload holds a string at `props.initialAuthUser.midjourney_id`. */
  ghost predicate CarriesUserId(v: JValue, id: string) {
    && v.JObject? && "props" in v.fields
    && var props := v.fields["props"];
    && props.JObject? && "initialAuthUser" in props.fields
    && var user := props.fields["initialAuthUser"];
    && user.JObject? && "midjourney_id" in user.fields
    && user.fields["midjourney_id"] == JString(id)
  }

  function DecodeAuthUser(v: JValue, path: Path): (r: Decoded<AuthUser>)
    ensures r.Success? <==>
      v.JObject? && "midjourney_id" in v.fields && v.fields["midjourney_id"].JString?
    ensures r.Success? ==> v.fields["midjourney_id"] == JString(r.value.midjourneyId)
  {
    var o :- AsObject(v, path);
    var id :- StringField(o, "midjourney_id", path);
    Success(AuthUser(id))
  }

  function DecodeAuthProperties(v: JValue, path: Path): (r: Decoded<AuthProperties>)
    ensures r.Success? <==>
      v.JObject? && "initialAuthUser" in v.fields && DecodeAuthUser(v.fields["initialAuthUser"], path + [Key("initialAuthUser")]).Success?
    ensures r.Success? ==> Success(r.value.initialAuthUser) == DecodeAuthUser(v.fields["initialAuthUser"], path + [Key("initialAuthUser")])
  {
    var o :- AsObject(v, path);
    var userValue :- Field(o, "initialAuthUser", path);
    var user :- DecodeAuthUser(userValue, path + [Key("initialAuthUser")]);
    Success(AuthProperties(user))
  }

  /** The file-private `AuthResponse` that `myUserId` decodes: it succeeds
      exactly when the payload carries a user id, and yields that id. */
  function DecodeAuthResponse(v: JValue): (r: Decoded<AuthResponse>)
    ensures r.Success? <==> exists id :: CarriesUserId(v, id)
    ensures r.Success? ==> CarriesUserId(v, r.value.props.initialAuthUser.midjourneyId)
  {
    var o :- AsObject(v, []);
    var propsValue :- Field(o, "props", []);
    var props :- DecodeAuthProperties(propsValue, [Key("props")]);
    assert CarriesUserId(v, props.initialAuthUser.midjourneyId);
    Success(AuthResponse(props))
  }

  // ----- myUserId -----

  /** An Alamofire failure: transport error or unacceptable status. */
  datatype HttpError = HttpError(reason: string)

  datatype Error = Http(httpError: HttpError) | Decoding(decodeError: DecodeError) | AuthUnknown

  /** The payload text embedded in a page, if both sentinels are there. */
  function Payload(html: string): Option<string> {
    StringBetween(html, NextDataStart, NextDataEnd)
  }

  /** The completion value of `myUserId`, given the outcome of the page
      request and the JSON parser (`None` for text that is not JSON). A
      failed request is passed through, a missing payload is `AuthUnknown`,
      a payload that does not decode gives the decoder's error, and
      otherwise the result is the decoded user id. */
  function MyUserId(response: Result<string, HttpError>, parse: string -> Option<JValue>): (r: Result<string, Error>)
    ensures response.Failure? ==> r == Failure(Http(response.error))
    ensures r == Failure(AuthUnknown) <==> response.Success? && Payload(response.value).None?
    ensures response.Success? && !Contains(response.value, NextDataStart) ==> r == Failure(AuthUnknown)
    ensures r.Success? <==>
      && response.Success?
      && Payload(response.value).Some?
      && parse(Payload(response.value).value).Some?
      && exists id :: CarriesUserId(parse(Payload(response.value).value).value, id)
    ensures r.Success? ==> CarriesUserId(parse(Payload(response.value).value).value, r.value)
    ensures r.Failure? && r.error.Decoding? ==> response.Success? && Payload(response.value).Some?
    ensures response.Success? && Payload(response.value).Some? && r.Failure? ==> r.error.Decoding?
    ensures response.Success? && Payload(response.value).Some? && parse(Payload(response.value).value).None?
      ==> r == Failure(Decoding(DataCorrupted([])))
  {
    match response
    case Failure(e) => Failure(Http(e))
    case Success(html) =>
      match Payload(html)
      case None => Failure(AuthUnknown)
      case Some(json) =>
        match parse(json)
        case None => Failure(Decoding(DataCorrupted([])))
        case Some(v) =>
          match DecodeAuthResponse(v)
          case Failure(e) => Failure(Decoding(e))
          case Success(auth) => Success(auth.props.initialAuthUser.midjourneyId)
  }

  /** When the payload is found but does not decode, the decoder's own error
      is reported, never `AuthUnknown`. */
  lemma DecodeErrorSurfaces(html: string, parse: string -> Option<JValue>, json: string, v: JValue, e: DecodeError)
    requires Payload(html) == Some(json) && parse(json) == Some(v)
    requires DecodeAuthResponse(v) == Failure(e)
    ensures MyUserId(Success(html), parse) == Failure(Decoding(e))
  {
  }

  /** A payload that is found but is not JSON at all makes `JSONDecoder`
      throw corrupted data, which is reported as a decoding error. */
  lemma UnparsablePayloadIsCorrupted(html: string, parse: string -> Option<JValue>, json: string)
    requires Payload(html) == Some(json) && parse(json).None?
    ensures MyUserId(Success(html), parse) == Failure(Decoding(DataCorrupted([])))
  {
  }
}
