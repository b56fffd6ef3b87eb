/**
 * `service/HubotService.java` and `service/HubotEndPoints.java`: a client
 * bound to one site that posts a message to the site's room and turns every
 * outcome, exceptions included, into a `ResponseData`.
 */
module Service {
  import opened Wrappers
  import opened Platform
  import opened JavaText
  import opened Api
  import opened Common
  import opened Sites

  /**
   * The HTTP exchange, left abstract: given the full request URL and the
   * body, either the completed exchange or the exception the client raised.
   */
  type Endpoint = (string, Message) -> Result<HttpResponse<()>, Throwable>

  /** A client for one site: the site it was made for and its base URL. */
  datatype HubotService = HubotService(site: SiteValue, baseUrl: string)

  /** The path of the notification endpoint, relative to the base URL, before the room. */
  const NotifyPath := "hubot/notify/"

  /**
   * The constructor: the base URL is the site's URL with a trailing "/";
   * a site without a URL throws.
   */
  function NewService(site: SiteValue): (r: Result<HubotService, Throwable>)
    ensures r.Err? <==> site.url.None?
    ensures r.Err? ==> r.error == NullPointer()
    ensures r.Ok? ==> r.value.site == site && r.value.baseUrl == SanitizeURL(site.url.value.spec)
  {
    if site.url.None? then Err(NullPointer()) else Ok(HubotService(site, SanitizeURL(site.url.value.spec)))
  }

  /**
   * The room a message is posted to: prefix and room, each trimmed, when the
   * site uses folder names and has a non-empty prefix; otherwise the trimmed
   * room. A missing room throws.
   */
  function EffectiveRoom(site: SiteValue): (r: Result<string, Throwable>)
    ensures r.Err? <==> site.room.None?
    ensures r.Err? ==> r.error == NullPointer()
  {
    if site.room.None? then Err(NullPointer())
    else if site.useFolderName && FixEmpty(site.roomPrefix).Some? then Ok(Trim(site.roomPrefix.value) + Trim(site.room.value))
    else Ok(Trim(site.room.value))
  }

  /** The prefix takes part exactly when the site uses folder names and the prefix is non-empty. */
  lemma PrefixOnlyUnderFolderNames(site: SiteValue)
    requires site.room.Some?
    ensures site.useFolderName && FixEmpty(site.roomPrefix).Some? ==>
      EffectiveRoom(site) == Ok(Trim(site.roomPrefix.value) + Trim(site.room.value))
    ensures !(site.useFolderName && FixEmpty(site.roomPrefix).Some?) ==>
      EffectiveRoom(site) == Ok(Trim(site.room.value))
  {
  }

  /** Without a prefix in play, an already trimmed room is used as it is. */
  lemma EffectiveRoomOfTrimmedRoom(site: SiteValue)
    requires site.room.Some? && Trim(site.room.value) == site.room.value
    requires !site.useFolderName || FixEmpty(site.roomPrefix).None?
    ensures EffectiveRoom(site) == Ok(site.room.value)
  {
  }

  /** The full URL a message for `room` is posted to. */
  function RequestUrl(svc: HubotService, room: string): (r: string)
    ensures |r| == |svc.baseUrl| + |NotifyPath| + |room|
    ensures r[..|svc.baseUrl|] == svc.baseUrl && r[|svc.baseUrl| + |NotifyPath|..] == room
    ensures r[|svc.baseUrl|..|svc.baseUrl| + |NotifyPath|] == "hubot/notify/"
  {
    svc.baseUrl + NotifyPath + room
  }

  /**
   * `sendMessage`: posts to the effective room and normalises the exchange
   * with `parseResponse`; any exception (a missing room, a failed exchange,
   * an unreadable error body) becomes the code -1 response of
   * `buildErrorResponse`. Nothing escapes.
   */
  function SendMessage(svc: HubotService, message: Message, endpoint: Endpoint): (r: ResponseData<()>)
    ensures EffectiveRoom(svc.site).Err? ==> r == BuildErrorResponse(EffectiveRoom(svc.site).error)
    ensures EffectiveRoom(svc.site).Ok? ==>
      var exchange := endpoint(RequestUrl(svc, EffectiveRoom(svc.site).value), message);
      && (exchange.Err? ==> r == BuildErrorResponse(exchange.error))
      && (exchange.Ok? && ParseResponse(exchange.value).Err? ==> r == BuildErrorResponse(ParseResponse(exchange.value).error))
      && (exchange.Ok? && ParseResponse(exchange.value).Ok? ==> r == ParseResponse(exchange.value).value)
  {
    match EffectiveRoom(svc.site)
    case Err(e) => BuildErrorResponse(e)
    case Ok(room) =>
      match endpoint(RequestUrl(svc, room), message)
      case Err(e) => BuildErrorResponse(e)
      case Ok(exchange) =>
        match ParseResponse(exchange)
        case Err(e) => BuildErrorResponse(e)
        case Ok(data) => data
  }

  /**
   * Whatever happens, the response is either a completed exchange's status
   * (successful exactly for a 2xx status) or the unsuccessful code -1.
   */
  lemma ResponseIsStatusOrMinusOne(svc: HubotService, message: Message, endpoint: Endpoint)
    ensures var r := SendMessage(svc, message, endpoint);
      (r.code == -1 && !r.successful) ||
      (EffectiveRoom(svc.site).Ok? &&
       var exchange := endpoint(RequestUrl(svc, EffectiveRoom(svc.site).value), message);
       exchange.Ok? && r.code == exchange.value.code && (r.successful <==> 200 <= r.code < 300))
  {
  }

  /** A site without a room gets the code -1 response, and nothing is posted. */
  lemma MissingRoomIsMinusOne(svc: HubotService, message: Message, endpoint: Endpoint)
    requires svc.site.room.None?
    ensures !SendMessage(svc, message, endpoint).successful
    ensures SendMessage(svc, message, endpoint).code == -1
  {
  }

  /** An HTTP 200 reply gives a successful response with code 200. */
  lemma OkReplyGivesCode200(svc: HubotService, message: Message, endpoint: Endpoint)
    requires svc.site.room.Some?
    requires forall u :: endpoint(u, message) == Ok(HttpResponse(200, "OK", None, Ok("")))
    ensures SendMessage(svc, message, endpoint).successful
    ensures SendMessage(svc, message, endpoint).code == 200
  {
  }

  /**
   * A service made for a site with a URL posts a message for `room` to
   * "hubot/notify/" and the room, below the URL with a "/" appended unless it
   * already ends with one.
   */
  lemma RequestTarget(site: SiteValue, room: string)
    requires site.url.Some?
    ensures NewService(site).Ok?
    ensures var spec := site.url.value.spec;
      RequestUrl(NewService(site).value, room) ==
        (if EndsWith(spec, "/") then spec else spec + "/") + "hubot/notify/" + room
  {
    var spec := site.url.value.spec;
    var r := RequestUrl(NewService(site).value, room);
    var base := SanitizeURL(spec);
    assert r == r[..|base|] + r[|base|..|base| + |NotifyPath|] + r[|base| + |NotifyPath|..];
    if !EndsWith(spec, "/") {
      assert base[|base| - 1..] == "/";
      assert base == spec + "/";
    }
  }
}
