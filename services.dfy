/**
  The shape every resource service of twilioClient shares: a base URL
  chosen from the client, a collection path and a suffix (".json" on the
  main API, none on the chat and notify APIs). Each resource module fixes
  these three and inherits the URL rules and the call shapes below.
 */
module Services {
  import opened Wrappers
  import opened Client
  import opened Paging

  /** Which of the client's base URLs a service uses. */
  datatype Base = ApiBase | ChatBase | NotifyBase

  datatype Resource = Resource(base: Base, path: string, suffix: string)

  function BaseUrl(c: TwilioClient, b: Base): string {
    match b
    case ApiBase => c.baseUrl
    case ChatBase => c.chatBaseUrl
    case NotifyBase => c.notifyBaseUrl
  }

  /** `base + "/" + path + suffix`. */
  function CollectionUrl(c: TwilioClient, r: Resource): string {
    BaseUrl(c, r.base) + "/" + r.path + r.suffix
  }

  /** `base + "/" + path + "/" + sid + suffix`. */
  function ItemUrl(c: TwilioClient, r: Resource, sid: string): string {
    BaseUrl(c, r.base) + "/" + r.path + "/" + sid + r.suffix
  }

  /** `Create`: a POST of the caller's form to the collection. */
  function CreateCall(c: TwilioClient, r: Resource, data: Option<Values>, answer: Exchange<Record>): Call<Record> {
    Post(CollectionUrl(c, r), data, answer)
  }

  /** `Update`: a POST of the caller's form to the item. */
  function UpdateCall(c: TwilioClient, r: Resource, sid: string, data: Option<Values>, answer: Exchange<Record>): Call<Record> {
    Post(ItemUrl(c, r, sid), data, answer)
  }

  /** `Delete` for every resource but accounts: an HTTP DELETE of the item. */
  function DeleteCall(c: TwilioClient, r: Resource, sid: string, answer: Exchange<()>): Call<()> {
    Delete(ItemUrl(c, r, sid), answer)
  }

  /** `Get`: a GET of the item with empty query parameters. */
  function GetCall(c: TwilioClient, r: Resource, sid: string, answer: Exchange<Record>): Call<Record> {
    Get(ItemUrl(c, r, sid), Some(map[]), answer)
  }

  /** `GetPageIterator`: a fresh page iterator over the collection. */
  method GetPageIterator(c: TwilioClient, r: Resource, data: Option<Values>) returns (it: ListIterator)
    ensures fresh(it) && fresh(it.p)
    ensures it.State() == NewCursor(data, CollectionUrl(c, r))
  {
    var p := new PageIterator(data, CollectionUrl(c, r));
    it := new ListIterator(p);
  }

  /** Two services that share a path and suffix address the same URLs
      exactly when their base URLs agree. */
  lemma {:induction false} SamePathSameUrls(c: TwilioClient, r1: Resource, r2: Resource)
    requires r1.path == r2.path && r1.suffix == r2.suffix
    ensures CollectionUrl(c, r1) == CollectionUrl(c, r2) <==> BaseUrl(c, r1.base) == BaseUrl(c, r2.base)
  {
    var b1, b2 := BaseUrl(c, r1.base), BaseUrl(c, r2.base);
    var tail := "/" + r1.path + r1.suffix;
    assert CollectionUrl(c, r1) == b1 + tail;
    assert CollectionUrl(c, r2) == b2 + tail;
    if b1 + tail == b2 + tail {
      assert b1 == (b1 + tail)[..|b1|];
      assert b2 == (b2 + tail)[..|b2|];
    }
  }

  /** The default chat and notify bases end in '/', and every URL adds
      another: with the defaults the paths start with "//". */
  lemma DefaultBasesDoubleSlash(accountSid: string, authToken: string, env: Environment, r: Resource)
    requires env.chatBaseUrl == "" && env.notifyBaseUrl == "" && r.base != ApiBase
    ensures var c := NewTwilioClient(accountSid, authToken, env);
      CollectionUrl(c, r) ==
        (if r.base == ChatBase then "https://chat.twilio.com/v2//" else "https://notify.twilio.com/v1//")
        + r.path + r.suffix
  {
  }
}
