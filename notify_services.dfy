/** twilioClient/notify_services.go: notification services on the notify API, URLs without a suffix. */
module NotifyServices {
  import opened Wrappers
  import opened Client
  import opened Paging
  import Services
  import ChatServices

  const NotifyServiceApiPath := "Services"
  const NotifyServiceResource := Services.Resource(Services.NotifyBase, NotifyServiceApiPath, "")

  /** `Create`: POST of the caller's form to NotifyBaseUrl + "/Services". */
  function Create(c: TwilioClient, data: Option<Values>, answer: Exchange<Record>): (call: Call<Record>)
    ensures call.request == Request(POST, c.notifyBaseUrl + "/Services", OrEmpty(data))
    ensures call.outcome == Classify(answer)
  {
    Services.CreateCall(c, NotifyServiceResource, data, answer)
  }

  /** `Update`: POST of the caller's form to NotifyBaseUrl + "/Services/" + sid. */
  function Update(c: TwilioClient, appSid: string, data: Option<Values>, answer: Exchange<Record>): (call: Call<Record>)
    ensures call.request == Request(POST, c.notifyBaseUrl + "/Services/" + appSid, OrEmpty(data))
    ensures call.outcome == Classify(answer)
  {
    Services.UpdateCall(c, NotifyServiceResource, appSid, data, answer)
  }

  /** `Delete`: an HTTP DELETE of the item, successful only on status 204. */
  function Delete(c: TwilioClient, appSid: string, answer: Exchange<()>): (call: Call<()>)
    ensures call.request == Request(DELETE, c.notifyBaseUrl + "/Services/" + appSid, map[])
    ensures call.outcome.Ok? <==> answer.Response? && answer.status == 204
    ensures call.outcome == ClassifyDelete(answer)
  {
    Services.DeleteCall(c, NotifyServiceResource, appSid, answer)
  }

  /** `Get`: GET of the item with empty query parameters. */
  function Get(c: TwilioClient, appSid: string, answer: Exchange<Record>): (call: Call<Record>)
    ensures call.request == GetRequest(c.notifyBaseUrl + "/Services/" + appSid, Some(map[]))
    ensures call.request.params == map[]
    ensures call.outcome == Classify(answer)
  {
    assert Services.ItemUrl(c, NotifyServiceResource, appSid) == c.notifyBaseUrl + "/Services/" + appSid;
    Services.GetCall(c, NotifyServiceResource, appSid, answer)
  }

  /** `GetPageIterator`: a fresh iterator over the collection. */
  method GetPageIterator(c: TwilioClient, data: Option<Values>) returns (it: ListIterator)
    ensures fresh(it) && fresh(it.p)
    ensures it.State() == NewCursor(data, c.notifyBaseUrl + "/Services")
  {
    it := Services.GetPageIterator(c, NotifyServiceResource, data);
  }

  /** `GetPage`: the first `Next` of a fresh iterator, a GET of the
      collection with the caller's query. */
  method GetPage(c: TwilioClient, data: Option<Values>, answer: Exchange<ListPage>) returns (call: Call<ListPage>)
    ensures call.request == GetRequest(c.notifyBaseUrl + "/Services", data)
    ensures call.outcome == Classify(answer)
  {
    var it := GetPageIterator(c, data);
    var sent, result := it.Next(answer);
    call := Call(sent.value, result);
  }

  /** Notify and chat services share the path "Services" (and no suffix);
      their URLs differ only through the base URL. */
  lemma SharesChatServicePath(c: TwilioClient)
    ensures NotifyServiceApiPath == ChatServices.ChatServiceApiPath
    ensures Services.CollectionUrl(c, NotifyServiceResource) == Services.CollectionUrl(c, ChatServices.ChatServiceResource)
            <==> c.notifyBaseUrl == c.chatBaseUrl
  {
    Services.SamePathSameUrls(c, NotifyServiceResource, ChatServices.ChatServiceResource);
  }
}
