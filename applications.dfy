/** twilioClient/applications.go: applications on the main API, ".json" URLs. */
module Applications {
  import opened Wrappers
  import opened Client
  import opened Paging
  import Services

  const AppApiPath := "Applications"
  const ApplicationResource := Services.Resource(Services.ApiBase, AppApiPath, ".json")

  /** `Create`: POST of the caller's form to BaseUrl + "/Applications.json". */
  function Create(c: TwilioClient, data: Option<Values>, answer: Exchange<Record>): (call: Call<Record>)
    ensures call.request == Request(POST, c.baseUrl + "/Applications.json", OrEmpty(data))
    ensures call.outcome == Classify(answer)
  {
    Services.CreateCall(c, ApplicationResource, data, answer)
  }

  /** `Update`: POST of the caller's form to BaseUrl + "/Applications/" + sid + ".json". */
  function Update(c: TwilioClient, appSid: string, data: Option<Values>, answer: Exchange<Record>): (call: Call<Record>)
    ensures call.request == Request(POST, c.baseUrl + "/Applications/" + appSid + ".json", OrEmpty(data))
    ensures call.outcome == Classify(answer)
  {
    Services.UpdateCall(c, ApplicationResource, appSid, data, answer)
  }

  /** `Delete`: an HTTP DELETE of the item, successful only on status 204. */
  function Delete(c: TwilioClient, appSid: string, answer: Exchange<()>): (call: Call<()>)
    ensures call.request == Request(DELETE, c.baseUrl + "/Applications/" + appSid + ".json", map[])
    ensures call.outcome.Ok? <==> answer.Response? && answer.status == 204
    ensures call.outcome == ClassifyDelete(answer)
  {
    Services.DeleteCall(c, ApplicationResource, appSid, answer)
  }

  /** `Get`: GET of the item with empty query parameters. */
  function Get(c: TwilioClient, appSid: string, answer: Exchange<Record>): (call: Call<Record>)
    ensures call.request == GetRequest(c.baseUrl + "/Applications/" + appSid + ".json", Some(map[]))
    ensures call.request.params == map[]
    ensures call.outcome == Classify(answer)
  {
    assert Services.ItemUrl(c, ApplicationResource, appSid) == c.baseUrl + "/Applications/" + appSid + ".json";
    Services.GetCall(c, ApplicationResource, appSid, answer)
  }

  /** `GetPageIterator`: a fresh iterator over the collection. */
  method GetPageIterator(c: TwilioClient, data: Option<Values>) returns (it: ListIterator)
    ensures fresh(it) && fresh(it.p)
    ensures it.State() == NewCursor(data, c.baseUrl + "/Applications.json")
  {
    it := Services.GetPageIterator(c, ApplicationResource, data);
  }

  /** `GetPage`: the first `Next` of a fresh iterator, a GET of the
      collection with the caller's query. */
  method GetPage(c: TwilioClient, data: Option<Values>, answer: Exchange<ListPage>) returns (call: Call<ListPage>)
    ensures call.request == GetRequest(c.baseUrl + "/Applications.json", data)
    ensures call.outcome == Classify(answer)
  {
    var it := GetPageIterator(c, data);
    var sent, result := it.Next(answer);
    call := Call(sent.value, result);
  }
}
