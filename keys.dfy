/** twilioClient/keys.go: API keys on the main API, ".json" URLs. */
module Keys {
  import opened Wrappers
  import opened Client
  import opened Paging
  import Services

  const KeyApiPath := "Keys"
  const KeyResource := Services.Resource(Services.ApiBase, KeyApiPath, ".json")

  /** `Create`: POST of the caller's form to BaseUrl + "/Keys.json". */
  function Create(c: TwilioClient, data: Option<Values>, answer: Exchange<Record>): (call: Call<Record>)
    ensures call.request == Request(POST, c.baseUrl + "/Keys.json", OrEmpty(data))
    ensures call.outcome == Classify(answer)
  {
    Services.CreateCall(c, KeyResource, data, answer)
  }

  /** `Update`: POST of the caller's form to BaseUrl + "/Keys/" + sid + ".json". */
  function Update(c: TwilioClient, keySid: string, data: Option<Values>, answer: Exchange<Record>): (call: Call<Record>)
    ensures call.request == Request(POST, c.baseUrl + "/Keys/" + keySid + ".json", OrEmpty(data))
    ensures call.outcome == Classify(answer)
  {
    Services.UpdateCall(c, KeyResource, keySid, data, answer)
  }

  /** `Delete`: an HTTP DELETE of the item, successful only on status 204. */
  function Delete(c: TwilioClient, keySid: string, answer: Exchange<()>): (call: Call<()>)
    ensures call.request == Request(DELETE, c.baseUrl + "/Keys/" + keySid + ".json", map[])
    ensures call.outcome.Ok? <==> answer.Response? && answer.status == 204
    ensures call.outcome == ClassifyDelete(answer)
  {
    Services.DeleteCall(c, KeyResource, keySid, answer)
  }

  /** `Get`: GET of the item with empty query parameters. */
  function Get(c: TwilioClient, keySid: string, answer: Exchange<Record>): (call: Call<Record>)
    ensures call.request == GetRequest(c.baseUrl + "/Keys/" + keySid + ".json", Some(map[]))
    ensures call.request.params == map[]
    ensures call.outcome == Classify(answer)
  {
    assert Services.ItemUrl(c, KeyResource, keySid) == c.baseUrl + "/Keys/" + keySid + ".json";
    Services.GetCall(c, KeyResource, keySid, answer)
  }

  /** `GetPageIterator`: a fresh iterator over the collection. */
  method GetPageIterator(c: TwilioClient, data: Option<Values>) returns (it: ListIterator)
    ensures fresh(it) && fresh(it.p)
    ensures it.State() == NewCursor(data, c.baseUrl + "/Keys.json")
  {
    it := Services.GetPageIterator(c, KeyResource, data);
  }

  /** `GetPage`: the first `Next` of a fresh iterator, a GET of the
      collection with the caller's query. */
  method GetPage(c: TwilioClient, data: Option<Values>, answer: Exchange<ListPage>) returns (call: Call<ListPage>)
    ensures call.request == GetRequest(c.baseUrl + "/Keys.json", data)
    ensures call.outcome == Classify(answer)
  {
    var it := GetPageIterator(c, data);
    var sent, result := it.Next(answer);
    call := Call(sent.value, result);
  }
}
