/** twilioClient/chat_services.go: chat services on the chat API, URLs without a suffix. */
module ChatServices {
  import opened Wrappers
  import opened Client
  import opened Paging
  import opened Text
  import Services

  const ChatServiceApiPath := "Services"
  const ChatServiceResource := Services.Resource(Services.ChatBase, ChatServiceApiPath, "")

  // ChatWebhookEvent
  const OnMessageSend := "onMessageSend"
  const OnMessageRemove := "onMessageRemove"
  const OnMessageUpdate := "onMessageUpdate"
  const OnMediaMessageSend := "onMediaMessageSend"
  const OnChannelAdd := "onChannelAdd"
  const OnChannelUpdate := "onChannelUpdate"
  const OnChannelDestroy := "onChannelDestroy"
  const OnMemberAdd := "onMemberAdd"
  const OnMemberRemove := "onMemberRemove"
  const OnUserAdded := "onUserAdded"
  const OnUserUpdate := "onUserUpdate"

  const WebhookEvents: set<string> := {
    OnMessageSend, OnMessageRemove, OnMessageUpdate, OnMediaMessageSend, OnChannelAdd,
    OnChannelUpdate, OnChannelDestroy, OnMemberAdd, OnMemberRemove, OnUserAdded, OnUserUpdate
  }

  /** `ChatWebhookEvent.ToString`: a known constant renders as itself, anything
      else through `strings.Title`. */
  function WebhookEventToString(s: string): (r: string)
    ensures s in WebhookEvents ==> r == s
    ensures s !in WebhookEvents ==> r == Title(s)
  {
    if s == OnMessageSend then "onMessageSend"
    else if s == OnMessageRemove then "onMessageRemove"
    else if s == OnMessageUpdate then "onMessageUpdate"
    else if s == OnMediaMessageSend then "onMediaMessageSend"
    else if s == OnChannelAdd then "onChannelAdd"
    else if s == OnChannelUpdate then "onChannelUpdate"
    else if s == OnChannelDestroy then "onChannelDestroy"
    else if s == OnMemberAdd then "onMemberAdd"
    else if s == OnMemberRemove then "onMemberRemove"
    else if s == OnUserAdded then "onUserAdded"
    else if s == OnUserUpdate then "onUserUpdate"
    else Title(s)
  }

  /** Rendering a rendered value changes nothing: every known constant
      starts lower-case and no title-cased value does. */
  lemma WebhookEventToStringIdempotent(s: string)
    ensures WebhookEventToString(WebhookEventToString(s)) == WebhookEventToString(s)
  {
    if s !in WebhookEvents {
      TitleIdempotent(s);
      TitleNeverStartsLower(s);
      assert forall k :: k in WebhookEvents ==> StartsLower(k);
    }
  }

  /** `Create`: POST of the caller's form to ChatBaseUrl + "/Services". */
  function Create(c: TwilioClient, data: Option<Values>, answer: Exchange<Record>): (call: Call<Record>)
    ensures call.request == Request(POST, c.chatBaseUrl + "/Services", OrEmpty(data))
    ensures call.outcome == Classify(answer)
  {
    Services.CreateCall(c, ChatServiceResource, data, answer)
  }

  /** `Update`: POST of the caller's form to ChatBaseUrl + "/Services/" + sid. */
  function Update(c: TwilioClient, appSid: string, data: Option<Values>, answer: Exchange<Record>): (call: Call<Record>)
    ensures call.request == Request(POST, c.chatBaseUrl + "/Services/" + appSid, OrEmpty(data))
    ensures call.outcome == Classify(answer)
  {
    Services.UpdateCall(c, ChatServiceResource, appSid, data, answer)
  }

  /** `Delete`: an HTTP DELETE of the item, successful only on status 204. */
  function Delete(c: TwilioClient, appSid: string, answer: Exchange<()>): (call: Call<()>)
    ensures call.request == Request(DELETE, c.chatBaseUrl + "/Services/" + appSid, map[])
    ensures call.outcome.Ok? <==> answer.Response? && answer.status == 204
    ensures call.outcome == ClassifyDelete(answer)
  {
    Services.DeleteCall(c, ChatServiceResource, appSid, answer)
  }

  /** `Get`: GET of the item with empty query parameters. */
  function Get(c: TwilioClient, appSid: string, answer: Exchange<Record>): (call: Call<Record>)
    ensures call.request == GetRequest(c.chatBaseUrl + "/Services/" + appSid, Some(map[]))
    ensures call.request.params == map[]
    ensures call.outcome == Classify(answer)
  {
    assert Services.ItemUrl(c, ChatServiceResource, appSid) == c.chatBaseUrl + "/Services/" + appSid;
    Services.GetCall(c, ChatServiceResource, appSid, answer)
  }

  /** `GetPageIterator`: a fresh iterator over the collection. */
  method GetPageIterator(c: TwilioClient, data: Option<Values>) returns (it: ListIterator)
    ensures fresh(it) && fresh(it.p)
    ensures it.State() == NewCursor(data, c.chatBaseUrl + "/Services")
  {
    it := Services.GetPageIterator(c, ChatServiceResource, data);
  }

  /** `GetPage`: the first `Next` of a fresh iterator, a GET of the
      collection with the caller's query. */
  method GetPage(c: TwilioClient, data: Option<Values>, answer: Exchange<ListPage>) returns (call: Call<ListPage>)
    ensures call.request == GetRequest(c.chatBaseUrl + "/Services", data)
    ensures call.outcome == Classify(answer)
  {
    var it := GetPageIterator(c, data);
    var sent, result := it.Next(answer);
    call := Call(sent.value, result);
  }
}
