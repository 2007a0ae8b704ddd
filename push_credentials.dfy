/** twilioClient/push_credentials.go: push credentials on the chat API, URLs without a suffix. */
module PushCredentials {
  import opened Wrappers
  import opened Client
  import opened Paging
  import opened Text
  import Services

  const PushCredentialApiPath := "Credentials"
  const PushCredentialResource := Services.Resource(Services.ChatBase, PushCredentialApiPath, "")

  // PushCredentialType
  const Apn := "apn"
  const Fcm := "fcm"
  const Gcm := "gcm"

  const CredentialTypes: set<string> := {Apn, Fcm, Gcm}

  /** `PushCredentialType.ToString`: a known constant renders as itself, anything
      else through `strings.Title`. */
  function CredentialTypeToString(s: string): (r: string)
    ensures s in CredentialTypes ==> r == s
    ensures s !in CredentialTypes ==> r == Title(s)
  {
    if s == Apn then "apn"
    else if s == Fcm then "fcm"
    else if s == Gcm then "gcm"
    else Title(s)
  }

  /** Rendering a rendered value changes nothing: every known constant
      starts lower-case and no title-cased value does. */
  lemma CredentialTypeToStringIdempotent(s: string)
    ensures CredentialTypeToString(CredentialTypeToString(s)) == CredentialTypeToString(s)
  {
    if s !in CredentialTypes {
      TitleIdempotent(s);
      TitleNeverStartsLower(s);
      assert forall k :: k in CredentialTypes ==> StartsLower(k);
    }
  }

  /** `Create`: POST of the caller's form to ChatBaseUrl + "/Credentials". */
  function Create(c: TwilioClient, data: Option<Values>, answer: Exchange<Record>): (call: Call<Record>)
    ensures call.request == Request(POST, c.chatBaseUrl + "/Credentials", OrEmpty(data))
    ensures call.outcome == Classify(answer)
  {
    Services.CreateCall(c, PushCredentialResource, data, answer)
  }

  /** `Update`: POST of the caller's form to ChatBaseUrl + "/Credentials/" + sid. */
  function Update(c: TwilioClient, appSid: string, data: Option<Values>, answer: Exchange<Record>): (call: Call<Record>)
    ensures call.request == Request(POST, c.chatBaseUrl + "/Credentials/" + appSid, OrEmpty(data))
    ensures call.outcome == Classify(answer)
  {
    Services.UpdateCall(c, PushCredentialResource, appSid, data, answer)
  }

  /** `Delete`: an HTTP DELETE of the item, successful only on status 204. */
  function Delete(c: TwilioClient, appSid: string, answer: Exchange<()>): (call: Call<()>)
    ensures call.request == Request(DELETE, c.chatBaseUrl + "/Credentials/" + appSid, map[])
    ensures call.outcome.Ok? <==> answer.Response? && answer.status == 204
    ensures call.outcome == ClassifyDelete(answer)
  {
    Services.DeleteCall(c, PushCredentialResource, appSid, answer)
  }

  /** `Get`: GET of the item with empty query parameters. */
  function Get(c: TwilioClient, appSid: string, answer: Exchange<Record>): (call: Call<Record>)
    ensures call.request == GetRequest(c.chatBaseUrl + "/Credentials/" + appSid, Some(map[]))
    ensures call.request.params == map[]
    ensures call.outcome == Classify(answer)
  {
    assert Services.ItemUrl(c, PushCredentialResource, appSid) == c.chatBaseUrl + "/Credentials/" + appSid;
    Services.GetCall(c, PushCredentialResource, appSid, answer)
  }

  /** `GetPageIterator`: a fresh iterator over the collection. */
  method GetPageIterator(c: TwilioClient, data: Option<Values>) returns (it: ListIterator)
    ensures fresh(it) && fresh(it.p)
    ensures it.State() == NewCursor(data, c.chatBaseUrl + "/Credentials")
  {
    it := Services.GetPageIterator(c, PushCredentialResource, data);
  }

  /** `GetPage`: the first `Next` of a fresh iterator, a GET of the
      collection with the caller's query. */
  method GetPage(c: TwilioClient, data: Option<Values>, answer: Exchange<ListPage>) returns (call: Call<ListPage>)
    ensures call.request == GetRequest(c.chatBaseUrl + "/Credentials", data)
    ensures call.outcome == Classify(answer)
  {
    var it := GetPageIterator(c, data);
    var sent, result := it.Next(answer);
    call := Call(sent.value, result);
  }
}
