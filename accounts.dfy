/** twilioClient/accounts.go: sub-accounts on the main API, ".json" URLs,
    and a soft delete that closes the account instead of removing it. */
module Accounts {
  import opened Wrappers
  import opened Client
  import opened Paging
  import opened Text
  import Services

  const AccountApiPath := "Accounts"
  const AccountResource := Services.Resource(Services.ApiBase, AccountApiPath, ".json")

  // AccountStatus
  const Active := "active"
  const Suspended := "suspended"
  const Closed := "closed"

  const Statuses: set<string> := {Active, Suspended, Closed}

  /** `AccountStatus.ToString`: a known constant renders as itself, anything
      else through `strings.Title`. */
  function StatusToString(s: string): (r: string)
    ensures s in Statuses ==> r == s
    ensures s !in Statuses ==> r == Title(s)
  {
    if s == Active then "active"
    else if s == Suspended then "suspended"
    else if s == Closed then "closed"
    else Title(s)
  }

  /** Rendering a rendered status changes nothing: every known status
      starts lower-case and no title-cased value does. */
  lemma StatusToStringIdempotent(s: string)
    ensures StatusToString(StatusToString(s)) == StatusToString(s)
  {
    if s !in Statuses {
      TitleIdempotent(s);
      TitleNeverStartsLower(s);
      assert forall k :: k in Statuses ==> StartsLower(k);
    }
  }

  // AccountType
  const Trial := "Trial"
  const Full := "Full"

  const AccountTypes: set<string> := {Trial, Full}

  /** `AccountType.ToString`: a known constant renders as itself, anything
      else through `strings.Title`. */
  function TypeToString(s: string): (r: string)
    ensures s in AccountTypes ==> r == s
    ensures s !in AccountTypes ==> r == Title(s)
  {
    if s == Trial then "Trial"
    else if s == Full then "Full"
    else Title(s)
  }

  /** Both account types are already title case, so their cases agree with
      the fallback: the rendering is `strings.Title` on every input. */
  lemma TypeToStringIsTitle(s: string)
    ensures TypeToString(s) == Title(s)
  {
    if s in AccountTypes {
      TitleOfWord(s);
    }
  }

  /** `Create`: POST to BaseUrl + "/Accounts.json". */
  function Create(c: TwilioClient, data: Option<Values>, answer: Exchange<Record>): (call: Call<Record>)
    ensures call.request == Request(POST, c.baseUrl + "/Accounts.json", OrEmpty(data))
    ensures call.outcome == Classify(answer)
  {
    Services.CreateCall(c, AccountResource, data, answer)
  }

  /** `Update`: POST to BaseUrl + "/Accounts/" + sid + ".json". */
  function Update(c: TwilioClient, accountSid: string, data: Option<Values>, answer: Exchange<Record>): (call: Call<Record>)
    ensures call.request == Request(POST, c.baseUrl + "/Accounts/" + accountSid + ".json", OrEmpty(data))
    ensures call.outcome == Classify(answer)
  {
    Services.UpdateCall(c, AccountResource, accountSid, data, answer)
  }

  /** `Delete`: an update of the item whose only form field is Status=closed;
      no HTTP DELETE is sent. */
  function Delete(c: TwilioClient, accountSid: string, answer: Exchange<Record>): (call: Call<Record>)
    ensures call.request == Request(POST, c.baseUrl + "/Accounts/" + accountSid + ".json", map["Status" := ["closed"]])
    ensures call.request.verb != DELETE
    ensures call.outcome == Classify(answer)
  {
    var data := map["Status" := [StatusToString(Closed)]];
    Services.UpdateCall(c, AccountResource, accountSid, Some(data), answer)
  }

  /** `Get`: GET of the item URL with empty query parameters. */
  function Get(c: TwilioClient, accountSid: string, answer: Exchange<Record>): (call: Call<Record>)
    ensures call.request == GetRequest(c.baseUrl + "/Accounts/" + accountSid + ".json", Some(map[]))
    ensures call.request.params == map[]
    ensures call.outcome == Classify(answer)
  {
    assert Services.ItemUrl(c, AccountResource, accountSid) == c.baseUrl + "/Accounts/" + accountSid + ".json";
    Services.GetCall(c, AccountResource, accountSid, answer)
  }

  /** `GetPageIterator`. */
  method GetPageIterator(c: TwilioClient, data: Option<Values>) returns (it: ListIterator)
    ensures fresh(it) && fresh(it.p)
    ensures it.State() == NewCursor(data, c.baseUrl + "/Accounts.json")
  {
    it := Services.GetPageIterator(c, AccountResource, data);
  }

  /** `GetPage`: the first `Next` of a fresh iterator. */
  method GetPage(c: TwilioClient, data: Option<Values>, answer: Exchange<ListPage>) returns (call: Call<ListPage>)
    ensures call.request == GetRequest(c.baseUrl + "/Accounts.json", data)
    ensures call.outcome == Classify(answer)
  {
    var it := GetPageIterator(c, data);
    var sent, result := it.Next(answer);
    call := Call(sent.value, result);
  }
}
