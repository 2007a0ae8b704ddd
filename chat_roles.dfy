/** twilioClient/chat_roles.go: chat roles on the chat API, URLs without a suffix. */
module ChatRoles {
  import opened Wrappers
  import opened Client
  import opened Paging
  import opened Text
  import Services

  const ChatRoleApiPath := "Roles"
  const ChatRoleResource := Services.Resource(Services.ChatBase, ChatRoleApiPath, "")

  // ChatRoleType
  const Channel := "channel"
  const Deployment := "deployment"

  const RoleTypes: set<string> := {Channel, Deployment}

  /** `ChatRoleType.ToString`: a known constant renders as itself, anything
      else through `strings.Title`. */
  function RoleTypeToString(s: string): (r: string)
    ensures s in RoleTypes ==> r == s
    ensures s !in RoleTypes ==> r == Title(s)
  {
    if s == Channel then "channel"
    else if s == Deployment then "deployment"
    else Title(s)
  }

  /** Rendering a rendered value changes nothing: every known constant
      starts lower-case and no title-cased value does. */
  lemma RoleTypeToStringIdempotent(s: string)
    ensures RoleTypeToString(RoleTypeToString(s)) == RoleTypeToString(s)
  {
    if s !in RoleTypes {
      TitleIdempotent(s);
      TitleNeverStartsLower(s);
      assert forall k :: k in RoleTypes ==> StartsLower(k);
    }
  }

  // ChatPermission
  const CreateChannel := "createChannel"
  const JoinChannel := "joinChannel"
  const SendMessage := "sendMessage"
  const SendMediaMessage := "sendMediaMessage"
  const LeaveChannel := "leaveChannel"
  const DeleteOwnMessage := "deleteOwnMessage"
  const DestroyChannel := "destroyChannel"
  const InviteMember := "inviteMember"
  const RemoveMember := "removeMember"
  const EditChannelName := "editChannelName"
  const EditChannelAttributes := "editChannelAttributes"
  const AddMember := "addMember"
  const EditOwnMessage := "editOwnMessage"
  const EditAnyMessage := "editAnyMessage"
  const EditOwnMessageAttributes := "editOwnMessageAttributes"
  const EditAnyMessageAttributes := "editAnyMessageAttributes"
  const DeleteAnyMessage := "deleteAnyMessage"
  const EditOwnUserInfo := "editOwnUserInfo"
  const EditAnyUserInfo := "editAnyUserInfo"

  const Permissions: set<string> := {
    CreateChannel, JoinChannel, SendMessage, SendMediaMessage, LeaveChannel, DeleteOwnMessage,
    DestroyChannel, InviteMember, RemoveMember, EditChannelName, EditChannelAttributes,
    AddMember, EditOwnMessage, EditAnyMessage, EditOwnMessageAttributes,
    EditAnyMessageAttributes, DeleteAnyMessage, EditOwnUserInfo, EditAnyUserInfo
  }

  /** `ChatPermission.ToString`: a known constant renders as itself, anything
      else through `strings.Title`. */
  function PermissionToString(s: string): (r: string)
    ensures s in Permissions ==> r == s
    ensures s !in Permissions ==> r == Title(s)
  {
    if s == CreateChannel then "createChannel"
    else if s == JoinChannel then "joinChannel"
    else if s == SendMessage then "sendMessage"
    else if s == SendMediaMessage then "sendMediaMessage"
    else if s == LeaveChannel then "leaveChannel"
    else if s == DeleteOwnMessage then "deleteOwnMessage"
    else if s == DestroyChannel then "destroyChannel"
    else if s == InviteMember then "inviteMember"
    else if s == RemoveMember then "removeMember"
    else if s == EditChannelName then "editChannelName"
    else if s == EditChannelAttributes then "editChannelAttributes"
    else if s == AddMember then "addMember"
    else if s == EditOwnMessage then "editOwnMessage"
    else if s == EditAnyMessage then "editAnyMessage"
    else if s == EditOwnMessageAttributes then "editOwnMessageAttributes"
    else if s == EditAnyMessageAttributes then "editAnyMessageAttributes"
    else if s == DeleteAnyMessage then "deleteAnyMessage"
    else if s == EditOwnUserInfo then "editOwnUserInfo"
    else if s == EditAnyUserInfo then "editAnyUserInfo"
    else Title(s)
  }

  /** Rendering a rendered value changes nothing: every known constant
      starts lower-case and no title-cased value does. */
  lemma PermissionToStringIdempotent(s: string)
    ensures PermissionToString(PermissionToString(s)) == PermissionToString(s)
  {
    if s !in Permissions {
      TitleIdempotent(s);
      TitleNeverStartsLower(s);
      assert forall k :: k in Permissions ==> StartsLower(k);
    }
  }

  /** `Create`: POST of the caller's form to ChatBaseUrl + "/Roles". */
  function Create(c: TwilioClient, data: Option<Values>, answer: Exchange<Record>): (call: Call<Record>)
    ensures call.request == Request(POST, c.chatBaseUrl + "/Roles", OrEmpty(data))
    ensures call.outcome == Classify(answer)
  {
    Services.CreateCall(c, ChatRoleResource, data, answer)
  }

  /** `Update`: POST of the caller's form to ChatBaseUrl + "/Roles/" + sid. */
  function Update(c: TwilioClient, appSid: string, data: Option<Values>, answer: Exchange<Record>): (call: Call<Record>)
    ensures call.request == Request(POST, c.chatBaseUrl + "/Roles/" + appSid, OrEmpty(data))
    ensures call.outcome == Classify(answer)
  {
    Services.UpdateCall(c, ChatRoleResource, appSid, data, answer)
  }

  /** `Delete`: an HTTP DELETE of the item, successful only on status 204. */
  function Delete(c: TwilioClient, appSid: string, answer: Exchange<()>): (call: Call<()>)
    ensures call.request == Request(DELETE, c.chatBaseUrl + "/Roles/" + appSid, map[])
    ensures call.outcome.Ok? <==> answer.Response? && answer.status == 204
    ensures call.outcome == ClassifyDelete(answer)
  {
    Services.DeleteCall(c, ChatRoleResource, appSid, answer)
  }

  /** `Get`: GET of the item with empty query parameters. */
  function Get(c: TwilioClient, appSid: string, answer: Exchange<Record>): (call: Call<Record>)
    ensures call.request == GetRequest(c.chatBaseUrl + "/Roles/" + appSid, Some(map[]))
    ensures call.request.params == map[]
    ensures call.outcome == Classify(answer)
  {
    assert Services.ItemUrl(c, ChatRoleResource, appSid) == c.chatBaseUrl + "/Roles/" + appSid;
    Services.GetCall(c, ChatRoleResource, appSid, answer)
  }

  /** `GetPageIterator`: a fresh iterator over the collection. */
  method GetPageIterator(c: TwilioClient, data: Option<Values>) returns (it: ListIterator)
    ensures fresh(it) && fresh(it.p)
    ensures it.State() == NewCursor(data, c.chatBaseUrl + "/Roles")
  {
    it := Services.GetPageIterator(c, ChatRoleResource, data);
  }

  /** `GetPage`: the first `Next` of a fresh iterator, a GET of the
      collection with the caller's query. */
  method GetPage(c: TwilioClient, data: Option<Values>, answer: Exchange<ListPage>) returns (call: Call<ListPage>)
    ensures call.request == GetRequest(c.chatBaseUrl + "/Roles", data)
    ensures call.outcome == Classify(answer)
  {
    var it := GetPageIterator(c, data);
    var sent, result := it.Next(answer);
    call := Call(sent.value, result);
  }
}
