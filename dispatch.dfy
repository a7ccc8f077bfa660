/**
 * What happens around the transport call of one record: the `catch` block's translation of a
 * thrown error into the message the node rethrows, and the unwrapping of the `getHWID` reply.
 */
module RemnawaveDispatch {
  import opened Wrappers
  import opened JsonValue
  import opened RemnawaveHost
  import opened RemnawavePlanner

  /** The actions whose 404 the node reports as a missing user. */
  predicate ReportsNotFound(a: Action)
  {
    a.CheckUser? || a.UpdateUser? || a.DeleteUser? || a.RevokeSubscription?
  }

  /** `error.message || error`: the message, or the error's own text when the message is empty. */
  function Detail(e: Thrown): (d: string)
    ensures e.message != "" ==> d == e.message
    ensures e.message == "" ==> d == e.asString
  {
    if e.message != "" then e.message else e.asString
  }

  const NotFoundPrefix := "User not found with "
  const ApiErrorPrefix := "API Error: "

  /**
   * The message of the error the catch block rethrows. A 404 on a lookup or a mutation of one
   * user names the identifier; everything else (a 404 elsewhere, an unknown action, a parse
   * failure, a missing parameter, any other status) is "API Error: " and the thrown detail.
   */
  function ErrorMessage(host: Host, action: Action, e: Thrown, locals: Locals): (msg: string)
    ensures ApiErrorPrefix <= msg <==> !(e.statusCode == Some(404) && ReportsNotFound(action))
    ensures NotFoundPrefix <= msg <==> e.statusCode == Some(404) && ReportsNotFound(action)
    ensures !(e.statusCode == Some(404) && ReportsNotFound(action)) ==> msg == ApiErrorPrefix + Detail(e)
    ensures e.statusCode == Some(404) && action.CheckUser? ==>
      msg == NotFoundPrefix + Text(host, locals.identifierType) + ": " + Text(host, locals.identifierValue)
    ensures e.statusCode == Some(404) && ReportsNotFound(action) && !action.CheckUser? ==>
      msg == NotFoundPrefix + "UUID: " + Text(host, locals.identifierValue)
  {
    if e.statusCode == Some(404) && action == CheckUser then
      var m := "User not found with " + Text(host, locals.identifierType) + ": " + Text(host, locals.identifierValue);
      assert m[0] == 'U';
      m
    else if e.statusCode == Some(404) && (action == UpdateUser || action == DeleteUser || action == RevokeSubscription) then
      var m := "User not found with UUID: " + Text(host, locals.identifierValue);
      assert m[0] == 'U';
      m
    else
      var m := "API Error: " + Detail(e);
      assert m[0] == 'A';
      m
  }

  /**
   * The record a successful reply becomes. For `getHWID`, `response.response.devices` replaces
   * the reply when both steps of that path are truthy; reading `.response` of a null reply throws
   * outside the `try` (None). Every other action passes the reply through.
   */
  function Normalize(action: Action, response: Json): (r: Option<Json>)
    ensures !action.GetHwid? ==> r == Some(response)
    ensures r.None? <==> action.GetHwid? && response.JNull?
    ensures r.Some? && r.value != response ==>
      && response.JObj? && "response" in response.fields
      && response.fields["response"].JObj? && "devices" in response.fields["response"].fields
      && r.value == response.fields["response"].fields["devices"] && Truthy(r.value)
  {
    if !action.GetHwid? then Some(response)
    else match response
      case JNull => None
      case JObj(fields) =>
        if "response" in fields && Truthy(fields["response"]) then
          match fields["response"]
          case JObj(inner) =>
            if "devices" in inner && Truthy(inner["devices"]) then Some(inner["devices"]) else Some(response)
          case _ => Some(response)
        else Some(response)
      case _ => Some(response)
  }

  /** A reply shaped {response: {devices: d}, ...} with a truthy d (any array, even empty) becomes d. */
  lemma NormalizeUnwrapsDeviceList(fields: map<string, Json>, inner: map<string, Json>, devices: Json)
    requires Truthy(devices)
    ensures Normalize(GetHwid, JObj(fields["response" := JObj(inner["devices" := devices])])) == Some(devices)
  {
  }

  /** A non-null `getHWID` reply without a truthy response.devices passes through unchanged. */
  lemma NormalizeFallsBackToRawReply(response: Json)
    requires !response.JNull?
    requires !(response.JObj? && "response" in response.fields && response.fields["response"].JObj?
               && "devices" in response.fields["response"].fields
               && Truthy(response.fields["response"].fields["devices"]))
    ensures Normalize(GetHwid, response) == Some(response)
  {
  }
}
