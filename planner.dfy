/**
 * The per-record request planner of the Remnawave node: which HTTP method, absolute URL and
 * body each of the eight actions sends, how the base URL is trimmed, and the fixed headers.
 */
module RemnawavePlanner {
  import opened Wrappers
  import opened JsonValue
  import opened RemnawaveHost

  // ---------------------------------------------------------------- actions

  datatype Action =
    | CreateUser
    | GetUsers
    | CheckUser
    | UpdateUser
    | DeleteUser
    | GetHwid
    | DeleteHwid
    | RevokeSubscription
    | Unknown(name: Json)

  /** The eight option values of the `action` parameter. */
  const OptionValues: set<Json> :=
    {JStr("createUser"), JStr("getUsers"), JStr("checkUser"), JStr("updateUser"),
     JStr("deleteUser"), JStr("getHWID"), JStr("deleteHWID"), JStr("revokeSubscription")}

  /** The `action` parameter compared with `===` against each option value, in the order of the if/else chain. */
  function ParseAction(v: Json): (a: Action)
    ensures a.Unknown? <==> v !in OptionValues
    ensures a.Unknown? ==> a.name == v
  {
    if v == JStr("createUser") then CreateUser
    else if v == JStr("getUsers") then GetUsers
    else if v == JStr("checkUser") then CheckUser
    else if v == JStr("updateUser") then UpdateUser
    else if v == JStr("deleteUser") then DeleteUser
    else if v == JStr("getHWID") then GetHwid
    else if v == JStr("deleteHWID") then DeleteHwid
    else if v == JStr("revokeSubscription") then RevokeSubscription
    else Unknown(v)
  }

  /** The option value the node declares for each action. */
  function ActionValue(a: Action): Json
  {
    match a
    case CreateUser => JStr("createUser")
    case GetUsers => JStr("getUsers")
    case CheckUser => JStr("checkUser")
    case UpdateUser => JStr("updateUser")
    case DeleteUser => JStr("deleteUser")
    case GetHwid => JStr("getHWID")
    case DeleteHwid => JStr("deleteHWID")
    case RevokeSubscription => JStr("revokeSubscription")
    case Unknown(name) => name
  }

  /** Recognising an action loses nothing: the parameter value can be read back from it. */
  lemma ParseActionInverse(v: Json)
    ensures ActionValue(ParseAction(v)) == v
  {
  }

  /** Every declared option value is recognised as its own action. */
  lemma ParseActionDeclared(a: Action)
    requires !a.Unknown?
    ensures ParseAction(ActionValue(a)) == a
  {
  }

  // ---------------------------------------------------------------- identifier types

  /** The five options of the `identifierType` parameter. */
  datatype IdentifierType = Uuid | ShortUuid | Username | TelegramId | Email

  function IdentifierTypeValue(t: IdentifierType): string
  {
    match t
    case Uuid => "uuid"
    case ShortUuid => "short-uuid"
    case Username => "username"
    case TelegramId => "telegram-id"
    case Email => "email"
  }

  // ---------------------------------------------------------------- base URL and headers

  /** `url.replace(/\/+$/, '')`: drop the run of slashes at the end of the base URL. */
  function TrimTrailingSlashes(s: string): (r: string)
    ensures r <= s
    ensures r == [] || r[|r| - 1] != '/'
    ensures forall k | |r| <= k < |s| :: s[k] == '/'
  {
    if |s| > 0 && s[|s| - 1] == '/' then TrimTrailingSlashes(s[..|s| - 1]) else s
  }

  /** Trimming removes every trailing slash and nothing else: no other prefix of s has both properties. */
  lemma TrimTrailingSlashesUnique(s: string, t: string)
    requires t <= s
    requires t == [] || t[|t| - 1] != '/'
    requires forall k | |t| <= k < |s| :: s[k] == '/'
    ensures t == TrimTrailingSlashes(s)
  {
  }

  lemma TrimTrailingSlashesIdempotent(s: string)
    ensures TrimTrailingSlashes(TrimTrailingSlashes(s)) == TrimTrailingSlashes(s)
  {
  }

  /** The header object sent with every request. */
  function Headers(apiKey: string): (h: map<string, string>)
    ensures h.Keys == {"Authorization", "Content-Type"}
    ensures h["Authorization"] == "Bearer " + apiKey && h["Content-Type"] == "application/json"
  {
    map["Authorization" := "Bearer " + apiKey, "Content-Type" := "application/json"]
  }

  // ---------------------------------------------------------------- the route table

  /** The method of each route of the remote API; an unrecognised action has none. */
  function RouteMethod(a: Action): Option<Method>
  {
    match a
    case CreateUser => Some(POST)
    case GetUsers => Some(GET)
    case CheckUser => Some(GET)
    case UpdateUser => Some(PATCH)
    case DeleteUser => Some(DELETE)
    case GetHwid => Some(GET)
    case DeleteHwid => Some(POST)
    case RevokeSubscription => Some(POST)
    case Unknown(_) => None
  }

  /**
   * The locals `identifierType` and `identifierValue` that the catch block reads; each branch
   * assigns them before its later parameter reads, so a failure part-way leaves them part-set.
   */
  datatype Locals = Locals(identifierType: Json, identifierValue: Json)

  const Unset := Locals(JStr(""), JStr(""))

  /** What the `try` block has done by the time it calls the transport, or the error it threw first. */
  datatype Planned = Planned(locals: Locals, request: Result<Request, Thrown>)

  /** `typeof raw === 'string' ? JSON.parse(raw) : raw` for the `updateFields` parameter, defaulting to '{}'. */
  function ParsedFields(host: Host, item: Item): (r: Result<Json, Thrown>)
    ensures ParamOr(item, "updateFields", JStr("{}")).JStr? ==> r == Parse(host, ParamOr(item, "updateFields", JStr("{}")).s)
    ensures !ParamOr(item, "updateFields", JStr("{}")).JStr? ==> r == Ok(ParamOr(item, "updateFields", JStr("{}")))
  {
    var raw := ParamOr(item, "updateFields", JStr("{}"));
    if raw.JStr? then Parse(host, raw.s) else Ok(raw)
  }

  /** The URL of a `checkUser` lookup: UUIDs go to /users/{value}, other identifier types to /users/by-{type}/{value}. */
  function CheckUserUrl(host: Host, apiUrl: string, identifierType: Json, identifierValue: Json): string
  {
    if identifierType == JStr("uuid") then apiUrl + "/users/" + Text(host, identifierValue)
    else apiUrl + "/users/by-" + Text(host, identifierType) + "/" + Text(host, identifierValue)
  }

  /**
   * The body of the `try` block up to the transport call: the if/else chain over the action.
   * Every request it plans carries the fixed headers and the route's method under the base URL;
   * an unrecognised action throws before any request exists.
   */
  function Plan(host: Host, apiUrl: string, headers: map<string, string>, action: Action, item: Item): (p: Planned)
    ensures p.request.Ok? ==> RouteMethod(action) == Some(p.request.value.httpMethod)
    ensures p.request.Ok? ==> p.request.value.headers == headers
    ensures p.request.Ok? ==> apiUrl + "/" <= p.request.value.url
    ensures action.Unknown? ==> p.request == Err(NodeError("Unknown action: " + Text(host, action.name)))
    ensures p.request.Err? ==> p.request.error.statusCode.None?
  {
    match action
    case CreateUser =>
      var fields := ParsedFields(host, item);
      Planned(Unset, if fields.Err? then Err(fields.error)
                     else Ok(Request(POST, apiUrl + "/users", headers, Some(Spread(fields.value)))))
    case GetUsers =>
      Planned(Unset, Ok(Request(GET, apiUrl + "/users", headers, None)))
    case CheckUser =>
      (match Param(host, item, "identifierType")
       case Err(e) => Planned(Unset, Err(e))
       case Ok(idType) =>
         match Param(host, item, "identifierValue")
         case Err(e) => Planned(Locals(idType, JStr("")), Err(e))
         case Ok(idValue) =>
           Planned(Locals(idType, idValue), Ok(Request(GET, CheckUserUrl(host, apiUrl, idType, idValue), headers, None))))
    case UpdateUser =>
      (match Param(host, item, "updateUuid")
       case Err(e) => Planned(Unset, Err(e))
       case Ok(uuid) =>
         var fields := ParsedFields(host, item);
         Planned(Locals(JStr(""), uuid),
                 if fields.Err? then Err(fields.error)
                 else Ok(Request(PATCH, apiUrl + "/users/" + Text(host, uuid), headers, Some(Spread(fields.value))))))
    case DeleteUser =>
      (match Param(host, item, "deleteIdentifierValue")
       case Err(e) => Planned(Unset, Err(e))
       case Ok(uuid) =>
         Planned(Locals(JStr(""), uuid), Ok(Request(DELETE, apiUrl + "/users/" + Text(host, uuid), headers, None))))
    case GetHwid =>
      (match Param(host, item, "userUuid")
       case Err(e) => Planned(Unset, Err(e))
       case Ok(userUuid) =>
         Planned(Unset, Ok(Request(GET, apiUrl + "/hwid/devices/" + Text(host, userUuid), headers, None))))
    case DeleteHwid =>
      (match Param(host, item, "userUuid")
       case Err(e) => Planned(Unset, Err(e))
       case Ok(userUuid) =>
         match Param(host, item, "hwid")
         case Err(e) => Planned(Unset, Err(e))
         case Ok(hwid) =>
           Planned(Unset, Ok(Request(POST, apiUrl + "/hwid/devices/delete", headers,
                                     Some(map["userUuid" := userUuid, "hwid" := hwid])))))
    case RevokeSubscription =>
      (match Param(host, item, "revokeUuid")
       case Err(e) => Planned(Unset, Err(e))
       case Ok(uuid) =>
         Planned(Locals(JStr(""), uuid),
                 Ok(Request(POST, apiUrl + "/users/" + Text(host, uuid) + "/actions/revoke", headers, Some(map[])))))
    case Unknown(name) =>
      Planned(Unset, Err(NodeError("Unknown action: " + Text(host, name))))
  }

  // ---------------------------------------------------------------- properties of the planner

  /** The parameters an action reads without a fallback, in the order it reads them. */
  function RequiredParameters(a: Action): seq<string>
  {
    match a
    case CheckUser => ["identifierType", "identifierValue"]
    case UpdateUser => ["updateUuid"]
    case DeleteUser => ["deleteIdentifierValue"]
    case GetHwid => ["userUuid"]
    case DeleteHwid => ["userUuid", "hwid"]
    case RevokeSubscription => ["revokeUuid"]
    case _ => []
  }

  /** Whether an action sends the `updateFields` object as its body. */
  predicate SendsFields(a: Action)
  {
    a.CreateUser? || a.UpdateUser?
  }

  /** The first of `names` the record lacks. */
  function FirstMissing(names: seq<string>, item: Item): (r: Option<string>)
    ensures r.None? <==> forall k | 0 <= k < |names| :: names[k] in item.params
    ensures r.Some? ==> r.value in names && r.value !in item.params
    ensures r.Some? ==> exists j | 0 <= j < |names| :: names[j] == r.value && forall k | 0 <= k < j :: names[k] in item.params
  {
    if names == [] then None
    else if names[0] !in item.params then Some(names[0])
    else FirstMissing(names[1..], item)
  }

  /**
   * A recognised action's plan fails exactly when the record lacks a parameter the action reads
   * (the first one missing is the error) or, once those are all there, when `updateFields` does not parse.
   */
  lemma PlanFailure(host: Host, apiUrl: string, headers: map<string, string>, action: Action, item: Item)
    requires !action.Unknown?
    ensures var p := Plan(host, apiUrl, headers, action, item);
      match FirstMissing(RequiredParameters(action), item)
      case Some(name) => p.request == Err(Untagged(host.missingParameter(name)))
      case None =>
        if SendsFields(action) && ParsedFields(host, item).Err?
        then p.request == Err(ParsedFields(host, item).error)
        else p.request.Ok?
  {
    var names := RequiredParameters(action);
    if |names| == 2 {
      assert names[1..] == [names[1]];
    }
  }

  /**
   * The route table of the node: for every recognised action whose plan succeeds, the URL under
   * the base URL and the body (None is an absent body, Some(map[]) is `{}`).
   */
  lemma PlanRoutes(host: Host, apiUrl: string, headers: map<string, string>, action: Action, item: Item)
    requires Plan(host, apiUrl, headers, action, item).request.Ok?
    ensures var r := Plan(host, apiUrl, headers, action, item).request.value;
      var fields := ParsedFields(host, item);
      match action
      case CreateUser =>
        && r.httpMethod == POST && r.url == apiUrl + "/users"
        && fields.Ok? && r.body == Some(Spread(fields.value))
      case GetUsers =>
        r.httpMethod == GET && r.url == apiUrl + "/users" && r.body.None?
      case CheckUser =>
        && r.httpMethod == GET && r.body.None?
        && "identifierType" in item.params && "identifierValue" in item.params
        && r.url == CheckUserUrl(host, apiUrl, item.params["identifierType"], item.params["identifierValue"])
      case UpdateUser =>
        && r.httpMethod == PATCH
        && "updateUuid" in item.params && r.url == apiUrl + "/users/" + Text(host, item.params["updateUuid"])
        && fields.Ok? && r.body == Some(Spread(fields.value))
      case DeleteUser =>
        && r.httpMethod == DELETE && r.body.None?
        && "deleteIdentifierValue" in item.params
        && r.url == apiUrl + "/users/" + Text(host, item.params["deleteIdentifierValue"])
      case GetHwid =>
        && r.httpMethod == GET && r.body.None?
        && "userUuid" in item.params && r.url == apiUrl + "/hwid/devices/" + Text(host, item.params["userUuid"])
      case DeleteHwid =>
        && r.httpMethod == POST && r.url == apiUrl + "/hwid/devices/delete"
        && "userUuid" in item.params && "hwid" in item.params
        && r.body == Some(map["userUuid" := item.params["userUuid"], "hwid" := item.params["hwid"]])
      case RevokeSubscription =>
        && r.httpMethod == POST && r.body == Some(map[])
        && "revokeUuid" in item.params
        && r.url == apiUrl + "/users/" + Text(host, item.params["revokeUuid"]) + "/actions/revoke"
      case Unknown(_) => false
  {
  }

  /** The record that carries `identifierType` t and `identifierValue` value and nothing else a lookup reads. */
  function LookupItem(t: IdentifierType, value: string, item: Item): (r: Item)
    ensures "identifierType" in r.params && r.params["identifierType"] == JStr(IdentifierTypeValue(t))
    ensures "identifierValue" in r.params && r.params["identifierValue"] == JStr(value)
  {
    Item(item.params["identifierType" := JStr(IdentifierTypeValue(t))]["identifierValue" := JStr(value)])
  }

  /**
   * `checkUser` URLs: the uuid type gives apiUrl/users/{value}; every other type gives
   * apiUrl/users/by-{type}/{value}.
   */
  lemma CheckUserRoutes(host: Host, apiUrl: string, headers: map<string, string>, t: IdentifierType, value: string, item: Item)
    ensures var p := Plan(host, apiUrl, headers, CheckUser, LookupItem(t, value, item));
      && p.request.Ok? && p.request.value.httpMethod == GET
      && p.request.value.url == (if t == Uuid then apiUrl + "/users/" + value
                                 else apiUrl + "/users/by-" + IdentifierTypeValue(t) + "/" + value)
      && p.locals == Locals(JStr(IdentifierTypeValue(t)), JStr(value))
  {
  }

  /** `pattern` occurs in s starting at index i. */
  predicate OccursAt(pattern: string, s: string, i: nat)
  {
    i + |pattern| <= |s| && s[i..i + |pattern|] == pattern
  }

  /** `pattern` occurs somewhere in s. */
  predicate Occurs(pattern: string, s: string)
  {
    exists i: nat | i <= |s| :: OccursAt(pattern, s, i)
  }

  /** An occurrence of "by-" in apiUrl/users/value lies inside apiUrl or inside value: "/users/" cannot hold any part of it. */
  lemma ByOccurrenceInParts(apiUrl: string, value: string, i: nat)
    requires OccursAt("by-", apiUrl + "/users/" + value, i)
    ensures Occurs("by-", apiUrl) || Occurs("by-", value)
  {
    var u := apiUrl + "/users/" + value;
    var n := |apiUrl|;
    assert u[i] == 'b' && u[i + 1] == 'y' && u[i + 2] == '-';
    if i + 3 <= n {
      assert apiUrl[i..i + 3] == u[i..i + 3];
      assert OccursAt("by-", apiUrl, i);
    } else if i >= n + 7 {
      assert value[i - n - 7..i - n - 4] == u[i..i + 3];
      assert OccursAt("by-", value, i - n - 7);
    }
  }

  /**
   * A uuid lookup never introduces "by-": the URL contains it only when the base URL or the
   * value already does. Every other identifier type puts it in the path.
   */
  lemma ByPrefixOnlyForAlternateKeys(apiUrl: string, t: IdentifierType, value: string)
    ensures t == Uuid && !Occurs("by-", apiUrl) && !Occurs("by-", value) ==> !Occurs("by-", apiUrl + "/users/" + value)
    ensures t != Uuid ==> Occurs("by-", apiUrl + "/users/by-" + IdentifierTypeValue(t) + "/" + value)
  {
    var url := apiUrl + "/users/by-" + IdentifierTypeValue(t) + "/" + value;
    assert OccursAt("by-", url, |apiUrl| + 7);
    var u := apiUrl + "/users/" + value;
    if Occurs("by-", u) {
      var i: nat :| i <= |u| && OccursAt("by-", u, i);
      ByOccurrenceInParts(apiUrl, value, i);
    }
  }

  /** The record with its `updateFields` parameter replaced. */
  function WithFields(item: Item, v: Json): (r: Item)
    ensures "updateFields" in r.params && r.params["updateFields"] == v
  {
    Item(item.params["updateFields" := v])
  }

  /**
   * `updateFields` given as JSON text and as the value that text parses to plan the same
   * request: same method, URL, headers and a body with the same fields.
   */
  lemma FieldsTextOrValueAgree(host: Host, apiUrl: string, headers: map<string, string>, action: Action, item: Item, text: string, v: Json)
    requires host.parse(text) == Ok(v) && !v.JStr?
    ensures Plan(host, apiUrl, headers, action, WithFields(item, JStr(text)))
         == Plan(host, apiUrl, headers, action, WithFields(item, v))
  {
  }

  /** The parameters the node declares; the host resolves no other name for a record. */
  const DeclaredParameters: set<string> :=
    {"action", "revokeUuid", "identifierType", "identifierValue", "updateUuid", "updateFields", "userUuid", "hwid"}

  /**
   * `deleteUser` reads `deleteIdentifierValue`, which the node does not declare (its field is
   * `identifierValue`): on a record with only declared parameters it always fails before any request.
   */
  lemma DeleteUserReadsUndeclaredParameter(host: Host, apiUrl: string, headers: map<string, string>, item: Item)
    requires item.params.Keys <= DeclaredParameters
    ensures Plan(host, apiUrl, headers, DeleteUser, item) == Planned(Unset, Err(Untagged(host.missingParameter("deleteIdentifierValue"))))
  {
  }
}
