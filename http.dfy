/** What a handler sees of a request and returns as a response, and the replies of
    the remote provisioning API, whose calls are inputs of the model. */
module Http {
  import opened Wrappers
  import opened Documents

  /** A request field is usable when it is truthy: present and not the empty string. */
  predicate Present(field: Option<string>)
  {
    field.Some? && field.value != ""
  }

  /** The outcome of `await fetch(...)` followed by reading its JSON body: the call or
      the parsing threw, or a reply arrived with an HTTP status and a body. */
  datatype Reply<T> = Threw | Replied(status: nat, data: T)

  /** `response.ok`. */
  predicate IsOk(status: nat)
  {
    200 <= status <= 299
  }

  /** `status || 500`. */
  function StatusOr500(status: nat): (code: nat)
    ensures code != 0
    ensures status != 0 ==> code == status
    ensures status == 0 ==> code == 500
  {
    if status == 0 then 500 else status
  }

  /** The `result` object of a successful provisioning call. */
  datatype ServerInfo = ServerInfo(
    idServer: string,
    idUser: string,
    username: string,
    domain: string,
    password: string)

  /** The JSON body of a provisioning reply: `null`, or an object whose `status` is
      truthy or not and which may carry a `result`. */
  datatype ApiData = JsonNull | ApiObject(status: bool, result: Option<ServerInfo>)

  /** The remote call succeeded: `apiResponse.ok && apiData.status`. */
  predicate Provisioned(reply: Reply<ApiData>)
  {
    reply.Replied? && IsOk(reply.status) && reply.data.ApiObject? && reply.data.status
  }

  /** The JSON body of a response. `Crashed` is the answer of a caught exception,
      whose message text is not modelled. */
  datatype Body =
    | Message(success: bool, text: string)
    | Crashed
    | Remote(data: ApiData)
    | ConfigList(configs: seq<PanelConfig>)
    | UserList(users: seq<UserView>)
    | PanelList(panels: seq<UserPanel>)
    | LoggedIn(token: string, user: Identity)
    | Registered(username: string, password: string, accountType: string)

  datatype Response = Response(code: nat, body: Body)

  function Fail(code: nat, text: string): Response
  {
    Response(code, Message(false, text))
  }

  /** A provisioning call that did not succeed: the remote status (or 500) and the
      remote body (or a fallback message when the body is `null`). Only reached when
      `apiResponse.ok` is false or `apiData.status` is falsy, so a `null` body here
      comes with a status that is not ok. */
  function RemoteFailure(status: nat, data: ApiData, fallback: string): (r: Response)
    ensures r.code == StatusOr500(status)
    ensures data.ApiObject? ==> r.body == Remote(data)
    ensures data.JsonNull? ==> r.body == Message(false, fallback)
  {
    Response(StatusOr500(status), if data.JsonNull? then Message(false, fallback) else Remote(data))
  }
}
