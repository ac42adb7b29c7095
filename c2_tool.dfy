/** The Mythic C2 adapter: liveness of a callback, the payload identifiers of
    the first payload, and running a shell command on the "zero" agent over a
    lazily opened connection. What the Mythic server answers is an input. */
module C2Tool {
  import opened Wrappers

  const StatusSuccess: string := "success"
  const StatusFail: string := "fail"

  /** The timeout `execute_local_command` passes on by default. */
  const DefaultTimeout: int := 500

  /** An active callback as the server returns it when only `display_id` is
      asked for; `get("display_id")` gives None when the key is missing. */
  datatype ActiveCallback = ActiveCallback(displayId: Option<int>)

  /** `any(i.get("display_id") == callback_display_id for i in result)`. */
  function HasDisplayId(active: seq<ActiveCallback>, displayId: int): (found: bool)
    ensures found <==> exists i :: 0 <= i < |active| && active[i].displayId == Some(displayId)
  {
    if active == [] then false
    else if active[0].displayId == Some(displayId) then true
    else
      var found := HasDisplayId(active[1..], displayId);
      assert found ==> exists i :: 0 <= i < |active[1..]| && active[1..][i].displayId == Some(displayId);
      found
  }

  /** `check_status`, given what `get_all_active_callbacks` returns or raises:
      "success" exactly when some active callback carries the display id,
      "fail" otherwise (also when there are no active callbacks); a failing
      server call propagates. */
  function CheckStatusResult(callbackDisplayId: int, active: Outcome<seq<ActiveCallback>>): (r: Outcome<string>)
    ensures active.Raised? ==> r == Raised(active.error)
    ensures active.Ok? ==> r.Ok? && (r.value == StatusSuccess <==>
      exists i :: 0 <= i < |active.value| && active.value[i].displayId == Some(callbackDisplayId))
    ensures r.Ok? ==> r.value == StatusSuccess || r.value == StatusFail
    ensures active == Ok([]) ==> r == Ok(StatusFail)
  {
    match active
    case Raised(e) => Raised(e)
    case Ok(callbacks) => Ok(if HasDisplayId(callbacks, callbackDisplayId) then StatusSuccess else StatusFail)
  }

  /** The `filemetum` entry of a payload dict: missing (so `get` yields the
      default `{}`), present but null, or a nested dict. */
  datatype FileMetaField = Missing | Null | Present(meta: FileMeta)

  /** The two keys of `filemetum` that are read; each may be missing or null. */
  datatype FileMeta = FileMeta(id: Option<int>, agentFileId: Option<string>)

  datatype Payload = Payload(filemetum: FileMetaField)

  /** The pair `get_payload_ids` returns. */
  datatype PayloadIds = PayloadIds(payloadId: Option<int>, payloadUuid: Option<string>)

  /** `get_payload_ids`, given what `get_all_payloads` returns or raises: the
      identifiers of the FIRST payload the server lists. The display id is not
      used. A failing server call propagates, an empty list raises IndexError,
      and a `filemetum` that is present but null raises AttributeError
      (`None.get`). */
  function PayloadIdsResult(callbackDisplayId: int, payloads: Outcome<seq<Payload>>): (r: Outcome<PayloadIds>)
    ensures payloads.Raised? ==> r == Raised(payloads.error)
    ensures payloads == Ok([]) ==> r == Raised(IndexError)
    ensures payloads.Ok? && payloads.value != [] ==>
      var first := payloads.value[0].filemetum;
      && (first.Null? ==> r == Raised(AttributeError))
      && (first.Missing? ==> r == Ok(PayloadIds(None, None)))
      && (first.Present? ==> r == Ok(PayloadIds(first.meta.id, first.meta.agentFileId)))
  {
    match payloads
    case Raised(e) => Raised(e)
    case Ok(ps) =>
      if ps == [] then Raised(IndexError)
      else match ps[0].filemetum
        case Missing => Ok(PayloadIds(None, None))
        case Null => Raised(AttributeError)
        case Present(meta) => Ok(PayloadIds(meta.id, meta.agentFileId))
  }

  /** Only the first payload is read, and the display id plays no part. */
  lemma PayloadIdsReadFirstOnly(id1: int, id2: int, first: Payload, rest1: seq<Payload>, rest2: seq<Payload>)
    ensures PayloadIdsResult(id1, Ok([first] + rest1)) == PayloadIdsResult(id2, Ok([first] + rest2))
  {
  }

  /** A session with the Mythic server, as `mythic.login` returns it. */
  datatype Connection = Connection(session: nat)

  /** The task `execute_local_command` issues: the "shell" command with the
      command text as its parameters, on the given callback and connection. */
  datatype TaskRequest = TaskRequest(
    connection: Connection, commandName: string, parameters: string,
    callbackDisplayId: int, timeout: int)

  /** What `execute_local_command` returns: the output as text, the callback
      display id standing in for the task id, and the payload pair. */
  datatype LocalExecution = LocalExecution(
    output: string, taskId: int, payloadId: Option<int>, payloadUuid: Option<string>)

  /** The connection in use after `execute_local_command`: the one already
      open, or else the one a successful login opens. */
  function ConnectionAfter(instance: Option<Connection>, login: Outcome<Connection>): (c: Option<Connection>)
    ensures instance.Some? ==> c == instance
    ensures instance.None? && login.Ok? ==> c == Some(login.value)
    ensures instance.None? && login.Raised? ==> c == None
  {
    if instance.Some? then instance
    else if login.Ok? then Some(login.value)
    else None
  }

  /** The shell task `execute_local_command` issues on connection `conn`. */
  function ShellTask(conn: Connection, cmd: string, callbackDisplayId: int): TaskRequest {
    TaskRequest(conn, "shell", cmd, callbackDisplayId, DefaultTimeout)
  }

  /** What `execute_local_command(cmd, callback_display_id)` returns or raises,
      given the connection state before the call, the login the call would
      make, the server's answer to a task request and its answer to the
      payload listing on a connection. */
  function ExecuteLocalCommandResult(
    instance: Option<Connection>, login: Outcome<Connection>,
    issueTask: TaskRequest -> Outcome<string>, allPayloads: Option<Connection> -> Outcome<seq<Payload>>,
    cmd: string, callbackDisplayId: int): (r: Outcome<LocalExecution>)
    ensures ConnectionAfter(instance, login).None? ==> r == Raised(login.error)
    ensures ConnectionAfter(instance, login).Some? ==>
      var conn := ConnectionAfter(instance, login).value;
      var output := issueTask(ShellTask(conn, cmd, callbackDisplayId));
      var ids := PayloadIdsResult(callbackDisplayId, allPayloads(Some(conn)));
      && (output.Raised? ==> r == Raised(output.error))
      && (output.Ok? && ids.Raised? ==> r == Raised(ids.error))
      && (output.Ok? && ids.Ok? ==>
            r == Ok(LocalExecution(output.value, callbackDisplayId, ids.value.payloadId, ids.value.payloadUuid)))
  {
    match ConnectionAfter(instance, login)
    case None => Raised(login.error)
    case Some(conn) =>
      match issueTask(ShellTask(conn, cmd, callbackDisplayId))
      case Raised(e) => Raised(e)
      case Ok(output) =>
        match PayloadIdsResult(callbackDisplayId, allPayloads(Some(conn)))
        case Raised(e) => Raised(e)
        case Ok(ids) => Ok(LocalExecution(output, callbackDisplayId, ids.payloadId, ids.payloadUuid))
  }

  /** The module and its global `mythic_instance`. */
  class MythicModule {
    /** The module-global connection; None until a login succeeds. */
    var mythicInstance: Option<Connection>

    /** At import time no connection exists. */
    constructor ()
      ensures mythicInstance == None
    {
      mythicInstance := None;
    }

    /** `init_mythic`: log in and keep the connection, replacing any earlier
        one. A failing login raises before the global is assigned, so it keeps
        its value. */
    method InitMythic(login: Outcome<Connection>) returns (r: Outcome<Connection>)
      modifies this
      ensures r == login
      ensures login.Ok? ==> mythicInstance == Some(login.value)
      ensures login.Raised? ==> mythicInstance == old(mythicInstance)
    {
      if login.Raised? {
        return login;
      }
      mythicInstance := Some(login.value);
      r := login;
    }

    /** `check_status`: asks the server for the active callbacks on the
        current connection, whatever it is (None included); it never opens
        one. */
    method CheckStatus(callbackDisplayId: int, activeCallbacks: Option<Connection> -> Outcome<seq<ActiveCallback>>)
      returns (r: Outcome<string>)
      ensures r == CheckStatusResult(callbackDisplayId, activeCallbacks(mythicInstance))
    {
      var result := activeCallbacks(mythicInstance);
      if result.Raised? {
        return Raised(result.error);
      }
      var hasId := HasDisplayId(result.value, callbackDisplayId);
      if hasId {
        return Ok(StatusSuccess);
      } else {
        return Ok(StatusFail);
      }
    }

    /** `get_payload_ids`: lists the payloads on the current connection and
        reads the first one; it never opens a connection. */
    method GetPayloadIds(callbackDisplayId: int, allPayloads: Option<Connection> -> Outcome<seq<Payload>>)
      returns (r: Outcome<PayloadIds>)
      ensures r == PayloadIdsResult(callbackDisplayId, allPayloads(mythicInstance))
    {
      var payloadA := allPayloads(mythicInstance);
      if payloadA.Raised? {
        return Raised(payloadA.error);
      }
      if payloadA.value == [] {
        return Raised(IndexError);
      }
      var payload := payloadA.value[0];
      match payload.filemetum {
        case Missing => r := Ok(PayloadIds(None, None));
        case Null => r := Raised(AttributeError);
        case Present(meta) => r := Ok(PayloadIds(meta.id, meta.agentFileId));
      }
    }

    /** `execute_local_command`: log in only when no connection exists yet,
        then issue the shell task on the connection and read the payload
        identifiers. An existing connection is reused and never replaced. */
    method ExecuteLocalCommand(
      cmd: string, callbackDisplayId: int, login: Outcome<Connection>,
      issueTask: TaskRequest -> Outcome<string>, allPayloads: Option<Connection> -> Outcome<seq<Payload>>)
      returns (r: Outcome<LocalExecution>)
      modifies this
      ensures mythicInstance == ConnectionAfter(old(mythicInstance), login)
      ensures old(mythicInstance).Some? ==> mythicInstance == old(mythicInstance)
      ensures r == ExecuteLocalCommandResult(old(mythicInstance), login, issueTask, allPayloads, cmd, callbackDisplayId)
    {
      if mythicInstance.None? {
        var conn := InitMythic(login);
        if conn.Raised? {
          return Raised(conn.error);
        }
      }
      var output := issueTask(ShellTask(mythicInstance.value, cmd, callbackDisplayId));
      if output.Raised? {
        return Raised(output.error);
      }
      var ids := GetPayloadIds(callbackDisplayId, allPayloads);
      if ids.Raised? {
        return Raised(ids.error);
      }
      r := Ok(LocalExecution(output.value, callbackDisplayId, ids.value.payloadId, ids.value.payloadUuid));
    }
  }

  /** The application's startup hook (`on_startup` in the server's entry
      module): call `init_mythic` at once and swallow its failure, so the
      server starts with or without a connection. */
  method OnStartup(m: MythicModule, login: Outcome<Connection>)
    modifies m
    ensures login.Ok? ==> m.mythicInstance == Some(login.value)
    ensures login.Raised? ==> m.mythicInstance == old(m.mythicInstance)
  {
    var _ := m.InitMythic(login);
  }

  /** Once a connection exists, later calls keep using it whatever a login
      would have returned; before that, a successful call leaves one open. */
  lemma ConnectionIsLazyAndSticky(instance: Option<Connection>, login1: Outcome<Connection>, login2: Outcome<Connection>)
    ensures instance.Some? ==> ConnectionAfter(instance, login1) == ConnectionAfter(instance, login2) == instance
    ensures ConnectionAfter(instance, login1).Some? ==>
      ConnectionAfter(ConnectionAfter(instance, login1), login2) == ConnectionAfter(instance, login1)
    ensures instance.None? && login1.Raised? ==>
      ConnectionAfter(ConnectionAfter(instance, login1), login2) == ConnectionAfter(instance, login2)
  {
  }

  /** Every successful local execution happened on an open connection, and
      reports the task's output, the callback display id as its task id, and
      the identifiers of the first payload listed on that connection alone. */
  lemma LocalExecutionShape(
    instance: Option<Connection>, login: Outcome<Connection>,
    issueTask: TaskRequest -> Outcome<string>, allPayloads: Option<Connection> -> Outcome<seq<Payload>>,
    cmd: string, callbackDisplayId: int)
    requires ExecuteLocalCommandResult(instance, login, issueTask, allPayloads, cmd, callbackDisplayId).Ok?
    ensures ConnectionAfter(instance, login).Some?
    ensures var e := ExecuteLocalCommandResult(instance, login, issueTask, allPayloads, cmd, callbackDisplayId).value;
      var conn := ConnectionAfter(instance, login).value;
      var ps := allPayloads(Some(conn));
      && issueTask(ShellTask(conn, cmd, callbackDisplayId)) == Ok(e.output)
      && e.taskId == callbackDisplayId
      && ps.Ok? && ps.value != []
      && PayloadIdsResult(0, Ok(ps.value[..1])) == Ok(PayloadIds(e.payloadId, e.payloadUuid))
  {
    var conn := ConnectionAfter(instance, login).value;
    var ps := allPayloads(Some(conn)).value;
    assert ps[..1] == [ps[0]] + [];
    PayloadIdsReadFirstOnly(callbackDisplayId, 0, ps[0], ps[1..], []);
    assert ps == [ps[0]] + ps[1..];
  }
}
