/** Processing a command in the context of a chain: the deny-list gate and the
    construction of the attack step from what the zero agent returned, plus
    the agent status query. */
module Proc {
  import opened Wrappers
  import PyStr
  import Config
  import C2Tool

  /** The module's own copy of the deny-list. */
  const UnsafeCmd: seq<string> := [
    "rm -fr /", "dd if=/dev/zero of=", "chown -R root:root /",
    "rm -rf /", ":(){ :|:& };:", "rm -rf *"
  ]

  /** The module's own copy of the phase names. */
  const Phases: seq<string> := [
    "Reconnaissance", "Resource Development",
    "Delivery", "Social Engineering",
    "Exploitation", "Persistence", "Defense Evasion",
    "Command & Control", "Pivoting", "Discovery",
    "Privilege Escalation", "Execution", "Credential Access",
    "Lateral Movement", "Collection", "Exfiltration",
    "Impact", "Objectives"
  ]

  const StepSuccess: string := "success"

  /** The attack step record the function builds (not yet persisted). */
  datatype AttackStep = AttackStep(
    chainId: int,
    phase: string,
    toolName: string,
    command: string,
    mythicTaskId: int,
    mythicPayloadUuid: Option<string>,
    mythicPayloadId: Option<int>,
    rawLog: string,
    status: string)

  /** The two copies of the catalog constants agree, entry for entry. */
  lemma CopiesAgree()
    ensures Phases == Config.Phases
    ensures UnsafeCmd == Config.UnsafeCmd
  {
  }

  /** `get_agent_status`: what `check_status` returns or raises, unchanged,
      given the server's answer to the active-callback query. */
  function GetAgentStatus(callbackDisplayId: int, active: Outcome<seq<C2Tool.ActiveCallback>>): (status: Outcome<string>)
    ensures active.Raised? ==> status == Raised(active.error)
    ensures active.Ok? ==> status.Ok? && (status.value == C2Tool.StatusSuccess <==>
      exists i :: 0 <= i < |active.value| && active.value[i].displayId == Some(callbackDisplayId))
    ensures status.Ok? && status.value != C2Tool.StatusSuccess ==> status.value == C2Tool.StatusFail
  {
    C2Tool.CheckStatusResult(callbackDisplayId, active)
  }

  /** The gate: a command is refused only when it IS one of the deny-list
      entries. */
  predicate PassesGate(cmd: string) {
    cmd !in UnsafeCmd
  }

  /** `check_and_process_local_cmd(cmd, c_display_id, chain_id, phase_name)`,
      given what `execute_local_command(cmd, c_display_id)` returns or raises.
      The assert fails before the backend is called; the backend's exception
      propagates; `cmd.split()[0]` raises IndexError on a blank command. */
  function CheckAndProcessLocalCmd(
    cmd: string, cDisplayId: int, chainId: int, phaseName: string,
    backend: Outcome<C2Tool.LocalExecution>): (r: Outcome<AttackStep>)
    ensures !PassesGate(cmd) ==> r == Raised(AssertionError)
    ensures PassesGate(cmd) && backend.Raised? ==> r == Raised(backend.error)
    ensures PassesGate(cmd) && backend.Ok? ==> (r.Raised? <==> PyStr.AllSpace(cmd))
    ensures r.Raised? && PassesGate(cmd) && backend.Ok? ==> r.error == IndexError
    ensures r.Ok? ==> r.value.status == StepSuccess
  {
    if !PassesGate(cmd) then Raised(AssertionError)
    else match backend
      case Raised(e) => Raised(e)
      case Ok(exec) =>
        PyStr.SplitEmpty(cmd);
        var words := PyStr.Split(cmd);
        if words == [] then Raised(IndexError)
        else Ok(AttackStep(
          chainId := chainId,
          phase := phaseName,
          toolName := words[0],
          command := cmd,
          mythicTaskId := exec.taskId,
          mythicPayloadUuid := exec.payloadUuid,
          mythicPayloadId := exec.payloadId,
          rawLog := exec.output,
          status := StepSuccess))
  }

  /** A deny-list entry is refused with the assertion error whatever the
      backend would have answered: the backend is not consulted. */
  lemma UnsafeCommandRejected(
    cmd: string, cDisplayId: int, chainId: int, phaseName: string,
    backend1: Outcome<C2Tool.LocalExecution>, backend2: Outcome<C2Tool.LocalExecution>)
    requires cmd in UnsafeCmd
    ensures CheckAndProcessLocalCmd(cmd, cDisplayId, chainId, phaseName, backend1) == Raised(AssertionError)
    ensures CheckAndProcessLocalCmd(cmd, cDisplayId, chainId, phaseName, backend1)
         == CheckAndProcessLocalCmd(cmd, cDisplayId, chainId, phaseName, backend2)
  {
  }

  /** A step is built exactly when the command is not a deny-list entry, the
      backend answered and the command has a non-blank word. The step carries
      the arguments unchanged, the first word as its tool, the backend's four
      values in their places, and status "success". */
  lemma BuiltStep(
    cmd: string, cDisplayId: int, chainId: int, phaseName: string,
    backend: Outcome<C2Tool.LocalExecution>)
    ensures CheckAndProcessLocalCmd(cmd, cDisplayId, chainId, phaseName, backend).Ok?
      <==> cmd !in UnsafeCmd && backend.Ok? && !PyStr.AllSpace(cmd)
    ensures CheckAndProcessLocalCmd(cmd, cDisplayId, chainId, phaseName, backend).Ok? ==>
      var step := CheckAndProcessLocalCmd(cmd, cDisplayId, chainId, phaseName, backend).value;
      && step.chainId == chainId
      && step.phase == phaseName
      && step.command == cmd
      && (exists a: nat :: a <= |cmd| && PyStr.FirstRunAt(cmd, a, step.toolName))
      && step.rawLog == backend.value.output
      && step.mythicTaskId == backend.value.taskId
      && step.mythicPayloadId == backend.value.payloadId
      && step.mythicPayloadUuid == backend.value.payloadUuid
      && step.status == StepSuccess
  {
    PyStr.SplitEmpty(cmd);
    if !PyStr.AllSpace(cmd) {
      PyStr.SplitFirstWord(cmd);
    }
  }

  /** A blank command passes the gate and reaches the backend; if the backend
      answers, splitting it fails and no step is produced. */
  lemma BlankCommandReachesBackend(
    cmd: string, cDisplayId: int, chainId: int, phaseName: string,
    backend: Outcome<C2Tool.LocalExecution>)
    requires PyStr.AllSpace(cmd)
    ensures PassesGate(cmd)
    ensures CheckAndProcessLocalCmd(cmd, cDisplayId, chainId, phaseName, backend)
         == if backend.Ok? then Raised(IndexError) else Raised(backend.error)
  {
    forall i | 0 <= i < |UnsafeCmd| ensures UnsafeCmd[i] != cmd {
      assert !PyStr.IsSpace(UnsafeCmd[i][0]);
    }
    PyStr.SplitEmpty(cmd);
  }

  /** The gate is exact membership: text that merely contains a deny-list
      idiom passes it and is run. */
  lemma GateIsExactMembership()
    ensures "rm -rf /" in UnsafeCmd && !PassesGate("rm -rf /")
    ensures PyStr.Contains("sudo rm -rf /", "rm -rf /") && PassesGate("sudo rm -rf /")
    ensures PyStr.Contains("rm -rf / ", "rm -rf /") && PassesGate("rm -rf / ")
  {
    assert PyStr.OccursAt("sudo rm -rf /", "rm -rf /", 5);
    assert PyStr.OccursAt("rm -rf / ", "rm -rf /", 0);
  }

  /** Every canonical command of the catalog passes the gate. */
  lemma CanonicalCommandsPassGate(cmd: string)
    requires Config.IsCanonical(cmd)
    ensures PassesGate(cmd)
  {
    Config.NoCanonicalCommandIsUnsafe();
    CopiesAgree();
  }

  /** The handler together with the local execution it awaits: a step is
      built exactly when the command passes the gate, is not blank, and the
      connection, the shell task and the payload listing all succeed. Its raw
      log is the task's output on that connection, its task id the callback
      display id, and its payload identifiers the first listed payload's. */
  lemma StepFromLocalExecution(
    cmd: string, cDisplayId: int, chainId: int, phaseName: string,
    instance: Option<C2Tool.Connection>, login: Outcome<C2Tool.Connection>,
    issueTask: C2Tool.TaskRequest -> Outcome<string>,
    allPayloads: Option<C2Tool.Connection> -> Outcome<seq<C2Tool.Payload>>)
    ensures var backend := C2Tool.ExecuteLocalCommandResult(instance, login, issueTask, allPayloads, cmd, cDisplayId);
      var built := CheckAndProcessLocalCmd(cmd, cDisplayId, chainId, phaseName, backend).Ok?;
      built <==> PassesGate(cmd) && !PyStr.AllSpace(cmd) && backend.Ok?
    ensures var backend := C2Tool.ExecuteLocalCommandResult(instance, login, issueTask, allPayloads, cmd, cDisplayId);
      var r := CheckAndProcessLocalCmd(cmd, cDisplayId, chainId, phaseName, backend);
      r.Ok? ==>
        && C2Tool.ConnectionAfter(instance, login).Some?
        && var conn := C2Tool.ConnectionAfter(instance, login).value;
        && issueTask(C2Tool.ShellTask(conn, cmd, cDisplayId)) == Ok(r.value.rawLog)
        && r.value.mythicTaskId == cDisplayId
        && C2Tool.PayloadIdsResult(cDisplayId, allPayloads(Some(conn)))
             == Ok(C2Tool.PayloadIds(r.value.mythicPayloadId, r.value.mythicPayloadUuid))
  {
    var backend := C2Tool.ExecuteLocalCommandResult(instance, login, issueTask, allPayloads, cmd, cDisplayId);
    BuiltStep(cmd, cDisplayId, chainId, phaseName, backend);
    if backend.Ok? {
      C2Tool.LocalExecutionShape(instance, login, issueTask, allPayloads, cmd, cDisplayId);
    }
  }
}
