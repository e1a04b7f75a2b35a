/**
 * The approval engine (core/safety/approval.py, core/safety/models.py). The regex classifiers
 * `is_dangerous_command` and `is_safe_command` are the predicates `dangerous` and `safe`; the
 * confirmation callback is an optional function answering yes or no.
 */
module Approval {
  import opened Wrappers
  import Json
  import Paths
  import Config

  datatype ApprovalDecision = Approved | Rejected | NeedsConfirmation

  function DecisionValue(d: ApprovalDecision): string
  {
    match d
    case Approved => "approved"
    case Rejected => "rejected"
    case NeedsConfirmation => "needs_confirmation"
  }

  datatype ApprovalContext = ApprovalContext(
    toolName: string,
    params: map<string, Json.Value>,
    isMutating: bool,
    affectedPaths: seq<Paths.Path>,
    command: Option<string>,
    isDangerous: bool)

  /** `ApprovalContext(tool_name, params, is_mutating)`: no paths, no command, not dangerous. */
  function Context(toolName: string, params: map<string, Json.Value>, isMutating: bool): (c: ApprovalContext)
    ensures c.toolName == toolName && c.params == params && c.isMutating == isMutating
    ensures c.affectedPaths == [] && c.command == None && !c.isDangerous
  {
    ApprovalContext(toolName, params, isMutating, [], None, false)
  }

  /** The request shown to the user: the tool, a description and the whole context that was judged. */
  datatype SafetyConfirmation = SafetyConfirmation(toolName: string, description: string, context: ApprovalContext)

  datatype ApprovalManager = ApprovalManager(
    policy: Config.ApprovalPolicy,
    cwd: Paths.Path,
    callback: Option<SafetyConfirmation -> bool>)

  /** `_assess_command_safety`: the verdict on a shell command under the policy. */
  function AssessCommandSafety(policy: Config.ApprovalPolicy, command: string,
                               dangerous: string -> bool, safe: string -> bool): (d: ApprovalDecision)
    ensures policy == Config.Yolo ==> d == Approved
    ensures policy != Config.Yolo && dangerous(command) ==> d == Rejected
    ensures d == Rejected <==> policy != Config.Yolo && (dangerous(command) || (policy == Config.Never && !safe(command)))
    ensures d == NeedsConfirmation <==>
      !dangerous(command) && !safe(command) && (policy == Config.AutoEdit || policy == Config.OnRequest)
    ensures policy == Config.Never ==> d != NeedsConfirmation
    ensures (policy == Config.Auto || policy == Config.OnFailure) && !dangerous(command) ==> d == Approved
  {
    if policy == Config.Yolo then Approved
    else if dangerous(command) then Rejected
    else match policy
      case Never => if safe(command) then Approved else Rejected
      case Auto => Approved
      case OnFailure => Approved
      case AutoEdit => if safe(command) then Approved else NeedsConfirmation
      case _ => if safe(command) then Approved else NeedsConfirmation
  }

  predicate HasCommand(c: ApprovalContext)
  {
    c.command.Some? && c.command.value != ""
  }

  predicate AllWithin(paths: seq<Paths.Path>, cwd: Paths.Path)
  {
    forall i | 0 <= i < |paths| :: Paths.IsRelativeTo(paths[i], cwd)
  }

  /**
   * `check_approval`: non-mutating actions pass; a command's verdict stands unless it is
   * "needs confirmation"; then every affected path must lie under cwd; then the danger flag
   * asks for confirmation except under YOLO.
   */
  function CheckApproval(m: ApprovalManager, c: ApprovalContext, dangerous: string -> bool, safe: string -> bool): (d: ApprovalDecision)
    ensures !c.isMutating ==> d == Approved
    ensures c.isMutating && HasCommand(c) && AssessCommandSafety(m.policy, c.command.value, dangerous, safe) != NeedsConfirmation
            ==> d == AssessCommandSafety(m.policy, c.command.value, dangerous, safe)
    ensures d == Rejected <==> c.isMutating && HasCommand(c) && AssessCommandSafety(m.policy, c.command.value, dangerous, safe) == Rejected
    ensures d == NeedsConfirmation <==>
      c.isMutating
      && !(HasCommand(c) && AssessCommandSafety(m.policy, c.command.value, dangerous, safe) != NeedsConfirmation)
      && (!AllWithin(c.affectedPaths, m.cwd) || (c.isDangerous && m.policy != Config.Yolo))
  {
    if !c.isMutating then Approved
    else
      var verdict := if HasCommand(c) then AssessCommandSafety(m.policy, c.command.value, dangerous, safe) else NeedsConfirmation;
      if verdict != NeedsConfirmation then verdict
      else if !AllWithin(c.affectedPaths, m.cwd) then NeedsConfirmation
      else if c.isDangerous then (if m.policy == Config.Yolo then Approved else NeedsConfirmation)
      else Approved
  }

  /** Under YOLO only a path outside cwd, for an action without a command, can still ask for confirmation; nothing is rejected. */
  lemma YoloNeverRejects(m: ApprovalManager, c: ApprovalContext, dangerous: string -> bool, safe: string -> bool)
    requires m.policy == Config.Yolo
    ensures CheckApproval(m, c, dangerous, safe) != Rejected
    ensures CheckApproval(m, c, dangerous, safe) == NeedsConfirmation ==> !HasCommand(c) && !AllWithin(c.affectedPaths, m.cwd)
  {
  }

  /**
   * Under ON_REQUEST a command that is neither safe nor dangerous, on paths inside cwd and not
   * flagged dangerous, is approved without asking: the "needs confirmation" verdict falls through.
   */
  lemma UnclassifiedCommandFallsThrough(m: ApprovalManager, c: ApprovalContext, dangerous: string -> bool, safe: string -> bool)
    requires m.policy == Config.OnRequest && c.isMutating && HasCommand(c)
    requires !dangerous(c.command.value) && !safe(c.command.value)
    requires AllWithin(c.affectedPaths, m.cwd) && !c.isDangerous
    ensures AssessCommandSafety(m.policy, c.command.value, dangerous, safe) == NeedsConfirmation
    ensures CheckApproval(m, c, dangerous, safe) == Approved
  {
  }

  /** `request_confirmation`: the callback's answer, or yes when there is no callback. */
  function RequestConfirmation(m: ApprovalManager, request: SafetyConfirmation): (ok: bool)
    ensures m.callback.None? ==> ok
    ensures m.callback.Some? ==> ok == m.callback.value(request)
  {
    match m.callback
    case Some(ask) => ask(request)
    case None => true
  }
}
