/**
 Authorization of one tool call: scoped policy rules, the intersection with the firewall's decision,
 and the consistency checks the recorder makes before a decision may change a run.
 */
module Routing {
  import opened Wrappers
  import opened AgentRuns
  import Text

  datatype Risk =
    | RiskReadOnly | RiskGenerateCode | RiskModifyWorkspace | RiskCloudMutation
    | RiskSecretSensitive | RiskDestructive | RiskUnknown
    | OtherRisk(text: string)

  datatype Request = Request(
    project: string, providerId: string, connectionId: string, serverId: string, toolName: string,
    mode: Mode, risk: Risk)

  datatype Effect = EffectAllow | EffectDeny | OtherEffect(text: string)

  datatype Rule = Rule(
    project: string, providerId: string, connectionId: string, serverId: string, toolName: string,
    modes: seq<Mode>, risk: Risk, effect: Effect, approvalRequired: bool)

  datatype Policy = Policy(rules: seq<Rule>)

  datatype Verdict = Denied | ApprovalRequired | Allowed | OtherVerdict(text: string)

  datatype Reason =
    | InvalidRequest | InvalidPolicy | PolicyUnavailable | ModeRiskMismatch | NoMatchingRule | PolicyDenied
    | AirlockUnavailable | AirlockServerMismatch | AirlockToolMismatch | AirlockRiskMismatch
    | InvalidAirlockDecision | AirlockBlocked
    | NeedsApproval | IsAllowed
    | OtherReason(text: string)

  datatype Decision = Decision(
    status: Verdict, reason: Reason, allowed: bool, approvalRequired: bool, untrustedOutput: bool)

  /** The firewall's answer for one tool. */
  datatype ToolDecision = ToolDecision(
    status: string, allowed: bool, approvalRequired: bool, risk: Risk, allowlisted: bool, untrustedOutput: bool)

  datatype Entry = Entry(serverId: string, name: string, risk: Risk, decision: ToolDecision)

  predicate ValidRisk(r: Risk) { !r.OtherRisk? }

  predicate RequestValid(r: Request) {
    && Text.Required(r.project) && Text.Required(r.providerId) && Text.Required(r.connectionId)
    && Text.Required(r.serverId) && Text.Required(r.toolName)
    && ValidMode(r.mode) && ValidRisk(r.risk)
  }

  predicate RuleValid(r: Rule) {
    && Text.Required(r.project) && Text.Required(r.providerId) && Text.Required(r.connectionId)
    && Text.Required(r.serverId) && Text.Required(r.toolName)
    && r.modes != [] && (forall m :: m in r.modes ==> ValidMode(m))
    && ValidRisk(r.risk)
    && !r.effect.OtherEffect?
    && !(r.effect == EffectDeny && r.approvalRequired)
    && !(r.effect == EffectAllow && r.risk == RiskUnknown)
    && !(r.effect == EffectAllow && r.risk != RiskReadOnly && !r.approvalRequired)
  }

  predicate PolicyValid(p: Policy) {
    forall r :: r in p.rules ==> RuleValid(r)
  }

  predicate Matches(r: Rule, q: Request) {
    && r.project == q.project && r.providerId == q.providerId && r.connectionId == q.connectionId
    && r.serverId == q.serverId && r.toolName == q.toolName && r.risk == q.risk
    && q.mode in r.modes
  }

  function FirstMatch(rules: seq<Rule>, q: Request): Option<Rule> {
    if rules == [] then None
    else if Matches(rules[0], q) then Some(rules[0])
    else FirstMatch(rules[1..], q)
  }

  /** Rule `i` is the one that decides. */
  predicate Decides(rules: seq<Rule>, q: Request, i: int) {
    0 <= i < |rules| && Matches(rules[i], q) && forall j :: 0 <= j < i ==> !Matches(rules[j], q)
  }

  lemma {:induction false} FirstMatchIsFirst(rules: seq<Rule>, q: Request)
    ensures FirstMatch(rules, q).None? <==> forall i :: 0 <= i < |rules| ==> !Matches(rules[i], q)
    ensures forall i :: Decides(rules, q, i) ==> FirstMatch(rules, q) == Some(rules[i])
    ensures FirstMatch(rules, q).Some? ==> exists i :: Decides(rules, q, i)
  {
    if rules != [] && !Matches(rules[0], q) {
      var rest := rules[1..];
      FirstMatchIsFirst(rest, q);
      assert forall i :: 0 < i < |rules| ==> rules[i] == rest[i - 1];
      forall i | Decides(rules, q, i) ensures FirstMatch(rules, q) == Some(rules[i]) {
        DecidesLater(rules, q, i);
      }
      if FirstMatch(rules, q).Some? {
        var i :| Decides(rest, q, i);
        DecidesLater(rules, q, i + 1);
      }
    } else if rules != [] {
      assert Decides(rules, q, 0);
    }
  }

  lemma DecidesLater(rules: seq<Rule>, q: Request, i: int)
    requires rules != [] && !Matches(rules[0], q)
    ensures Decides(rules, q, i) <==> Decides(rules[1..], q, i - 1)
  {
    var rest := rules[1..];
    assert forall j :: 0 < j < |rules| ==> rules[j] == rest[j - 1];
    if Decides(rest, q, i - 1) {
      forall j | 0 <= j < i ensures !Matches(rules[j], q) {
        if j > 0 { assert !Matches(rest[j - 1], q); }
      }
    }
    if Decides(rules, q, i) {
      forall j | 0 <= j < i - 1 ensures !Matches(rest[j], q) {
        assert rest[j] == rules[j + 1];
      }
    }
  }

  predicate ModeAllowsRisk(mode: Mode, risk: Risk) {
    match mode
    case ModeReadOnly => risk == RiskReadOnly
    case ModeProposeOnly => risk == RiskReadOnly || risk == RiskGenerateCode
    case ModeApprovedExecute => risk != RiskUnknown
    case OtherMode(_) => false
  }

  function Deny(reason: Reason): Decision { Decision(Denied, reason, false, false, true) }

  function AskApproval(): Decision { Decision(ApprovalRequired, NeedsApproval, false, true, true) }

  function Allow(): Decision { Decision(Allowed, IsAllowed, true, false, true) }

  function Preflight(q: Request): Option<Decision> {
    if !RequestValid(q) then Some(Deny(InvalidRequest))
    else if !ModeAllowsRisk(q.mode, q.risk) then Some(Deny(ModeRiskMismatch))
    else None
  }

  function EvaluateMatched(rule: Rule, q: Request, airlock: ToolDecision): Decision {
    if rule.effect == EffectDeny then Deny(PolicyDenied)
    else if airlock.risk != q.risk then Deny(AirlockRiskMismatch)
    else if airlock.status == "blocked" && !airlock.allowed && !airlock.approvalRequired && airlock.untrustedOutput then
      Deny(AirlockBlocked)
    else if airlock.status == "approval_required" && !airlock.allowed && airlock.approvalRequired
            && airlock.untrustedOutput then
      AskApproval()
    else if airlock.status == "allowed" && airlock.allowed && !airlock.approvalRequired && airlock.untrustedOutput then
      if rule.approvalRequired then AskApproval() else Allow()
    else Deny(InvalidAirlockDecision)
  }

  /** The pure evaluation over a policy and a firewall decision. */
  function Evaluate(policy: Policy, q: Request, airlock: ToolDecision): Decision {
    if Preflight(q).Some? then Preflight(q).value
    else if !PolicyValid(policy) then Deny(InvalidPolicy)
    else match FirstMatch(policy.rules, q)
      case None => Deny(NoMatchingRule)
      case Some(rule) => EvaluateMatched(rule, q, airlock)
  }

  /** The deciding rule and the evaluator's answer, which must be about this very tool. */
  function AuthorizeMatched(rule: Rule, answer: Option<Entry>, q: Request): Decision {
    if rule.effect == EffectDeny then Deny(PolicyDenied)
    else if answer.None? then Deny(AirlockUnavailable)
    else if answer.value.serverId != q.serverId then Deny(AirlockServerMismatch)
    else if answer.value.name != q.toolName then Deny(AirlockToolMismatch)
    else if answer.value.risk != answer.value.decision.risk then Deny(InvalidAirlockDecision)
    else EvaluateMatched(rule, q, answer.value.decision)
  }

  /** The live authorization: a policy look-up that may fail and an evaluator that may answer anything. */
  function Authorize(policy: Option<Policy>, answer: Option<Entry>, q: Request): Decision {
    if Preflight(q).Some? then Preflight(q).value
    else if policy.None? then Deny(PolicyUnavailable)
    else if !PolicyValid(policy.value) then Deny(InvalidPolicy)
    else match FirstMatch(policy.value.rules, q)
      case None => Deny(NoMatchingRule)
      case Some(rule) => AuthorizeMatched(rule, answer, q)
  }

  predicate DeniedReason(r: Reason) { !r.NeedsApproval? && !r.IsAllowed? && !r.OtherReason? }

  predicate DecisionValid(d: Decision) {
    && d.untrustedOutput
    && match d.status
       case Denied => !d.allowed && !d.approvalRequired && DeniedReason(d.reason)
       case ApprovalRequired => !d.allowed && d.approvalRequired && d.reason == NeedsApproval
       case Allowed => d.allowed && !d.approvalRequired && d.reason == IsAllowed
       case OtherVerdict(_) => false
  }

  function KindFor(risk: Risk): Option<ApprovalKind> {
    match risk
    case RiskReadOnly => Some(McpNetwork)
    case RiskGenerateCode => Some(McpNetwork)
    case RiskModifyWorkspace => Some(FileWrite)
    case RiskCloudMutation => Some(CloudWrite)
    case RiskSecretSensitive => Some(SecretRead)
    case RiskDestructive => Some(IacAction)
    case _ => None
  }

  datatype RouteError = BadRunId | BadRequest | BadDecision | ScopeMismatch | Store(error: RunError)

  predicate RunIdValid(id: string) { Text.Required(id) }

  /** The recorder's checks, in order, before it looks at the run. */
  function RecordCheck(runId: string, q: Request, d: Decision): Option<RouteError> {
    if !RunIdValid(runId) then Some(BadRunId)
    else if !RequestValid(q) then Some(BadRequest)
    else if !DecisionValid(d) then Some(BadDecision)
    else if d.status == Denied && d.reason == InvalidRequest then Some(BadDecision)
    else if !ModeAllowsRisk(q.mode, q.risk) && d.status != Denied then Some(BadRequest)
    else if !ModeAllowsRisk(q.mode, q.risk) && d.reason != ModeRiskMismatch then Some(BadDecision)
    else if ModeAllowsRisk(q.mode, q.risk) && d.status == Denied && d.reason == ModeRiskMismatch then Some(BadDecision)
    else if d.status == Allowed && q.risk != RiskReadOnly then Some(BadDecision)
    else None
  }

  predicate InScope(run: Run, q: Request) {
    run.project == q.project && run.providerId == q.providerId && run.mode == q.mode
  }

  function ModeText(m: Mode): string {
    match m
    case ModeReadOnly => "read_only"
    case ModeProposeOnly => "propose_only"
    case ModeApprovedExecute => "approved_execute"
    case OtherMode(text) => text
  }

  function RiskText(r: Risk): string {
    match r
    case RiskReadOnly => "read_only"
    case RiskGenerateCode => "generate_code"
    case RiskModifyWorkspace => "modify_workspace"
    case RiskCloudMutation => "cloud_mutation"
    case RiskSecretSensitive => "secret_sensitive"
    case RiskDestructive => "destructive"
    case RiskUnknown => "unknown"
    case OtherRisk(text) => text
  }

  lemma ModeTextInjective(a: Mode, b: Mode)
    requires ValidMode(a) && ValidMode(b) && ModeText(a) == ModeText(b)
    ensures a == b
  {
    assert |ModeText(a)| == |ModeText(b)|;
  }

  lemma RiskTextInjective(a: Risk, b: Risk)
    requires ValidRisk(a) && ValidRisk(b) && RiskText(a) == RiskText(b)
    ensures a == b
  {
    assert |RiskText(a)| == |RiskText(b)|;
    assert RiskText(a)[0] == RiskText(b)[0];
  }

  /** The text of an audit entry; Go's %q is written here as plain double quotes. */
  function RouteMessage(action: string, q: Request): string {
    action + " MCP tool \"" + q.toolName + "\" on server \"" + q.serverId + "\" for connection \"" + q.connectionId
    + "\" (" + RiskText(q.risk) + " risk, " + ModeText(q.mode) + " mode)."
  }

  function ReasonText(r: Reason): string {
    match r
    case InvalidRequest => "invalid_request"
    case InvalidPolicy => "invalid_policy"
    case PolicyUnavailable => "policy_unavailable"
    case ModeRiskMismatch => "mode_risk_mismatch"
    case NoMatchingRule => "no_matching_rule"
    case PolicyDenied => "policy_denied"
    case AirlockUnavailable => "airlock_unavailable"
    case AirlockServerMismatch => "airlock_server_mismatch"
    case AirlockToolMismatch => "airlock_tool_mismatch"
    case AirlockRiskMismatch => "airlock_risk_mismatch"
    case InvalidAirlockDecision => "invalid_airlock_decision"
    case AirlockBlocked => "airlock_blocked"
    case NeedsApproval => "approval_required"
    case IsAllowed => "allowed"
    case OtherReason(text) => text
  }

  function DenialMessage(q: Request, reason: Reason): string {
    "MCP tool \"" + q.toolName + "\" on server \"" + q.serverId + "\" for connection \"" + q.connectionId
    + "\" authorization denied (" + RiskText(q.risk) + " risk, " + ModeText(q.mode) + " mode): " + ReasonText(reason)
    + "."
  }

  // ---- Laws ----

  /** The firewall entry is about this tool and says `status` consistently. */
  predicate FirewallSays(answer: Option<Entry>, q: Request, status: string) {
    && answer.Some? && answer.value.serverId == q.serverId && answer.value.name == q.toolName
    && answer.value.risk == answer.value.decision.risk == q.risk
    && var d := answer.value.decision;
       d.status == status && d.allowed == (status == "allowed")
       && d.approvalRequired == (status == "approval_required") && d.untrustedOutput
  }

  /** The rule that decides is an allow rule with this approval flag. */
  ghost predicate AllowRuleDecides(policy: Option<Policy>, q: Request, approval: bool) {
    && policy.Some? && PolicyValid(policy.value)
    && exists i :: Decides(policy.value.rules, q, i)
         && policy.value.rules[i].effect == EffectAllow && policy.value.rules[i].approvalRequired == approval
  }

  lemma DecidingRule(policy: Policy, q: Request)
    requires PolicyValid(policy)
    ensures FirstMatch(policy.rules, q).Some? ==>
              var rule := FirstMatch(policy.rules, q).value;
              && RuleValid(rule) && Matches(rule, q)
              && (AllowRuleDecides(Some(policy), q, rule.approvalRequired) <==> rule.effect == EffectAllow)
              && !AllowRuleDecides(Some(policy), q, !rule.approvalRequired)
    ensures FirstMatch(policy.rules, q).None? ==>
              !AllowRuleDecides(Some(policy), q, true) && !AllowRuleDecides(Some(policy), q, false)
  {
    FirstMatchIsFirst(policy.rules, q);
  }

  /**
   A request is allowed outright exactly when the first matching rule of a valid policy allows without approval
   and the firewall consistently says allowed; such a request is always read-only.
   */
  lemma AllowedExactlyWhen(policy: Option<Policy>, answer: Option<Entry>, q: Request)
    ensures Authorize(policy, answer, q).status == Allowed
       <==> Preflight(q).None? && AllowRuleDecides(policy, q, false) && FirewallSays(answer, q, "allowed")
    ensures Authorize(policy, answer, q).status == Allowed ==> q.risk == RiskReadOnly
  {
    if policy.Some? && PolicyValid(policy.value) { DecidingRule(policy.value, q); }
  }

  /** Approval is asked for exactly when an allow rule decides and either the firewall or the rule wants approval. */
  lemma ApprovalExactlyWhen(policy: Option<Policy>, answer: Option<Entry>, q: Request)
    ensures Authorize(policy, answer, q).status == ApprovalRequired
       <==> && Preflight(q).None?
            && (|| ((AllowRuleDecides(policy, q, false) || AllowRuleDecides(policy, q, true))
                    && FirewallSays(answer, q, "approval_required"))
                || (AllowRuleDecides(policy, q, true) && FirewallSays(answer, q, "allowed")))
  {
    if policy.Some? && PolicyValid(policy.value) { DecidingRule(policy.value, q); }
  }

  lemma MatchedShape(rule: Rule, q: Request, airlock: ToolDecision)
    ensures var d := EvaluateMatched(rule, q, airlock);
            DecisionValid(d) && d.reason != InvalidRequest && d.reason != ModeRiskMismatch
  {
  }

  lemma AnswerShape(rule: Rule, answer: Option<Entry>, q: Request)
    ensures var d := AuthorizeMatched(rule, answer, q);
            DecisionValid(d) && d.reason != InvalidRequest && d.reason != ModeRiskMismatch
  {
    if answer.Some? { MatchedShape(rule, q, answer.value.decision); }
  }

  lemma JudgedShape(policy: Option<Policy>, answer: Option<Entry>, q: Request)
    requires Preflight(q).None?
    ensures var d := Authorize(policy, answer, q);
            DecisionValid(d) && d.reason != InvalidRequest && d.reason != ModeRiskMismatch
  {
    if policy.Some? && FirstMatch(policy.value.rules, q).Some? {
      AnswerShape(FirstMatch(policy.value.rules, q).value, answer, q);
    }
  }

  lemma PreflightShape(q: Request)
    ensures Preflight(q).None? <==> RequestValid(q) && ModeAllowsRisk(q.mode, q.risk)
    ensures Preflight(q).Some? ==>
              && DecisionValid(Preflight(q).value)
              && (Preflight(q).value.reason == InvalidRequest <==> !RequestValid(q))
              && (Preflight(q).value.reason == ModeRiskMismatch <==> RequestValid(q))
  {
  }

  /** Every decision is consistent, and the two preflight reasons mean what they say. */
  lemma AuthorizeShape(policy: Option<Policy>, answer: Option<Entry>, q: Request)
    ensures var d := Authorize(policy, answer, q);
            && DecisionValid(d)
            && (d.reason == InvalidRequest <==> !RequestValid(q))
            && (d.reason == ModeRiskMismatch <==> RequestValid(q) && !ModeAllowsRisk(q.mode, q.risk))
  {
    PreflightShape(q);
    if Preflight(q).None? { JudgedShape(policy, answer, q); }
  }

  /** Whatever the evaluator answers, the recorder accepts the decision on a valid request and can map its approval. */
  lemma RecorderAcceptsAuthorize(policy: Option<Policy>, answer: Option<Entry>, q: Request, runId: string)
    requires RequestValid(q) && RunIdValid(runId)
    ensures RecordCheck(runId, q, Authorize(policy, answer, q)).None?
    ensures Authorize(policy, answer, q).status == ApprovalRequired ==> KindFor(q.risk).Some?
  {
    AuthorizeShape(policy, answer, q);
    AllowedExactlyWhen(policy, answer, q);
    if policy.Some? && PolicyValid(policy.value) { DecidingRule(policy.value, q); }
  }

  /** With an entry that names the tool and agrees on its risk, the live authorization is the pure evaluation. */
  lemma AuthorizeIsEvaluate(policy: Policy, entry: Entry, q: Request)
    requires entry.serverId == q.serverId && entry.name == q.toolName && entry.risk == entry.decision.risk
    ensures Authorize(Some(policy), Some(entry), q) == Evaluate(policy, q, entry.decision)
  {
  }

  /** What passes the recorder's checks, whoever produced it. */
  lemma RecordCheckIsSound(runId: string, q: Request, d: Decision)
    requires RecordCheck(runId, q, d).None?
    ensures DecisionValid(d) && d.reason != InvalidRequest
    ensures d.status == Allowed ==> q.risk == RiskReadOnly
    ensures !ModeAllowsRisk(q.mode, q.risk) <==> d.status == Denied && d.reason == ModeRiskMismatch
  {
  }
}
