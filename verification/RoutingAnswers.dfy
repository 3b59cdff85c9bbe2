/**
 The decision and the recorder's checks with modes, risks and reasons written out: which risk a mode may go as far as,
 why a request is denied, what the recorder lets through and which approval it asks for.
 */
module RoutingAnswers {
  import opened Wrappers
  import opened AgentRuns
  import opened Routing
  import Text

  /** Every pair of a mode and a risk that is not out of the question. */
  const MODE_RISKS: set<(Mode, Risk)> := {
    (ModeReadOnly, RiskReadOnly),
    (ModeProposeOnly, RiskReadOnly), (ModeProposeOnly, RiskGenerateCode),
    (ModeApprovedExecute, RiskReadOnly), (ModeApprovedExecute, RiskGenerateCode),
    (ModeApprovedExecute, RiskModifyWorkspace), (ModeApprovedExecute, RiskCloudMutation),
    (ModeApprovedExecute, RiskSecretSensitive), (ModeApprovedExecute, RiskDestructive)}

  lemma TableIsComplete(q: Request)
    requires RequestValid(q)
    ensures ModeAllowsRisk(q.mode, q.risk) <==> (q.mode, q.risk) in MODE_RISKS
  {
  }

  /**
   Whatever policy and firewall say: read-only runs go as far as reading, propose-only runs as far as generating code,
   approved runs stop at an unknown risk, and a valid request beyond that is denied for exactly this reason.
   */
  lemma ModesBoundRisks(policy: Option<Policy>, answer: Option<Entry>, q: Request)
    ensures var d := Authorize(policy, answer, q);
            && (d.status != Denied && q.mode == ModeReadOnly ==> q.risk == RiskReadOnly)
            && (d.status != Denied && q.mode == ModeProposeOnly ==>
                  q.risk == RiskReadOnly || q.risk == RiskGenerateCode)
            && (d.status != Denied ==> (q.mode, q.risk) in MODE_RISKS)
            && (d.reason == ModeRiskMismatch <==> RequestValid(q) && (q.mode, q.risk) !in MODE_RISKS)
  {
    AuthorizeShape(policy, answer, q);
    if RequestValid(q) { TableIsComplete(q); }
  }

  /** The recorder keeps to the same table, whoever made the decision. */
  lemma RecorderBoundsRisks(runId: string, q: Request, d: Decision)
    requires RecordCheck(runId, q, d).None?
    ensures d.status != Denied ==> (q.mode, q.risk) in MODE_RISKS
    ensures d.reason == ModeRiskMismatch <==> (q.mode, q.risk) !in MODE_RISKS
    ensures d.status == Allowed ==> q.risk == RiskReadOnly
  {
    TableIsComplete(q);
  }

  /** The three shapes of a consistent decision. */
  lemma DecisionShapes(d: Decision)
    ensures DecisionValid(d) <==>
              || (d.status == Denied && d == Deny(d.reason)
                  && d.reason !in {NeedsApproval, IsAllowed} && !d.reason.OtherReason?)
              || d == Decision(ApprovalRequired, NeedsApproval, false, true, true)
              || d == Decision(Allowed, IsAllowed, true, false, true)
    ensures Deny(d.reason) == Decision(Denied, d.reason, false, false, true)
  {
  }

  /** Exactly what the recorder lets through. */
  lemma RecorderAcceptsExactlyWhen(runId: string, q: Request, d: Decision)
    ensures RecordCheck(runId, q, d).None? <==>
              && RunIdValid(runId) && RequestValid(q) && DecisionValid(d) && d.reason != InvalidRequest
              && (if (q.mode, q.risk) in MODE_RISKS then d.reason != ModeRiskMismatch
                  else d.status == Denied && d.reason == ModeRiskMismatch)
              && (d.status == Allowed ==> q.risk == RiskReadOnly)
  {
    if RequestValid(q) { TableIsComplete(q); }
  }

  /** What the recorder objects to first: the run id, the request, and then what the decision says about it. */
  lemma RecorderRefusesWith(runId: string, q: Request, d: Decision)
    ensures var e := RecordCheck(runId, q, d); var beyond := (q.mode, q.risk) !in MODE_RISKS;
            && (e == Some(BadRunId) <==> runId == "" || Text.TrimSpace(runId) != runId)
            && (e == Some(BadRequest) <==>
                  && RunIdValid(runId)
                  && (!RequestValid(q) || (beyond && DecisionValid(d) && d.status != Denied)))
            && (e == Some(BadDecision) <==>
                  && RunIdValid(runId) && RequestValid(q)
                  && (|| !DecisionValid(d) || d.reason == InvalidRequest
                      || (d.status == Denied && (d.reason == ModeRiskMismatch) != beyond)
                      || (d.status == Allowed && !beyond && q.risk != RiskReadOnly)))
            && (e.Some? ==> e.value in {BadRunId, BadRequest, BadDecision})
  {
    if RequestValid(q) { TableIsComplete(q); }
  }

  // ---- Why a request is denied ----

  /** A name that is there and has no outer white space. */
  predicate Given(s: string) { s != "" && Text.TrimSpace(s) == s }

  predicate WellPut(q: Request) {
    && Given(q.project) && Given(q.providerId) && Given(q.connectionId) && Given(q.serverId) && Given(q.toolName)
    && q.mode in {ModeReadOnly, ModeProposeOnly, ModeApprovedExecute}
    && q.risk in {RiskReadOnly, RiskGenerateCode, RiskModifyWorkspace, RiskCloudMutation, RiskSecretSensitive,
                  RiskDestructive, RiskUnknown}
  }

  /** A request is invalid exactly if a name is missing or padded, or mode or risk is none of those known. */
  lemma InvalidExactlyWhenNotWellPut(policy: Option<Policy>, answer: Option<Entry>, q: Request)
    ensures Authorize(policy, answer, q).reason == InvalidRequest <==> !WellPut(q)
    ensures RequestValid(q) <==> WellPut(q)
  {
    AuthorizeShape(policy, answer, q);
  }

  /**
   A rule that may stand in a policy: complete, for known modes, and either a plain denial of a known risk, an allowance
   of reading, or an allowance of another known risk that asks for approval.
   */
  predicate Sound(r: Rule) {
    && Given(r.project) && Given(r.providerId) && Given(r.connectionId) && Given(r.serverId) && Given(r.toolName)
    && r.modes != [] && (forall m :: m in r.modes ==> m in {ModeReadOnly, ModeProposeOnly, ModeApprovedExecute})
    && (|| (r.effect == EffectDeny && !r.approvalRequired
            && (r.risk == RiskUnknown || (ModeApprovedExecute, r.risk) in MODE_RISKS))
        || (r.effect == EffectAllow && r.risk == RiskReadOnly)
        || (r.effect == EffectAllow && r.approvalRequired && (ModeApprovedExecute, r.risk) in MODE_RISKS))
  }

  lemma PolicyIsValidExactlyWhenSound(p: Policy)
    ensures PolicyValid(p) <==> forall r :: r in p.rules ==> Sound(r)
  {
    forall r ensures RuleValid(r) <==> Sound(r) {}
  }

  /** A rule about exactly this project, provider, connection, server, tool and risk, for the mode among others. */
  predicate IsAbout(r: Rule, q: Request) {
    && r == Rule(q.project, q.providerId, q.connectionId, q.serverId, q.toolName, r.modes, q.risk, r.effect,
                 r.approvalRequired)
    && q.mode in r.modes
  }

  lemma MatchesIsAbout(r: Rule, q: Request)
    ensures Matches(r, q) <==> IsAbout(r, q)
  {
  }

  /** The first rule about the request has this effect. */
  ghost predicate RuleDecides(policy: Option<Policy>, q: Request, effect: Effect) {
    && policy.Some? && PolicyValid(policy.value)
    && exists i :: FirstAbout(policy.value.rules, q, i) && policy.value.rules[i].effect == effect
  }

  ghost predicate FirstAbout(rules: seq<Rule>, q: Request, i: int) {
    0 <= i < |rules| && IsAbout(rules[i], q) && forall j :: 0 <= j < i ==> !IsAbout(rules[j], q)
  }

  ghost predicate NoRuleMatches(policy: Option<Policy>, q: Request) {
    policy.Some? && PolicyValid(policy.value) && forall r :: r in policy.value.rules ==> !IsAbout(r, q)
  }

  lemma DecidesIsFirstAbout(rules: seq<Rule>, q: Request, i: int)
    ensures Decides(rules, q, i) <==> FirstAbout(rules, q, i)
  {
    forall r ensures Matches(r, q) <==> IsAbout(r, q) { MatchesIsAbout(r, q); }
  }

  /** The evaluator's answer is about this server and this tool. */
  predicate AboutTool(answer: Option<Entry>, q: Request) {
    answer.Some? && answer.value.serverId == q.serverId && answer.value.name == q.toolName
  }

  /** The answer repeats one risk, and its decision is none of the three consistent ones on it. */
  ghost predicate Contradicts(answer: Option<Entry>, q: Request) {
    && AboutTool(answer, q)
    && (answer.value.risk != answer.value.decision.risk
        || (answer.value.decision.risk == q.risk
            && !FirewallSays(answer, q, "allowed") && !FirewallSays(answer, q, "approval_required")
            && !FirewallSays(answer, q, "blocked")))
  }

  lemma RuleDecidesFirst(policy: Option<Policy>, q: Request)
    ensures policy.Some? && PolicyValid(policy.value) ==>
              match FirstMatch(policy.value.rules, q)
              case None =>
                && NoRuleMatches(policy, q)
                && !RuleDecides(policy, q, EffectAllow) && !RuleDecides(policy, q, EffectDeny)
              case Some(rule) =>
                && !NoRuleMatches(policy, q)
                && (rule.effect == EffectAllow || rule.effect == EffectDeny)
                && (RuleDecides(policy, q, EffectAllow) <==> rule.effect == EffectAllow)
                && (RuleDecides(policy, q, EffectDeny) <==> rule.effect == EffectDeny)
  {
    if policy.Some? && PolicyValid(policy.value) {
      var rules := policy.value.rules;
      FirstMatchIsFirst(rules, q);
      forall i ensures Decides(rules, q, i) <==> FirstAbout(rules, q, i) { DecidesIsFirstAbout(rules, q, i); }
      forall r ensures Matches(r, q) <==> IsAbout(r, q) { MatchesIsAbout(r, q); }
      match FirstMatch(rules, q)
      case None =>
      case Some(rule) =>
        var i :| Decides(rules, q, i);
        assert rules[i] == rule && rule in rules && RuleValid(rule);
    }
  }

  /** The reasons that do not ask the firewall. */
  lemma PolicyReasons(policy: Option<Policy>, answer: Option<Entry>, q: Request)
    requires RequestValid(q) && (q.mode, q.risk) in MODE_RISKS
    ensures var reason := Authorize(policy, answer, q).reason;
            && (reason == PolicyUnavailable <==> policy.None?)
            && (reason == InvalidPolicy <==> policy.Some? && !PolicyValid(policy.value))
            && (reason == NoMatchingRule <==> NoRuleMatches(policy, q))
            && (reason == PolicyDenied <==> RuleDecides(policy, q, EffectDeny))
  {
    TableIsComplete(q);
    RuleDecidesFirst(policy, q);
    if policy.Some? && PolicyValid(policy.value) && FirstMatch(policy.value.rules, q).Some? {
      MatchedReasons(FirstMatch(policy.value.rules, q).value, answer, q);
    }
  }

  /** What the evaluator's answer makes of a rule that decides. */
  lemma MatchedReasons(rule: Rule, answer: Option<Entry>, q: Request)
    requires rule.effect == EffectAllow || rule.effect == EffectDeny
    ensures var reason := AuthorizeMatched(rule, answer, q).reason;
            && reason !in {PolicyUnavailable, InvalidPolicy, NoMatchingRule}
            && (reason == PolicyDenied <==> rule.effect == EffectDeny)
            && (rule.effect == EffectAllow ==>
                  && (reason == AirlockUnavailable <==> answer.None?)
                  && (reason == AirlockServerMismatch <==> answer.Some? && answer.value.serverId != q.serverId)
                  && (reason == AirlockToolMismatch <==>
                        answer.Some? && answer.value.serverId == q.serverId && answer.value.name != q.toolName)
                  && (reason == AirlockRiskMismatch <==>
                        AboutTool(answer, q) && answer.value.risk == answer.value.decision.risk != q.risk)
                  && (reason == AirlockBlocked <==> FirewallSays(answer, q, "blocked"))
                  && (reason == InvalidAirlockDecision <==> Contradicts(answer, q)))
  {
    TextsDiffer();
  }

  lemma TextsDiffer()
    ensures "allowed" != "approval_required" && "allowed" != "blocked" && "approval_required" != "blocked"
  {
    assert "allowed"[0] != "blocked"[0] && "approval_required"[0] != "blocked"[0];
    assert "allowed"[1] != "approval_required"[1];
  }

  /** The reasons that come from the firewall, where an allow rule decides. */
  lemma FirewallReasons(policy: Option<Policy>, answer: Option<Entry>, q: Request)
    requires RequestValid(q) && (q.mode, q.risk) in MODE_RISKS && RuleDecides(policy, q, EffectAllow)
    ensures var reason := Authorize(policy, answer, q).reason;
            && (reason == AirlockUnavailable <==> answer.None?)
            && (reason == AirlockServerMismatch <==> answer.Some? && answer.value.serverId != q.serverId)
            && (reason == AirlockToolMismatch <==>
                  answer.Some? && answer.value.serverId == q.serverId && answer.value.name != q.toolName)
            && (reason == AirlockRiskMismatch <==>
                  AboutTool(answer, q) && answer.value.risk == answer.value.decision.risk != q.risk)
            && (reason == AirlockBlocked <==> FirewallSays(answer, q, "blocked"))
            && (reason == InvalidAirlockDecision <==> Contradicts(answer, q))
  {
    TableIsComplete(q);
    RuleDecidesFirst(policy, q);
    MatchedReasons(FirstMatch(policy.value.rules, q).value, answer, q);
  }

  /** Nothing but a rule about exactly this request lets it through, and only if no earlier such rule denies it. */
  lemma OnlyItsOwnRuleAdmits(policy: Option<Policy>, answer: Option<Entry>, q: Request)
    requires Authorize(policy, answer, q).status != Denied
    ensures RuleDecides(policy, q, EffectAllow)
  {
    ModesBoundRisks(policy, answer, q);
    AuthorizeShape(policy, answer, q);
    RuleDecidesFirst(policy, q);
    PolicyReasons(policy, answer, q);
  }

  // ---- Which approval is asked for ----

  /** The kind of gate for each risk that can be approved. */
  const APPROVAL_KINDS: map<Risk, ApprovalKind> := map[
    RiskReadOnly := McpNetwork, RiskGenerateCode := McpNetwork, RiskModifyWorkspace := FileWrite,
    RiskCloudMutation := CloudWrite, RiskSecretSensitive := SecretRead, RiskDestructive := IacAction]

  lemma KindsAreTabled(risk: Risk)
    ensures KindFor(risk) == if risk in APPROVAL_KINDS then Some(APPROVAL_KINDS[risk]) else None
  {
  }
}
