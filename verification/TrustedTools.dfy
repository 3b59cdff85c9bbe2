/** The authorizer over the firewall: what an allowed decision says about the history of the tool it allows. */
module TrustedTools {
  import opened Wrappers
  import opened Routing
  import Allowlists
  import Firewall

  /** What the firewall tells the authorizer about a tool. */
  function RoutingEntry(e: Firewall.ToolEntry): Entry { Entry(e.serverId, e.name, e.risk, e.decision) }

  /** The evaluator after any history of discoveries and allowlist edits, asked about the tool of a request. */
  ghost function Answer(history: seq<Firewall.Action>, configured: Allowlists.Allowlist, q: Request): Entry {
    RoutingEntry(Firewall.Evaluate(Firewall.After(Firewall.EMPTY, history), configured, q.serverId, q.project,
                                   q.toolName))
  }

  ghost predicate SeenTwice(history: seq<Firewall.Action>, q: Request) {
    Firewall.SeenTwiceReadOnly(Firewall.Discoveries(history, q.serverId), q.toolName)
  }

  lemma FirewallSaysAllowedExactlyWhen(history: seq<Firewall.Action>, configured: Allowlists.Allowlist, q: Request)
    ensures FirewallSays(Some(Answer(history, configured, q)), q, "allowed")
       <==> q.risk == RiskReadOnly && SeenTwice(history, q)
  {
    var inventory := Firewall.After(Firewall.EMPTY, history);
    Firewall.AllowedExactlyWhenSeenTwice(history, configured, q.serverId, q.project, q.toolName);
    Firewall.DecisionsAreConsistent(inventory, configured, q.serverId, q.project, q.toolName);
    Firewall.AllowedIsKnownReadOnly(inventory, configured, q.serverId, q.project, q.toolName);
    Firewall.StatusTextsDiffer();
  }

  lemma UnconditionalAllowRulesAreReadOnly(policy: Policy, q: Request)
    requires AllowRuleDecides(Some(policy), q, false)
    ensures q.risk == RiskReadOnly
  {
    var i :| Decides(policy.rules, q, i) && policy.rules[i].effect == EffectAllow && !policy.rules[i].approvalRequired;
    assert policy.rules[i] in policy.rules;
    assert RuleValid(policy.rules[i]);
  }

  /**
   Over every history of discoveries, failures and allowlist edits, a request is allowed outright exactly when an allow
   rule without approval decides and the last two persisted discoveries of its server both saw its tool, with one
   schema and, by the later, read-only. No allowlist entry can bring that about.
   */
  lemma AllowedExactlyWhenTrusted(policy: Option<Policy>, history: seq<Firewall.Action>,
                                  configured: Allowlists.Allowlist, q: Request)
    ensures Authorize(policy, Some(Answer(history, configured, q)), q).status == Allowed
       <==> Preflight(q).None? && AllowRuleDecides(policy, q, false) && SeenTwice(history, q)
  {
    AllowedExactlyWhen(policy, Some(Answer(history, configured, q)), q);
    FirewallSaysAllowedExactlyWhen(history, configured, q);
    if AllowRuleDecides(policy, q, false) { UnconditionalAllowRulesAreReadOnly(policy.value, q); }
  }

  /** The decision of an entry tells one story. */
  predicate Consistent(d: ToolDecision) {
    && d.untrustedOutput
    && (d.status == "allowed" || d.status == "approval_required" || d.status == "blocked")
    && (d.status == "allowed" <==> d.allowed) && (d.status == "approval_required" <==> d.approvalRequired)
  }

  lemma ConsistentIsJudged(rule: Rule, q: Request, d: ToolDecision)
    requires Consistent(d)
    ensures EvaluateMatched(rule, q, d).reason in
              {PolicyDenied, AirlockRiskMismatch, AirlockBlocked, NeedsApproval, IsAllowed}
  {
    Firewall.StatusTextsDiffer();
  }

  lemma ConsistentAnswersAreValid(policy: Option<Policy>, entry: Entry, q: Request)
    requires entry.serverId == q.serverId && entry.name == q.toolName && entry.risk == entry.decision.risk
    requires Consistent(entry.decision)
    ensures var reason := Authorize(policy, Some(entry), q).reason;
            && reason != InvalidAirlockDecision && reason != AirlockServerMismatch
            && reason != AirlockToolMismatch && reason != AirlockUnavailable
  {
    if policy.Some? && FirstMatch(policy.value.rules, q).Some? {
      ConsistentIsJudged(FirstMatch(policy.value.rules, q).value, q, entry.decision);
    }
  }

  /** The firewall's answer is never the reason the authorizer calls a decision invalid. */
  lemma FirewallAnswersAreValid(policy: Option<Policy>, history: seq<Firewall.Action>,
                                configured: Allowlists.Allowlist, q: Request)
    ensures var reason := Authorize(policy, Some(Answer(history, configured, q)), q).reason;
            && reason != InvalidAirlockDecision && reason != AirlockServerMismatch
            && reason != AirlockToolMismatch && reason != AirlockUnavailable
  {
    var inventory := Firewall.After(Firewall.EMPTY, history);
    Firewall.DecisionsAreConsistent(inventory, configured, q.serverId, q.project, q.toolName);
    ConsistentAnswersAreValid(policy, Answer(history, configured, q), q);
  }
}
