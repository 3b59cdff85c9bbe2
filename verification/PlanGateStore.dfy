/** The plan map behind its mutex. */
module PlanGateStore {
  import opened Wrappers
  import opened PlanGate
  import Text

  class Gate {
    var plans: Plans

    constructor ()
      ensures plans == map[]
    {
      plans := map[];
    }

    method InvalidatePlan(paths: seq<string>)
      modifies this
      ensures forall p :: p in plans <==> p in old(plans) && p !in paths
      ensures forall p :: p in plans ==> plans[p] == old(plans)[p]
    {
      for i := 0 to |paths|
        invariant forall p :: p in plans <==> p in old(plans) && p !in paths[..i]
        invariant forall p :: p in plans ==> plans[p] == old(plans)[p]
      {
        plans := plans - {paths[i]};
        assert paths[..i + 1] == paths[..i] + [paths[i]];
      }
      assert paths[..|paths|] == paths;
    }

    method RecordCommandPlan(path: string, reference: PlanReference, now: Time)
      modifies this
      ensures plans == old(plans)[path := PlanRecord(reference, now)]
    {
      plans := plans[path := PlanRecord(reference, now)];
    }

    method ValidatePlanForCommand(c: Command, now: Time) returns (r: Result<PlanReference, Rejection>)
      ensures r == Validate(plans, c, now)
    {
      if c.path !in plans { return Err(PlanRequired); }
      var record := plans[c.path];
      if now - record.createdAt >= TTL { return Err(PlanRequired); }
      var ref := record.reference;
      if ref.tool != c.tool { return Err(PlanMismatch); }
      if ref.env != c.env { return Err(PlanMismatch); }
      if ref.connectionId != c.connectionId { return Err(PlanMismatch); }
      if !AllowsMutation(c.tool, ref.planCommand, c.command) { return Err(PlanMismatch); }
      var provided := Text.TrimSpace(c.hash);
      if provided == "" { return Err(HashRequired); }
      if provided != ref.hash { return Err(HashMismatch); }
      return Ok(ref);
    }

    method ConsumePlanForCommand(c: Command, now: Time) returns (r: Result<PlanReference, Rejection>)
      modifies this
      ensures (plans, r) == Consume(old(plans), c, now)
    {
      r := ValidatePlanForCommand(c, now);
      if r.Ok? {
        plans := plans - {c.path};
      }
    }
  }
}
