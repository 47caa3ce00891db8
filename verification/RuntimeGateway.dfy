/** cmd/discord-bot/main.go, reconcileRuntimeGateway: which credential a runtime configuration selects. */
module RuntimeGateway {
  import opened JobTypes
  import opened Text
  import opened GatewayProfile
  import CA = CurrentAuthority
  import WG = WaitingGateway

  const CHANGED := "current Discord execution snapshot changed during the active job"
  const UNAVAILABLE := "selected Bot credential reference unavailable"

  /** The stream that runs locally, and the waiting monitor of the configuration. */
  datatype Local = Local(stream: Id, monitorPresent: bool, monitor: Option<WG.Monitor>)

  /**
   * What is decided before the credential is reconciled: the error, whether the stream defaults are
   * cleared, and the arguments of ReconcileGatewayCredential.
   */
  datatype Plan = Plan(error: Option<string>, cleared: bool, reference: string, selected: bool)

  function Refusal(error: string): Plan { Plan(Some(error), true, "", false) }

  const NOTHING := Plan(None, false, "", false)

  function Reference(service: Id, secretName: Id, fingerprint: Id): string { service + "/" + secretName + "/" + fingerprint }

  predicate PreferCurrent(current: map<Id, Id>, local: Local) {
    current != map[]
    && !(local.monitor.Some? && local.monitor.value.version == 1 && !local.monitor.value.executionActive && local.stream == "")
  }

  /** What the waiting monitor decides when the current authority is not preferred. */
  ghost predicate PlannedByMonitor(cfg: CA.Config, r: CA.GatewayAuthority, local: Local, plan: Plan) {
    if !local.monitorPresent && local.monitor.None? then plan == NOTHING
    else exists w :: WG.Outcome(Trim(cfg.serviceID), local.monitor, r, w) && plan == PlanOf(cfg, w)
  }

  function PlanOf(cfg: CA.Config, w: CA.Result<WG.Selection>): Plan {
    match w
    case Err(error) => Refusal(error)
    case Ok(s) =>
      if s.binding.None? then NOTHING
      else Plan(None, false, Reference(cfg.serviceID, s.binding.value.secretName, s.binding.value.fingerprint), true)
  }

  /** The plan for a granted authority. */
  ghost predicate PlannedWith(cfg: CA.Config, r: CA.GatewayAuthority, local: Local, plan: Plan) {
    if local.stream != "" && local.stream !in r.current then plan == Refusal(CHANGED)
    else if PreferCurrent(r.current, local)
    then plan == Plan(None, false, Reference(cfg.serviceID, r.binding.secretName, r.binding.fingerprint), true)
    else PlannedByMonitor(cfg, r, local, plan)
  }

  /** The plan for a configuration, and the profile cache it leaves. */
  ghost predicate Planned(cfg: CA.Config, service: Id, local: Local, plan: Plan, entries: map<Id, Entry>) {
    if forall r :: !CA.Grants(cfg, service, r) then plan == Refusal(CA.ErrorOf(cfg, service)) && entries == map[]
    else exists r :: PlannedFor(cfg, service, r, local, plan, entries)
  }

  ghost predicate PlannedFor(cfg: CA.Config, service: Id, r: CA.GatewayAuthority, local: Local, plan: Plan, entries: map<Id, Entry>) {
    CA.Grants(cfg, service, r) && PlannedWith(cfg, r, local, plan) && entries == CacheOf(r, local)
  }

  function CacheOf(r: CA.GatewayAuthority, local: Local): map<Id, Entry> {
    if local.stream != "" && local.stream !in r.current then map[]
    else map s | s in r.current :: Entry(r.current[s], r.binding.profileID)
  }

  /** MAIN: a configuration decides its plan: whatever the code does, there is only one it can come to. */
  lemma PlanIsUnique(cfg: CA.Config, service: Id, local: Local, p: Plan, q: Plan, e: map<Id, Entry>, f: map<Id, Entry>)
    requires Planned(cfg, service, local, p, e) && Planned(cfg, service, local, q, f)
    ensures p == q && e == f
  {
    if r, t :| PlannedFor(cfg, service, r, local, p, e) && PlannedFor(cfg, service, t, local, q, f) {
      GrantedPlanIsUnique(cfg, service, local, p, q, r, t);
    }
  }

  lemma GrantedPlanIsUnique(cfg: CA.Config, service: Id, local: Local, p: Plan, q: Plan, r: CA.GatewayAuthority, t: CA.GatewayAuthority)
    requires CA.Grants(cfg, service, r) && CA.Grants(cfg, service, t)
    requires PlannedWith(cfg, r, local, p) && PlannedWith(cfg, t, local, q)
    ensures p == q && r == t
  {
    CA.GrantIsUnique(cfg, service, r, t);
    SamePlan(cfg, r, local, p, q);
  }

  lemma SamePlan(cfg: CA.Config, r: CA.GatewayAuthority, local: Local, p: Plan, q: Plan)
    requires PlannedWith(cfg, r, local, p) && PlannedWith(cfg, r, local, q)
    ensures p == q
  {
    MonitorPlanIsUnique(cfg, r, local, p, q);
  }

  lemma MonitorPlanIsUnique(cfg: CA.Config, r: CA.GatewayAuthority, local: Local, p: Plan, q: Plan)
    ensures PlannedByMonitor(cfg, r, local, p) && PlannedByMonitor(cfg, r, local, q) ==> p == q
  {
    if PlannedByMonitor(cfg, r, local, p) && PlannedByMonitor(cfg, r, local, q) && (local.monitorPresent || local.monitor.Some?) {
      var v :| WG.Outcome(Trim(cfg.serviceID), local.monitor, r, v) && p == PlanOf(cfg, v);
      var w :| WG.Outcome(Trim(cfg.serviceID), local.monitor, r, w) && q == PlanOf(cfg, w);
      WG.OutcomeIsUnique(Trim(cfg.serviceID), local.monitor, r, v, w);
    }
  }

  /** A waiting monitor decides instead: it is of a known version, reports no execution, and no job runs here. */
  predicate MonitorDecides(local: Local) {
    local.stream == "" && local.monitor.Some? && local.monitor.value.version == 1 && !local.monitor.value.executionActive
  }

  /**
   * MAIN: what the plan is for a granted authority. A running stream that it does not own is a refusal with an
   * empty profile cache. Otherwise the cache has its streams; where it has any and no monitor decides, the
   * credential of its binding is selected, and without any monitor nothing else ever is.
   */
  lemma PlanMeans(cfg: CA.Config, service: Id, r: CA.GatewayAuthority, local: Local, plan: Plan, entries: map<Id, Entry>)
    requires PlannedFor(cfg, service, r, local, plan, entries)
    ensures if local.stream != "" && local.stream !in r.current then plan.error.Some? && plan.cleared && !plan.selected && entries == map[]
      else entries.Keys == r.current.Keys && forall s :: s in entries ==> entries[s] == Entry(r.current[s], r.binding.profileID)
    ensures (local.stream == "" || local.stream in r.current) && r.current != map[] && !MonitorDecides(local) ==>
      plan.error.None? && !plan.cleared && plan.selected && plan.reference == cfg.serviceID + "/" + r.binding.secretName + "/" + r.binding.fingerprint
    ensures (local.stream == "" || local.stream in r.current) && r.current == map[] && !local.monitorPresent && local.monitor.None? ==>
      plan.error.None? && !plan.cleared && !plan.selected
  {
  }

  /**
   * MAIN: the code comes to the planned decision in every case, so the branch that finds another
   * profile than the authority's is never taken; a refusal clears the stream defaults, disconnects
   * and leaves the profile cache empty or as the granted authority has it.
   */
  method ReconcileRuntimeGateway(cfg: CA.Config, authenticated: Id, manager: GatewayCredentials, local: Local, answer: Option<string>)
    returns (plan: Plan, error: Option<string>, gateway: Gateway)
    modifies manager
    ensures Planned(cfg, authenticated, local, plan, manager.entries)
    ensures plan.error.Some? ==> plan.cleared && !plan.selected && error == plan.error && gateway == Disconnected
    ensures Cache(map[], manager.reference, manager.token)
      == Reconciled(Cache(map[], old(manager.reference), old(manager.token)), plan.reference, plan.selected, answer)
  {
    plan := Decide(cfg, authenticated, manager, local);
    ghost var resolved;
    error, gateway, resolved := manager.ReconcileGatewayCredential(plan.reference, plan.selected, answer);
    if plan.error.Some? { error := plan.error; }
  }

  lemma GrantedIsPlanned(cfg: CA.Config, service: Id, r: CA.GatewayAuthority, local: Local, plan: Plan, entries: map<Id, Entry>)
    requires PlannedFor(cfg, service, r, local, plan, entries)
    ensures Planned(cfg, service, local, plan, entries)
  {
  }

  method Decide(cfg: CA.Config, authenticated: Id, manager: GatewayCredentials, local: Local) returns (plan: Plan)
    modifies manager`entries
    ensures Planned(cfg, authenticated, local, plan, manager.entries)
    ensures plan.error.Some? ==> plan.cleared && !plan.selected
  {
    var authority := CA.CurrentDiscordGatewayAuthority(cfg, authenticated);
    if authority.Err? {
      var none, nothing := manager.GatewayProfileForAssignments(map[], map[], true);
      return Refusal(authority.error);
    }
    GrantIsCompatible(cfg, authenticated, authority.value);
    plan := DecideWith(cfg, authority.value, manager, local);
    GrantedIsPlanned(cfg, authenticated, authority.value, local, plan, manager.entries);
  }

  method DecideWith(cfg: CA.Config, r: CA.GatewayAuthority, manager: GatewayCredentials, local: Local) returns (plan: Plan)
    requires Compatible(r)
    modifies manager`entries
    ensures PlannedWith(cfg, r, local, plan) && manager.entries == CacheOf(r, local)
    ensures plan.error.Some? ==> plan.cleared && !plan.selected
  {
    if local.stream != "" && local.stream !in r.current {
      var none, nothing := manager.GatewayProfileForAssignments(map[], map[], true);
      return Refusal(CHANGED);
    }
    ghost var pruned := Pruned(manager.entries, r.current);
    CompatibleAgrees(r, pruned);
    assert Agreed(pruned, r.current, r.mapped, true, r.binding.profileID) <==> r.current != map[];
    var profile, selected := manager.GatewayProfileForAssignments(r.current, r.mapped, true);
    if !PreferCurrent(r.current, local) {
      if !local.monitorPresent && local.monitor.None? { return NOTHING; }
      var w := WG.SelectDiscordWaitingGateway(cfg.serviceID, local.monitor, r);
      return PlanOf(cfg, w);
    }
    assert selected && profile == r.binding.profileID;
    if !selected || profile != r.binding.profileID {
      assert false;
      return Refusal(UNAVAILABLE);
    }
    plan := Plan(None, false, Reference(cfg.serviceID, r.binding.secretName, r.binding.fingerprint), true);
  }
}
