/**
 * internal/jobs/gateway_profile_authority.go and the credential cache of internal/jobs/voice_defaults.go,
 * behind the current authority.
 */
module GatewayProfile {
  import opened JobTypes
  import opened Text
  import CA = CurrentAuthority

  datatype Entry = Entry(epoch: Id, profile: Id)

  /** The fields behind gatewayCredentialMu. */
  datatype Cache = Cache(entries: map<Id, Entry>, reference: string, token: string)

  // ----- GatewayProfileForAssignments -----

  function Pruned(entries: map<Id, Entry>, current: map<Id, Id>): map<Id, Entry> {
    map s | s in entries && s in current && current[s] == entries[s].epoch :: entries[s]
  }

  /** The profile of one current stream; empty when there is none. */
  function ProfileFor(entries: map<Id, Entry>, mapped: map<Id, Id>, present: bool, stream: Id): Id {
    if stream in mapped && mapped[stream] != "" then mapped[stream]
    else if present then ""
    else if stream in entries then entries[stream].profile
    else ""
  }

  /** Every current stream has a profile, and it is this one. */
  ghost predicate Agreed(entries: map<Id, Entry>, current: map<Id, Id>, mapped: map<Id, Id>, present: bool, profile: Id) {
    profile != "" && current != map[] && forall s :: s in current ==> ProfileFor(entries, mapped, present, s) == profile
  }

  function Learned(entries: map<Id, Entry>, current: map<Id, Id>, profile: Id, present: bool): map<Id, Entry> {
    if present then entries + map s | s in current :: Entry(current[s], profile) else entries
  }

  /** Where ReconcileGatewayCredential leaves the Gateway. */
  datatype Gateway = Disconnected | Connected(token: string) | Untouched

  const NO_REFERENCE := "selected Bot credential reference unavailable"
  const NO_CREDENTIAL := "selected Bot credential unavailable"

  predicate Resolves(c: Cache, reference: string, selected: bool) {
    selected && Trim(reference) != "" && (reference != c.reference || c.token == "")
  }

  predicate Unusable(answer: Option<string>) { answer.None? || Trim(answer.value) == "" }

  /** `answer` is what resolve returns when it is called; None is its error. */
  function Reconciled(c: Cache, reference: string, selected: bool, answer: Option<string>): Cache {
    if Resolves(c, reference, selected) && !Unusable(answer)
    then c.(reference := reference, token := answer.value) else c
  }

  class GatewayCredentials {
    var entries: map<Id, Entry>
    var reference: string
    var token: string

    ghost function Abstract(): Cache
      reads this
    {
      Cache(entries, reference, token)
    }

    constructor ()
      ensures Abstract() == Cache(map[], "", "")
    {
      entries, reference, token := map[], "", "";
    }

    /** MAIN: the profile all current streams agree on; a failing lookup leaves an empty cache. */
    method GatewayProfileForAssignments(current: map<Id, Id>, mapped: map<Id, Id>, present: bool)
      returns (profile: Id, ok: bool)
      modifies this`entries
      ensures ok ==> Agreed(Pruned(old(entries), current), current, mapped, present, profile)
      ensures ok ==> entries == Learned(Pruned(old(entries), current), current, profile, present)
      ensures !ok ==> profile == "" && entries == map[]
      ensures !ok ==> forall p :: !Agreed(Pruned(old(entries), current), current, mapped, present, p)
    {
      Prune(current);
      var resolved;
      profile, ok, resolved := SelectProfile(current, mapped, present);
      if !ok {
        entries := entries - current.Keys;
      } else if present {
        entries := entries + map s | s in resolved :: Entry(current[s], resolved[s]);
      }
    }

    /** The second loop, up to what it does to the cache. */
    method SelectProfile(current: map<Id, Id>, mapped: map<Id, Id>, present: bool)
      returns (selected: Id, ok: bool, resolved: map<Id, Id>)
      ensures ok ==> Agreed(entries, current, mapped, present, selected)
      ensures ok && present ==> resolved == map s | s in current :: selected
      ensures !ok ==> selected == "" && forall p :: !Agreed(entries, current, mapped, present, p)
    {
      selected, resolved := "", map[];
      var rest := current.Keys;
      while rest != {}
        invariant rest <= current.Keys
        invariant if selected == "" then rest == current.Keys else exists s :: s in current && s !in rest
        invariant forall s :: s in current && s !in rest ==> ProfileFor(entries, mapped, present, s) == selected
        invariant forall s :: s in resolved ==> s in current && s !in rest && resolved[s] == selected
        invariant present ==> forall s :: s in current && s !in rest ==> s in resolved
        decreases |rest|
      {
        var stream :| stream in rest;
        rest := rest - {stream};
        var profile := "";
        if stream in mapped && mapped[stream] != "" {
          profile := mapped[stream];
          resolved := resolved[stream := profile];
        } else if !present {
          profile := if stream in entries then entries[stream].profile else "";
        }
        assert profile == ProfileFor(entries, mapped, present, stream);
        if profile == "" || (selected != "" && selected != profile) { return "", false, resolved; }
        selected := profile;
      }
      ok := selected != "";
    }

    /** The first loop: entries of streams that are no longer current with the same epoch go. */
    method Prune(current: map<Id, Id>)
      modifies this`entries
      ensures entries == Pruned(old(entries), current)
    {
      var rest := entries.Keys;
      while rest != {}
        invariant rest <= entries.Keys <= old(entries).Keys
        invariant forall s :: s in entries ==> entries[s] == old(entries)[s]
        invariant forall s :: s in old(entries) && s !in rest ==> (s in entries <==> s in current && current[s] == old(entries)[s].epoch)
        decreases |rest|
      {
        var stream :| stream in rest;
        rest := rest - {stream};
        if stream !in current || current[stream] != entries[stream].epoch {
          entries := entries - {stream};
        }
      }
    }

    /** ReconcileGatewayCredential, up to the Gateway it leaves behind. */
    method ReconcileGatewayCredential(ref: string, selected: bool, answer: Option<string>)
      returns (error: Option<string>, gateway: Gateway, ghost resolved: bool)
      modifies this`reference, this`token
      ensures Abstract() == Reconciled(old(Abstract()), ref, selected, answer)
      ensures resolved == Resolves(old(Abstract()), ref, selected)
      ensures gateway == if !selected then Disconnected
                         else if Trim(ref) == "" then Untouched
                         else if resolved && Unusable(answer) then Disconnected
                         else Connected(token)
      ensures error == if selected && Trim(ref) == "" then Some(NO_REFERENCE)
                       else if resolved && Unusable(answer) then Some(NO_CREDENTIAL)
                       else None
      ensures gateway.Connected? ==> ref == reference && gateway.token == token
      ensures gateway.Connected? && ref == old(reference) && old(token) != "" ==> !resolved && token == old(token)
      ensures gateway.Connected? && (ref != old(reference) || old(token) == "") ==> resolved && answer == Some(token) && Trim(token) != ""
      ensures !gateway.Connected? ==> reference == old(reference) && token == old(token)
    {
      resolved := false;
      if !selected { return None, Disconnected, resolved; }
      if Trim(ref) == "" { return Some(NO_REFERENCE), Untouched, resolved; }
      if ref != reference || token == "" {
        resolved := true;
        if answer.None? || Trim(answer.value) == "" { return Some(NO_CREDENTIAL), Disconnected, resolved; }
        reference, token := ref, answer.value;
      }
      return None, Connected(token), resolved;
    }
  }

  // ----- what agreement means -----

  /**
   * MAIN: the agreed profile is the one every current stream has: by the mapping of the binding where there is
   * one, and otherwise by what was learned for the very same epoch, unless bindings are authoritative.
   */
  lemma AgreementMeans(entries: map<Id, Entry>, current: map<Id, Id>, mapped: map<Id, Id>, present: bool, profile: Id)
    ensures Agreed(Pruned(entries, current), current, mapped, present, profile) <==>
      && profile != "" && current != map[]
      && forall s :: s in current ==>
           if s in mapped && mapped[s] != "" then mapped[s] == profile
           else !present && s in entries && entries[s] == Entry(current[s], profile)
  {
    if current != map[] && profile != "" && Agreed(Pruned(entries, current), current, mapped, present, profile) {
      forall s | s in current && !(s in mapped && mapped[s] != "") ensures !present && s in entries && entries[s] == Entry(current[s], profile) {
        assert ProfileFor(Pruned(entries, current), mapped, present, s) == profile;
      }
      forall s | s in current && s in mapped && mapped[s] != "" ensures mapped[s] == profile {
        assert ProfileFor(Pruned(entries, current), mapped, present, s) == profile;
      }
    }
  }

  /** MAIN: an authoritative agreement is learned for every current stream under its epoch; another leaves only
      what is known of current streams under their epochs. */
  lemma LearningMeans(entries: map<Id, Entry>, current: map<Id, Id>, profile: Id, present: bool, s: Id)
    ensures var n := Learned(Pruned(entries, current), current, profile, present);
      if s in current && present then s in n && n[s] == Entry(current[s], profile)
      else (s in n <==> s in entries && s in current && entries[s].epoch == current[s]) && (s in n ==> n[s] == entries[s])
  {
  }

  // ----- one lease per reference -----

  datatype Poll = Poll(reference: string, selected: bool, answer: Option<string>)

  function Polled(c: Cache, run: seq<Poll>): Cache {
    if run == [] then c
    else
      var d, p := Polled(c, run[..|run| - 1]), run[|run| - 1];
      Reconciled(d, p.reference, p.selected, p.answer)
  }

  /** How often a run asks for the secret of `reference`. */
  function Resolutions(c: Cache, run: seq<Poll>, reference: string): nat {
    if run == [] then 0
    else
      var d, p := Polled(c, run[..|run| - 1]), run[|run| - 1];
      Resolutions(c, run[..|run| - 1], reference) + (if p.reference == reference && Resolves(d, p.reference, p.selected) then 1 else 0)
  }

  /** How often asking for it failed. */
  function Failures(c: Cache, run: seq<Poll>, reference: string): nat {
    if run == [] then 0
    else
      var d, p := Polled(c, run[..|run| - 1]), run[|run| - 1];
      Failures(c, run[..|run| - 1], reference)
      + (if p.reference == reference && Resolves(d, p.reference, p.selected) && Unusable(p.answer) then 1 else 0)
  }

  /**
   * MAIN: while no other reference is resolved, a reference's secret is fetched successfully at most
   * once, however often it is polled and however often the selection is withdrawn in between.
   */
  lemma {:induction false} ResolvedOnce(c: Cache, run: seq<Poll>, reference: string)
    requires forall i :: 0 <= i < |run| && run[i].selected && Trim(run[i].reference) != "" ==> run[i].reference == reference
    ensures Resolutions(c, run, reference) <= Failures(c, run, reference) + 1
    ensures Resolutions(c, run, reference) == Failures(c, run, reference) + 1
      ==> Polled(c, run).reference == reference && Polled(c, run).token != ""
  {
    if run != [] {
      ResolvedOnce(c, run[..|run| - 1], reference);
      var p := run[|run| - 1];
      assert p.answer.Some? && p.answer.value == "" ==> Unusable(p.answer);
    }
  }

  // ----- a granted authority -----

  /** What the profile lookup needs to know of an authority. */
  ghost predicate Compatible(r: CA.GatewayAuthority) {
    && r.mapped.Keys == r.current.Keys
    && (forall s :: s in r.mapped ==> r.mapped[s] == r.binding.profileID == r.profile.id != "")
  }

  lemma GrantIsCompatible(cfg: CA.Config, service: Id, r: CA.GatewayAuthority)
    requires CA.Grants(cfg, service, r)
    ensures Compatible(r)
  {
    CA.GrantIsABijection(cfg, service, r);
    CA.GrantHasOneCredential(cfg, service, r);
    forall s | s in r.mapped ensures r.mapped[s] != "" { BoundProfileIsNamed(cfg, service, r, s); }
  }

  lemma CompatibleAgrees(r: CA.GatewayAuthority, entries: map<Id, Entry>)
    requires Compatible(r)
    ensures forall p :: Agreed(entries, r.current, r.mapped, true, p) <==> r.current != map[] && p == r.binding.profileID
  {
    if r.current != map[] {
      var s :| s in r.current;
      assert s in r.mapped;
      forall p | Agreed(entries, r.current, r.mapped, true, p) ensures p == r.binding.profileID {
        assert ProfileFor(entries, r.mapped, true, s) == p;
      }
    }
  }

  /** No granted binding is on the empty profile. */
  lemma BoundProfileIsNamed(cfg: CA.Config, service: Id, r: CA.GatewayAuthority, s: Id)
    requires CA.Grants(cfg, service, r) && s in r.mapped
    ensures r.mapped[s] != ""
  {
    var list, assignments := multiset(cfg.envelope.value.bindings.value), multiset(cfg.assignments);
    assert CA.Binds(list, s);
    var b :| b in list && b.streamID == s;
    assert CA.BoundTo(b, assignments, service);
  }
}
