/** cmd/discord-bot/current_discord_bindings.go: which Bot credential the current assignments allow.
    Instants are their UTC texts; the empty text is the zero time. */
module CurrentAuthority {
  import opened JobTypes
  import opened Text

  datatype Result<+T> = Ok(value: T) | Err(error: string)

  const SERVICE_TYPE := "discord-bot"

  datatype Assignment = Assignment(streamID: Id, serviceID: Id, serviceType: Id, role: Id, assignedAt: Id)

  datatype Binding = Binding(
    streamID: Id, serviceID: Id, serviceType: Id, role: Id, epoch: Id, profileID: Id, profileOwner: Id,
    secretName: Id, fingerprint: Id, ready: bool, readinessCode: Id)

  const NO_BINDING := Binding("", "", "", "", "", "", "", "", "", false, "")

  /** `serviceID`, `secretName` and `fingerprint` are the profile's string settings. */
  datatype Profile = Profile(id: Id, kind: Id, serviceID: Id, secretName: Id, fingerprint: Id)

  const NO_PROFILE := Profile("", "", "", "", "")

  /** `bindings` is absent when the list is null. */
  datatype Envelope = Envelope(version: int, bindings: Option<seq<Binding>>)

  datatype Config = Config(
    serviceID: Id, serviceType: Id, currentStreamID: Id, envelopePresent: bool, envelope: Option<Envelope>,
    assignments: seq<Assignment>, profiles: seq<Profile>)

  datatype GatewayAuthority = GatewayAuthority(current: map<Id, Id>, mapped: map<Id, Id>, profile: Profile, binding: Binding)

  const INVALID := "current Discord credential binding unavailable"
  const UNSUPPORTED := "Panel current Discord credential binding unsupported"
  const NULL := "Panel current Discord credential binding is null"
  const BAD_VERSION := "Panel current Discord credential binding version unsupported"

  predicate AssignmentOk(a: Assignment, service: Id) {
    && Canonical(a.streamID) && a.serviceID == service && a.serviceType == SERVICE_TYPE
    && (a.role == "primary" || a.role == "standby") && a.assignedAt != ""
  }

  predicate BindingOk(b: Binding, a: Assignment, service: Id) {
    && b.serviceID == service && b.serviceType == SERVICE_TYPE && b.role == "primary"
    && b.epoch == a.assignedAt && b.epoch != "" && Canonical(b.profileID) && b.profileOwner == service
    && Canonical(b.secretName) && Canonical(b.fingerprint) && b.ready && b.readinessCode == ""
  }

  predicate ProfileOk(p: Profile, b: Binding, service: Id) {
    p.kind == "discord_config" && p.serviceID == service && p.secretName == b.secretName && p.fingerprint == b.fingerprint
  }

  // ----- what success means, without reference to any list order -----

  ghost predicate HeaderOk(cfg: Config, service: Id) {
    && Canonical(cfg.serviceID) && cfg.serviceID == service && cfg.serviceType == SERVICE_TYPE
    && cfg.envelope.Some? && cfg.envelope.value.version == 1 && cfg.envelope.value.bindings.Some?
  }

  /** Every stream is assigned once, and the service's current stream is one of them. */
  ghost predicate AssignmentsAgree(list: multiset<Assignment>, service: Id, currentStream: Id) {
    && (forall a :: a in list ==> AssignmentOk(a, service) && list[a] == 1)
    && (forall a, b :: a in list && b in list && a.streamID == b.streamID ==> a == b)
    && (if list == multiset{} then currentStream == "" else exists a :: a in list && a.streamID == currentStream)
  }

  ghost predicate Primary(list: multiset<Assignment>, a: Assignment) { a in list && a.role == "primary" }

  ghost predicate BoundTo(b: Binding, assignments: multiset<Assignment>, service: Id) {
    exists a :: Primary(assignments, a) && a.streamID == b.streamID && BindingOk(b, a, service)
  }

  ghost predicate Binds(list: multiset<Binding>, stream: Id) { exists b :: b in list && b.streamID == stream }

  /** Bindings and primary assignments are in bijection, with equal epochs and one profile. */
  ghost predicate BindingsAgree(list: multiset<Binding>, assignments: multiset<Assignment>, service: Id) {
    && (forall b :: b in list ==> list[b] == 1 && BoundTo(b, assignments, service))
    && (forall b, c :: b in list && c in list && b.streamID == c.streamID ==> b == c)
    && (forall a :: Primary(assignments, a) ==> Binds(list, a.streamID))
    && (forall b, c :: b in list && c in list ==> b.profileID == c.profileID)
  }

  /** The only profile of its identifier, and it names the credential of every binding. */
  ghost predicate ProfileAgrees(list: multiset<Binding>, profiles: multiset<Profile>, service: Id, profile: Profile) {
    && profiles[profile] == 1
    && (forall p :: p in profiles && p.id == profile.id ==> p == profile)
    && (forall b :: b in list ==> b.profileID == profile.id && ProfileOk(profile, b, service))
  }

  ghost predicate MapsAgree(list: multiset<Binding>, assignments: multiset<Assignment>, r: GatewayAuthority) {
    && (forall s :: s in r.current <==> exists a :: Primary(assignments, a) && a.streamID == s)
    && (forall a :: Primary(assignments, a) ==> r.current[a.streamID] == a.assignedAt)
    && (forall s :: s in r.mapped <==> Binds(list, s))
    && (forall b :: b in list ==> r.mapped[b.streamID] == b.profileID)
  }

  /** `r` is the authority that the configuration grants. */
  ghost predicate Grants(cfg: Config, service: Id, r: GatewayAuthority) {
    && HeaderOk(cfg, service)
    && var list, assignments := multiset(cfg.envelope.value.bindings.value), multiset(cfg.assignments);
      && AssignmentsAgree(assignments, service, cfg.currentStreamID)
      && BindingsAgree(list, assignments, service)
      && MapsAgree(list, assignments, r)
      && (if list == multiset{} then r.profile == NO_PROFILE && r.binding == NO_BINDING
          else
            && ProfileAgrees(list, multiset(cfg.profiles), service, r.profile)
            && r.binding in list && First(r.current.Keys, r.binding.streamID))
  }

  /** The error of a configuration that grants nothing depends only on its header. */
  function ErrorOf(cfg: Config, service: Id): string {
    if !Canonical(cfg.serviceID) || cfg.serviceID != service || cfg.serviceType != SERVICE_TYPE then INVALID
    else if cfg.envelope.None? then (if cfg.envelopePresent then NULL else UNSUPPORTED)
    else if cfg.envelope.value.version != 1 then BAD_VERSION
    else INVALID
  }

  // ----- counting -----

  lemma CountedTwice<T>(s: seq<T>, i: nat, j: nat)
    requires i < j < |s| && s[i] == s[j]
    ensures multiset(s)[s[i]] >= 2
  {
    assert s == s[..j] + s[j..];
    assert s[i] == s[..j][i] && s[j] == s[j..][0];
  }

  lemma {:induction false} CountedOnce<T>(s: seq<T>)
    requires forall i, j :: 0 <= i < j < |s| ==> s[i] != s[j]
    ensures forall x :: x in s ==> multiset(s)[x] == 1
  {
    if s != [] {
      var n := |s| - 1;
      CountedOnce(s[..n]);
      assert s == s[..n] + [s[n]];
    }
  }

  /** The streams of a list in which no stream occurs twice: as many as the list has entries. */
  lemma {:induction false} StreamsOfBindings(s: seq<Binding>)
    requires forall i, j :: 0 <= i < j < |s| ==> s[i].streamID != s[j].streamID
    ensures |set b | b in s :: b.streamID| == |s|
  {
    if s != [] {
      var n := |s| - 1;
      StreamsOfBindings(s[..n]);
      assert s == s[..n] + [s[n]];
      assert (set b | b in s :: b.streamID) == (set b | b in s[..n] :: b.streamID) + {s[n].streamID};
    }
  }

  lemma {:induction false} SubsetOfSameSize<T>(small: set<T>, large: set<T>)
    requires small <= large && |small| == |large|
    ensures small == large
  {
    assert large == small + (large - small);
  }

  // ----- currentDiscordGatewayAuthority -----

  /** The assignments seen so far, by stream. */
  ghost predicate Collected(list: seq<Assignment>, service: Id, all: set<Id>, primaries: map<Id, Assignment>) {
    && (forall i :: 0 <= i < |list| ==> AssignmentOk(list[i], service))
    && (forall i, j :: 0 <= i < j < |list| ==> list[i].streamID != list[j].streamID)
    && (forall s :: s in all <==> exists i :: 0 <= i < |list| && list[i].streamID == s)
    && (forall s :: s in primaries ==> primaries[s] in list && primaries[s].streamID == s && primaries[s].role == "primary")
    && (forall i :: 0 <= i < |list| && list[i].role == "primary" ==> list[i].streamID in primaries && primaries[list[i].streamID] == list[i])
  }

  lemma CollectedGrows(list: seq<Assignment>, a: Assignment, service: Id, all: set<Id>, primaries: map<Id, Assignment>)
    requires Collected(list, service, all, primaries) && AssignmentOk(a, service) && a.streamID !in all
    ensures Collected(list + [a], service, all + {a.streamID}, if a.role == "primary" then primaries[a.streamID := a] else primaries)
  {
    var more, next := list + [a], if a.role == "primary" then primaries[a.streamID := a] else primaries;
    forall s ensures s in all + {a.streamID} <==> exists i :: 0 <= i < |more| && more[i].streamID == s {
      if s == a.streamID { assert more[|list|].streamID == s; }
      if s in all {
        var i :| 0 <= i < |list| && list[i].streamID == s;
        assert more[i].streamID == s;
      }
    }
    forall s | s in next ensures next[s] in more {
      if s in primaries { assert primaries[s] in list; }
    }
  }

  lemma CollectsNext(list: seq<Assignment>, i: nat, service: Id, all: set<Id>, primaries: map<Id, Assignment>)
    requires i < |list| && Collected(list[..i], service, all, primaries) && AssignmentOk(list[i], service) && list[i].streamID !in all
    ensures var a := list[i];
      Collected(list[..i + 1], service, all + {a.streamID}, if a.role == "primary" then primaries[a.streamID := a] else primaries)
  {
    assert list[..i + 1] == list[..i] + [list[i]];
    CollectedGrows(list[..i], list[i], service, all, primaries);
  }

  lemma Refused(list: seq<Assignment>, i: nat, service: Id, all: set<Id>, primaries: map<Id, Assignment>, c: Id)
    requires i < |list| && Collected(list[..i], service, all, primaries)
    requires !AssignmentOk(list[i], service) || list[i].streamID in all
    ensures !AssignmentsAgree(multiset(list), service, c)
  {
    assert list[i] in multiset(list);
    if list[i].streamID in all {
      var j :| 0 <= j < i && list[..i][j].streamID == list[i].streamID;
      assert list[j] in multiset(list);
      if list[j] == list[i] { CountedTwice(list, j, i); }
    }
  }

  /** The loop over the assignments; no result when one of them is not acceptable. */
  method CollectAssignments(list: seq<Assignment>, service: Id)
    returns (ok: bool, all: set<Id>, primaries: map<Id, Assignment>, current: map<Id, Id>)
    ensures ok ==> Collected(list, service, all, primaries)
    ensures ok ==> current == map s | s in primaries :: primaries[s].assignedAt
    ensures !ok ==> forall c :: !AssignmentsAgree(multiset(list), service, c)
  {
    all, primaries, current := {}, map[], map[];
    for i := 0 to |list|
      invariant Collected(list[..i], service, all, primaries)
      invariant current == map s | s in primaries :: primaries[s].assignedAt
    {
      var a := list[i];
      if !AssignmentOk(a, service) || a.streamID in all {
        forall c ensures !AssignmentsAgree(multiset(list), service, c) { Refused(list, i, service, all, primaries, c); }
        return false, all, primaries, current;
      }
      CollectsNext(list, i, service, all, primaries);
      all := all + {a.streamID};
      if a.role == "primary" {
        primaries := primaries[a.streamID := a];
        current := current[a.streamID := a.assignedAt];
      }
    }
    assert list[..|list|] == list;
    ok := true;
  }

  /** The bindings seen so far: each is bound to a primary assignment of its own, all on one profile. */
  ghost predicate Checked(list: seq<Binding>, service: Id, primaries: map<Id, Assignment>, seen: set<Id>,
                          selected: Id, mapped: map<Id, Id>) {
    && (forall i :: 0 <= i < |list| ==>
          list[i].streamID in primaries && BindingOk(list[i], primaries[list[i].streamID], service)
          && list[i].profileID == selected && list[i].streamID in mapped && mapped[list[i].streamID] == selected)
    && (forall i, j :: 0 <= i < j < |list| ==> list[i].streamID != list[j].streamID)
    && seen == mapped.Keys == (set b | b in list :: b.streamID)
    && (selected == "" <==> list == [])
  }

  lemma CheckedGrows(list: seq<Binding>, b: Binding, service: Id, primaries: map<Id, Assignment>, seen: set<Id>,
                     selected: Id, mapped: map<Id, Id>)
    requires Checked(list, service, primaries, seen, selected, mapped) && BindingFits(b, service, primaries, seen, selected)
    ensures Checked(list + [b], service, primaries, seen + {b.streamID}, b.profileID, mapped[b.streamID := b.profileID])
  {
    var more := list + [b];
    assert (set c | c in more :: c.streamID) == (set c | c in list :: c.streamID) + {b.streamID};
  }

  lemma ChecksNext(list: seq<Binding>, i: nat, service: Id, primaries: map<Id, Assignment>, seen: set<Id>, selected: Id, mapped: map<Id, Id>)
    requires i < |list| && Checked(list[..i], service, primaries, seen, selected, mapped)
    requires BindingFits(list[i], service, primaries, seen, selected)
    ensures var b := list[i];
      Checked(list[..i + 1], service, primaries, seen + {b.streamID}, b.profileID, mapped[b.streamID := b.profileID])
  {
    assert list[..i + 1] == list[..i] + [list[i]];
    CheckedGrows(list[..i], list[i], service, primaries, seen, selected, mapped);
  }

  /** The condition under which the loop over the bindings goes on. */
  predicate BindingFits(b: Binding, service: Id, primaries: map<Id, Assignment>, seen: set<Id>, selected: Id) {
    && b.streamID in primaries && b.streamID !in seen && BindingOk(b, primaries[b.streamID], service)
    && (selected == "" || selected == b.profileID)
  }

  lemma BindingRefused(list: seq<Binding>, i: nat, assignments: seq<Assignment>, service: Id, all: set<Id>,
                       primaries: map<Id, Assignment>, seen: set<Id>, selected: Id, mapped: map<Id, Id>)
    requires i < |list| && Collected(assignments, service, all, primaries)
    requires Checked(list[..i], service, primaries, seen, selected, mapped)
    requires !BindingFits(list[i], service, primaries, seen, selected)
    ensures !BindingsAgree(multiset(list), multiset(assignments), service)
  {
    var b := list[i];
    assert b in multiset(list);
    if i > 0 { assert list[..i][0] == list[0] && list[0] in multiset(list); }
    if BindingsAgree(multiset(list), multiset(assignments), service) {
      assert BoundTo(b, multiset(assignments), service);
      if b.streamID in seen {
        var c :| c in list[..i] && c.streamID == b.streamID;
        var j :| 0 <= j < i && list[j] == c;
        assert list[j] in multiset(list);
        CountedTwice(list, j, i);
      }
    }
  }

  /** The loop over the bindings. */
  method CheckBindings(list: seq<Binding>, service: Id, ghost assignments: seq<Assignment>, ghost all: set<Id>,
                       primaries: map<Id, Assignment>)
    returns (ok: bool, selected: Id, mapped: map<Id, Id>)
    requires Collected(assignments, service, all, primaries)
    ensures ok ==> Checked(list, service, primaries, mapped.Keys, selected, mapped)
    ensures !ok ==> !BindingsAgree(multiset(list), multiset(assignments), service)
  {
    var seen: set<Id> := {};
    selected, mapped := "", map[];
    for i := 0 to |list|
      invariant Checked(list[..i], service, primaries, seen, selected, mapped)
    {
      var b := list[i];
      if !BindingFits(b, service, primaries, seen, selected) {
        BindingRefused(list, i, assignments, service, all, primaries, seen, selected, mapped);
        return false, selected, mapped;
      }
      ChecksNext(list, i, service, primaries, seen, selected, mapped);
      seen := seen + {b.streamID};
      selected := b.profileID;
      mapped := mapped[b.streamID := b.profileID];
    }
    assert list[..|list|] == list;
    ok := true;
  }

  function Matches(profiles: seq<Profile>, id: Id): nat {
    if profiles == [] then 0
    else Matches(profiles[..|profiles| - 1], id) + (if profiles[|profiles| - 1].id == id then 1 else 0)
  }

  /** The loop over the profiles: how many have the identifier, and the last one that has. */
  method FindProfile(profiles: seq<Profile>, id: Id) returns (matches: nat, profile: Profile)
    ensures matches == Matches(profiles, id)
    ensures matches == 0 ==> profile == NO_PROFILE
    ensures matches > 0 ==> profile in profiles && profile.id == id
  {
    matches, profile := 0, NO_PROFILE;
    for i := 0 to |profiles|
      invariant matches == Matches(profiles[..i], id)
      invariant if matches == 0 then profile == NO_PROFILE else profile in profiles && profile.id == id
    {
      assert profiles[..i + 1][..i] == profiles[..i];
      if profiles[i].id != id { continue; }
      matches := matches + 1;
      profile := profiles[i];
    }
    assert profiles[..|profiles|] == profiles;
  }

  /** Exactly one match means that the profile is listed once and is the only one of its identifier. */
  lemma {:induction false} OneMatch(profiles: seq<Profile>, id: Id, profile: Profile)
    requires profile in profiles && profile.id == id
    ensures Matches(profiles, id) >= 1
    ensures Matches(profiles, id) == 1
      <==> multiset(profiles)[profile] == 1 && forall p :: p in profiles && p.id == id ==> p == profile
  {
    var n := |profiles| - 1;
    var init, last := profiles[..n], profiles[n];
    assert profiles == init + [last];
    if profile in init { OneMatch(init, id, profile); }
    if profile !in init {
      NoMatch(init, id);
    }
  }

  lemma {:induction false} NoMatch(profiles: seq<Profile>, id: Id)
    ensures Matches(profiles, id) == 0 <==> forall p :: p in profiles ==> p.id != id
  {
    if profiles != [] {
      var n := |profiles| - 1;
      assert profiles == profiles[..n] + [profiles[n]];
      NoMatch(profiles[..n], id);
    }
  }

  /** The first of the sorted stream identifiers. */
  method FirstStream(ids: set<Id>) returns (id: Id)
    requires ids != {}
    ensures First(ids, id)
  {
    id :| id in ids;
    var rest := ids - {id};
    while rest != {}
      invariant rest <= ids && id in ids && id !in rest
      invariant forall other :: other in ids && other !in rest && other != id ==> Less(id, other)
      decreases |rest|
    {
      var next :| next in rest;
      rest := rest - {next};
      LessTrichotomy(next, id);
      if Less(next, id) {
        forall other | other in ids && other !in rest && other != next ensures Less(next, other) {
          if other != id { LessTransitive(next, id, other); }
        }
        id := next;
      }
    }
  }

  /** As many bindings as primary assignments, all of them checked: then no assignment is left over. */
  lemma SameCountIsBijection(list: seq<Binding>, assignments: seq<Assignment>, service: Id, all: set<Id>,
                             primaries: map<Id, Assignment>, selected: Id, mapped: map<Id, Id>)
    requires Collected(assignments, service, all, primaries) && |primaries| == |list|
    requires Checked(list, service, primaries, mapped.Keys, selected, mapped)
    ensures mapped.Keys == primaries.Keys
    ensures BindingsAgree(multiset(list), multiset(assignments), service)
  {
    StreamsOfBindings(list);
    assert mapped.Keys <= primaries.Keys;
    SubsetOfSameSize(mapped.Keys, primaries.Keys);
    CountedOnce(list);
    forall b | b in multiset(list) ensures BoundTo(b, multiset(assignments), service) {
      assert b in list && Primary(multiset(assignments), primaries[b.streamID]);
    }
    forall a | Primary(multiset(assignments), a) ensures Binds(multiset(list), a.streamID) {
      assert a in assignments && a.streamID in mapped;
      var b :| b in list && b.streamID == a.streamID;
      assert b in multiset(list);
    }
  }

  lemma AgreedStreamsDiffer(list: seq<Binding>, assignments: seq<Assignment>, service: Id)
    requires BindingsAgree(multiset(list), multiset(assignments), service)
    ensures forall i, j :: 0 <= i < j < |list| ==> list[i].streamID != list[j].streamID
  {
    forall i, j | 0 <= i < j < |list| ensures list[i].streamID != list[j].streamID {
      assert list[i] in multiset(list) && list[j] in multiset(list);
      if list[i] == list[j] { CountedTwice(list, i, j); }
    }
  }

  /** A configuration with agreeing bindings has as many of them as primary assignments. */
  lemma BijectionIsSameCount(list: seq<Binding>, assignments: seq<Assignment>, service: Id, all: set<Id>, primaries: map<Id, Assignment>)
    requires Collected(assignments, service, all, primaries)
    requires BindingsAgree(multiset(list), multiset(assignments), service)
    ensures |primaries| == |list|
  {
    AgreedStreamsDiffer(list, assignments, service);
    StreamsOfBindings(list);
    var streams := set b | b in list :: b.streamID;
    forall s ensures s in primaries <==> s in streams {
      if s in primaries {
        assert Primary(multiset(assignments), primaries[s]);
        assert Binds(multiset(list), s);
      }
      if s in streams {
        var b :| b in list && b.streamID == s;
        assert b in multiset(list) && BoundTo(b, multiset(assignments), service);
      }
    }
    assert streams == primaries.Keys;
  }

  lemma AssignmentsDoAgree(list: seq<Assignment>, service: Id, all: set<Id>, primaries: map<Id, Assignment>, currentStream: Id)
    requires Collected(list, service, all, primaries)
    ensures AssignmentsAgree(multiset(list), service, currentStream)
      <==> if all == {} then currentStream == "" else currentStream in all
  {
    CountedOnce(list);
    assert forall i :: 0 <= i < |list| ==> list[i] in multiset(list);
    if list != [] { assert list[0].streamID in all && list[0] in multiset(list); }
    if currentStream in all {
      var i :| 0 <= i < |list| && list[i].streamID == currentStream;
      assert list[i] in multiset(list);
    }
  }

  lemma MapsDoAgree(list: seq<Binding>, assignments: seq<Assignment>, service: Id, all: set<Id>, primaries: map<Id, Assignment>,
                    selected: Id, r: GatewayAuthority)
    requires Collected(assignments, service, all, primaries)
    requires Checked(list, service, primaries, r.mapped.Keys, selected, r.mapped)
    requires r.current == map s | s in primaries :: primaries[s].assignedAt
    ensures MapsAgree(multiset(list), multiset(assignments), r)
  {
    forall s ensures s in r.current <==> exists a :: Primary(multiset(assignments), a) && a.streamID == s {
      if s in r.current { assert Primary(multiset(assignments), primaries[s]); }
    }
    forall s ensures s in r.mapped <==> Binds(multiset(list), s) {
      if s in r.mapped {
        var b :| b in list && b.streamID == s;
        assert b in multiset(list);
      }
    }
  }

  /** The profile part: what the code finds is the only profile that could be granted. */
  lemma OnlyProfile(list: seq<Binding>, profiles: seq<Profile>, service: Id, selected: Id, matches: nat, found: Profile, other: Profile)
    requires list != [] && forall b :: b in list ==> b.profileID == selected
    requires matches == Matches(profiles, selected) && (matches > 0 ==> found in profiles && found.id == selected)
    requires ProfileAgrees(multiset(list), multiset(profiles), service, other)
    ensures matches == 1 && found == other
  {
    assert list[0] in multiset(list);
    assert other in multiset(profiles) && other.id == selected;
    forall p | p in profiles && p.id == selected ensures p == other { assert p in multiset(profiles); }
    OneMatch(profiles, selected, other);
  }

  lemma FoundProfileAgrees(list: seq<Binding>, profiles: seq<Profile>, service: Id, selected: Id, found: Profile)
    requires Matches(profiles, selected) == 1 && found in profiles && found.id == selected
    requires forall b :: b in list ==> b.profileID == selected && ProfileOk(found, b, service)
    ensures ProfileAgrees(multiset(list), multiset(profiles), service, found)
  {
    OneMatch(profiles, selected, found);
  }

  /** The last loop: the profile names the credential of every binding, and the first stream's binding is kept. */
  method CheckCredentials(list: seq<Binding>, profile: Profile, first: Id) returns (ok: bool, binding: Binding)
    requires forall i, j :: 0 <= i < j < |list| ==> list[i].streamID != list[j].streamID
    requires exists i :: 0 <= i < |list| && list[i].streamID == first
    ensures ok <==> forall b :: b in list ==> profile.secretName == b.secretName && profile.fingerprint == b.fingerprint
    ensures ok ==> binding in list && binding.streamID == first
  {
    binding := NO_BINDING;
    for i := 0 to |list|
      invariant forall j :: 0 <= j < i ==> profile.secretName == list[j].secretName && profile.fingerprint == list[j].fingerprint
      invariant forall j :: 0 <= j < i && list[j].streamID == first ==> binding == list[j]
    {
      var b := list[i];
      if profile.secretName != b.secretName || profile.fingerprint != b.fingerprint { return false, binding; }
      if b.streamID == first { binding := b; }
    }
    ok := true;
  }

  /** The part of the code that needs at least one primary assignment. */
  method SelectProfile(list: seq<Binding>, profiles: seq<Profile>, service: Id, streams: set<Id>, selected: Id)
    returns (ok: bool, profile: Profile, binding: Binding)
    requires forall i, j :: 0 <= i < j < |list| ==> list[i].streamID != list[j].streamID
    requires list != [] && forall b :: b in list ==> b.profileID == selected
    requires streams == set b | b in list :: b.streamID
    ensures ok ==> ProfileAgrees(multiset(list), multiset(profiles), service, profile)
    ensures ok ==> binding in multiset(list) && First(streams, binding.streamID)
    ensures !ok ==> forall p :: !ProfileAgrees(multiset(list), multiset(profiles), service, p)
  {
    var matches, found := FindProfile(profiles, selected);
    profile, binding := found, NO_BINDING;
    forall p | ProfileAgrees(multiset(list), multiset(profiles), service, p) ensures matches == 1 && found == p {
      OnlyProfile(list, profiles, service, selected, matches, found, p);
    }
    assert list[0] in multiset(list) && list[0].streamID in streams;
    if matches != 1 || profile.kind != "discord_config" || profile.serviceID != service { return false, profile, binding; }
    var first := FirstStream(streams);
    ok, binding := CheckCredentials(list, profile, first);
    if ok {
      FoundProfileAgrees(list, profiles, service, selected, profile);
    } else {
      var b :| b in list && (profile.secretName != b.secretName || profile.fingerprint != b.fingerprint);
      assert b in multiset(list);
    }
  }

  /** Everything the code checks before it looks at the profiles. */
  ghost predicate ListsAgree(cfg: Config, service: Id, r: GatewayAuthority) {
    && HeaderOk(cfg, service)
    && var list, assignments := multiset(cfg.envelope.value.bindings.value), multiset(cfg.assignments);
      AssignmentsAgree(assignments, service, cfg.currentStreamID) && BindingsAgree(list, assignments, service) && MapsAgree(list, assignments, r)
  }

  /** What the later loops rely on: the streams of the list are distinct, mapped, and on one profile. */
  ghost predicate OneProfileEach(list: seq<Binding>, selected: Id, current: map<Id, Id>, mapped: map<Id, Id>) {
    && (forall i, j :: 0 <= i < j < |list| ==> list[i].streamID != list[j].streamID)
    && (forall b :: b in list ==> b.profileID == selected)
    && mapped.Keys == current.Keys == (set b | b in list :: b.streamID)
  }

  ghost predicate ListsCouldAgree(cfg: Config, service: Id, list: seq<Binding>) {
    && AssignmentsAgree(multiset(cfg.assignments), service, cfg.currentStreamID)
    && BindingsAgree(multiset(list), multiset(cfg.assignments), service)
  }

  method CheckAssignments(cfg: Config, service: Id, list: seq<Binding>)
    returns (ok: bool, ghost all: set<Id>, primaries: map<Id, Assignment>, current: map<Id, Id>)
    ensures ok ==> Collected(cfg.assignments, service, all, primaries) && |primaries| == |list|
    ensures ok ==> AssignmentsAgree(multiset(cfg.assignments), service, cfg.currentStreamID)
    ensures ok ==> current == map s | s in primaries :: primaries[s].assignedAt
    ensures !ok ==> !ListsCouldAgree(cfg, service, list)
  {
    var everyone;
    ok, everyone, primaries, current := CollectAssignments(cfg.assignments, service);
    all := everyone;
    if !ok { return; }
    AssignmentsDoAgree(cfg.assignments, service, all, primaries, cfg.currentStreamID);
    if (everyone == {} && cfg.currentStreamID != "") || (everyone != {} && cfg.currentStreamID !in everyone) || |primaries| != |list| {
      if BindingsAgree(multiset(list), multiset(cfg.assignments), service) {
        BijectionIsSameCount(list, cfg.assignments, service, all, primaries);
      }
      ok := false;
    }
  }

  method CheckLists(cfg: Config, service: Id) returns (ok: bool, selected: Id, current: map<Id, Id>, mapped: map<Id, Id>)
    requires HeaderOk(cfg, service)
    ensures ok ==> ListsAgree(cfg, service, GatewayAuthority(current, mapped, NO_PROFILE, NO_BINDING))
    ensures !ok ==> forall g :: !ListsAgree(cfg, service, g)
    ensures ok ==> OneProfileEach(cfg.envelope.value.bindings.value, selected, current, mapped)
  {
    var list := cfg.envelope.value.bindings.value;
    ghost var all;
    var primaries;
    selected, mapped := "", map[];
    ok, all, primaries, current := CheckAssignments(cfg, service, list);
    if ok { ok, selected, mapped := CheckBindings(list, service, cfg.assignments, all, primaries); }
    if ok {
      ListsDoAgree(cfg, service, list, all, primaries, selected, current, mapped);
    } else {
      NoLists(cfg, service, list);
    }
  }

  lemma ListsDoAgree(cfg: Config, service: Id, list: seq<Binding>, all: set<Id>, primaries: map<Id, Assignment>,
                     selected: Id, current: map<Id, Id>, mapped: map<Id, Id>)
    requires HeaderOk(cfg, service) && list == cfg.envelope.value.bindings.value
    requires Collected(cfg.assignments, service, all, primaries) && |primaries| == |list|
    requires AssignmentsAgree(multiset(cfg.assignments), service, cfg.currentStreamID)
    requires Checked(list, service, primaries, mapped.Keys, selected, mapped)
    requires current == map s | s in primaries :: primaries[s].assignedAt
    ensures ListsAgree(cfg, service, GatewayAuthority(current, mapped, NO_PROFILE, NO_BINDING))
    ensures OneProfileEach(list, selected, current, mapped)
  {
    EachOnItsOwn(list, service, primaries, selected, current, mapped);
    var r := GatewayAuthority(current, mapped, NO_PROFILE, NO_BINDING);
    assert BindingsAgree(multiset(list), multiset(cfg.assignments), service) by {
      SameCountIsBijection(list, cfg.assignments, service, all, primaries, selected, mapped);
    }
    assert MapsAgree(multiset(list), multiset(cfg.assignments), r) by {
      MapsDoAgree(list, cfg.assignments, service, all, primaries, selected, r);
    }
    Assembled(cfg, service, r);
  }

  lemma EachOnItsOwn(list: seq<Binding>, service: Id, primaries: map<Id, Assignment>, selected: Id, current: map<Id, Id>, mapped: map<Id, Id>)
    requires Checked(list, service, primaries, mapped.Keys, selected, mapped) && |primaries| == |list|
    requires current.Keys == primaries.Keys
    ensures OneProfileEach(list, selected, current, mapped)
  {
    StreamsOfBindings(list);
    SubsetOfSameSize(mapped.Keys, primaries.Keys);
  }

  lemma Assembled(cfg: Config, service: Id, r: GatewayAuthority)
    requires HeaderOk(cfg, service)
    requires AssignmentsAgree(multiset(cfg.assignments), service, cfg.currentStreamID)
    requires BindingsAgree(multiset(cfg.envelope.value.bindings.value), multiset(cfg.assignments), service)
    requires MapsAgree(multiset(cfg.envelope.value.bindings.value), multiset(cfg.assignments), r)
    ensures ListsAgree(cfg, service, r)
  {
  }

  lemma NoLists(cfg: Config, service: Id, list: seq<Binding>)
    requires HeaderOk(cfg, service) && list == cfg.envelope.value.bindings.value && !ListsCouldAgree(cfg, service, list)
    ensures forall g :: !ListsAgree(cfg, service, g)
  {
  }

  /** MAIN: the code grants exactly what `Grants` describes, and refuses exactly when nothing can be granted. */
  method CurrentDiscordGatewayAuthority(cfg: Config, authenticated: Id) returns (r: Result<GatewayAuthority>)
    ensures r.Ok? ==> Grants(cfg, authenticated, r.value)
    ensures r.Err? ==> r.error == ErrorOf(cfg, authenticated) && forall g :: !Grants(cfg, authenticated, g)
  {
    var service := cfg.serviceID;
    if !Canonical(service) || service != authenticated || cfg.serviceType != SERVICE_TYPE { return Err(INVALID); }
    if cfg.envelope.None? && !cfg.envelopePresent { return Err(UNSUPPORTED); }
    if cfg.envelope.None? { return Err(NULL); }
    if cfg.envelope.value.version != 1 { return Err(BAD_VERSION); }
    if cfg.envelope.value.bindings.None? { return Err(INVALID); }
    var ok, selected, current, mapped := CheckLists(cfg, service);
    if !ok {
      forall g ensures !Grants(cfg, service, g) { GrantNeedsLists(cfg, service, g); }
      return Err(INVALID);
    }
    r := Finish(cfg, service, current, mapped, selected);
  }

  lemma GrantNeedsLists(cfg: Config, service: Id, g: GatewayAuthority)
    ensures Grants(cfg, service, g) ==> ListsAgree(cfg, service, g)
  {
  }

  lemma GrantNeedsProfile(cfg: Config, service: Id, g: GatewayAuthority)
    requires Grants(cfg, service, g) && cfg.envelope.value.bindings.value != []
    ensures ProfileAgrees(multiset(cfg.envelope.value.bindings.value), multiset(cfg.profiles), service, g.profile)
  {
    assert cfg.envelope.value.bindings.value[0] in multiset(cfg.envelope.value.bindings.value);
  }

  method Finish(cfg: Config, service: Id, current: map<Id, Id>, mapped: map<Id, Id>, selected: Id) returns (r: Result<GatewayAuthority>)
    requires ListsAgree(cfg, service, GatewayAuthority(current, mapped, NO_PROFILE, NO_BINDING))
    requires OneProfileEach(cfg.envelope.value.bindings.value, selected, current, mapped)
    ensures r.Ok? ==> Grants(cfg, service, r.value)
    ensures r.Err? ==> r.error == INVALID && forall g :: !Grants(cfg, service, g)
  {
    var list := cfg.envelope.value.bindings.value;
    if |current| == 0 {
      return Ok(GatewayAuthority(current, mapped, NO_PROFILE, NO_BINDING));
    }
    assert list != [];
    var ok, profile, binding := SelectProfile(list, cfg.profiles, service, current.Keys, selected);
    if ok {
      r := Ok(GatewayAuthority(current, mapped, profile, binding));
      Granted(cfg, service, r.value);
    } else {
      forall g | Grants(cfg, service, g) ensures false { GrantNeedsProfile(cfg, service, g); }
      r := Err(INVALID);
    }
  }

  lemma Granted(cfg: Config, service: Id, r: GatewayAuthority)
    requires ListsAgree(cfg, service, r.(profile := NO_PROFILE, binding := NO_BINDING))
    requires var list := multiset(cfg.envelope.value.bindings.value);
      ProfileAgrees(list, multiset(cfg.profiles), service, r.profile) && r.binding in list && First(r.current.Keys, r.binding.streamID)
    ensures Grants(cfg, service, r)
  {
    var list, assignments := multiset(cfg.envelope.value.bindings.value), multiset(cfg.assignments);
    assert MapsAgree(list, assignments, r);
  }

  // ----- what follows from a grant -----

  lemma MapsAreUnique(list: multiset<Binding>, assignments: multiset<Assignment>, r: GatewayAuthority, t: GatewayAuthority)
    requires MapsAgree(list, assignments, r) && MapsAgree(list, assignments, t)
    ensures r.current == t.current && r.mapped == t.mapped
  {
    forall s ensures s in r.current <==> s in t.current {}
    forall s | s in r.current ensures r.current[s] == t.current[s] {
      var a :| Primary(assignments, a) && a.streamID == s;
    }
    forall s | s in r.mapped ensures s in t.mapped && r.mapped[s] == t.mapped[s] {
      assert Binds(list, s);
      var b :| b in list && b.streamID == s;
    }
    forall s | s in t.mapped ensures s in r.mapped {
      assert Binds(list, s);
    }
  }

  lemma ProfileIsUnique(list: multiset<Binding>, profiles: multiset<Profile>, service: Id, p: Profile, q: Profile)
    requires ProfileAgrees(list, profiles, service, p) && ProfileAgrees(list, profiles, service, q) && list != multiset{}
    ensures p == q
  {
    var b :| b in list;
    assert q in profiles && p.id == q.id == b.profileID;
  }

  /** MAIN: a configuration grants at most one authority. */
  lemma GrantIsUnique(cfg: Config, service: Id, r: GatewayAuthority, t: GatewayAuthority)
    requires Grants(cfg, service, r) && Grants(cfg, service, t)
    ensures r == t
  {
    var list, assignments := multiset(cfg.envelope.value.bindings.value), multiset(cfg.assignments);
    MapsAreUnique(list, assignments, r, t);
    if list != multiset{} {
      ProfileIsUnique(list, multiset(cfg.profiles), service, r.profile, t.profile);
      FirstIsUnique(r.current.Keys, r.binding.streamID, t.binding.streamID);
    }
  }

  /** The assignment that a binding is granted for. */
  predicate GrantedFor(a: Assignment, b: Binding, service: Id) {
    && a.streamID == b.streamID && a.serviceID == b.serviceID == service && a.serviceType == b.serviceType == "discord-bot"
    && a.role == b.role == "primary" && a.assignedAt == b.epoch != ""
  }

  /** MAIN: every granted binding is ready, of this service, for one of its primary assignments under the same
      epoch, and on the one profile of the service that names its secret. */
  lemma GrantMeans(cfg: Config, service: Id, r: GatewayAuthority, b: Binding) returns (a: Assignment)
    requires Grants(cfg, service, r) && b in cfg.envelope.value.bindings.value
    ensures cfg.serviceID == service && cfg.serviceType == "discord-bot" && cfg.envelope.value.version == 1
    ensures a in cfg.assignments && GrantedFor(a, b, service) && b.ready && b.readinessCode == "" && b.profileOwner == service
    ensures r.profile in cfg.profiles && r.profile.id == b.profileID && r.profile.kind == "discord_config" && r.profile.serviceID == service
    ensures r.profile.secretName == b.secretName && r.profile.fingerprint == b.fingerprint
    ensures b.streamID in r.current && r.current[b.streamID] == b.epoch && b.streamID in r.mapped && r.mapped[b.streamID] == b.profileID
  {
    var list, assignments := multiset(cfg.envelope.value.bindings.value), multiset(cfg.assignments);
    assert b in list && BoundTo(b, assignments, service);
    a :| Primary(assignments, a) && a.streamID == b.streamID && BindingOk(b, a, service);
    assert a in assignments;
    assert ProfileAgrees(list, multiset(cfg.profiles), service, r.profile) && multiset(cfg.profiles)[r.profile] == 1;
  }

  /** MAIN: and such a configuration is granted: one stream, whatever it, its epoch and its credential are called. */
  lemma OneStreamIsGranted(a: Assignment, b: Binding, p: Profile, service: Id)
    requires Canonical(service) && Canonical(a.streamID) && Canonical(p.id) && Canonical(p.secretName) && Canonical(p.fingerprint)
    requires GrantedFor(a, b, service) && b.ready && b.readinessCode == "" && b.profileOwner == service
    requires p == Profile(b.profileID, "discord_config", service, b.secretName, b.fingerprint)
    ensures Grants(Config(service, "discord-bot", a.streamID, true, Some(Envelope(1, Some([b]))), [a], [p]), service,
                   GatewayAuthority(map[a.streamID := a.assignedAt], map[a.streamID := p.id], p, b))
  {
    var r := GatewayAuthority(map[a.streamID := a.assignedAt], map[a.streamID := p.id], p, b);
    OneAgrees(a, b, p, service);
    assert MapsAgree(multiset([b]), multiset([a]), r) by {
      assert Primary(multiset([a]), a) && Binds(multiset([b]), b.streamID);
    }
    assert First(r.current.Keys, b.streamID);
  }

  lemma OneAgrees(a: Assignment, b: Binding, p: Profile, service: Id)
    requires Canonical(service) && Canonical(a.streamID) && Canonical(p.id) && Canonical(p.secretName) && Canonical(p.fingerprint)
    requires GrantedFor(a, b, service) && b.ready && b.readinessCode == "" && b.profileOwner == service
    requires p == Profile(b.profileID, "discord_config", service, b.secretName, b.fingerprint)
    ensures AssignmentsAgree(multiset([a]), service, a.streamID) && BindingsAgree(multiset([b]), multiset([a]), service)
    ensures ProfileAgrees(multiset([b]), multiset([p]), service, p)
  {
    assert a in multiset([a]) && Primary(multiset([a]), a) && BoundTo(b, multiset([a]), service);
    assert b in multiset([b]) && Binds(multiset([b]), a.streamID);
  }

  /** MAIN: reordering the assignments, the bindings and the profiles changes no outcome, not even the error. */
  lemma OrderDoesNotMatter(cfg: Config, other: Config, service: Id, r: GatewayAuthority)
    requires cfg.envelope.Some? && cfg.envelope.value.bindings.Some? && other.envelope.Some? && other.envelope.value.bindings.Some?
    requires multiset(cfg.envelope.value.bindings.value) == multiset(other.envelope.value.bindings.value)
    requires multiset(cfg.assignments) == multiset(other.assignments) && multiset(cfg.profiles) == multiset(other.profiles)
    requires other == cfg.(assignments := other.assignments, profiles := other.profiles,
                           envelope := Some(cfg.envelope.value.(bindings := other.envelope.value.bindings)))
    ensures Grants(cfg, service, r) <==> Grants(other, service, r)
    ensures ErrorOf(cfg, service) == ErrorOf(other, service)
  {
  }

  lemma DistinctStreams(list: seq<Binding>)
    requires forall b, c :: b in multiset(list) && c in multiset(list) && b.streamID == c.streamID ==> b == c
    requires forall b :: b in multiset(list) ==> multiset(list)[b] == 1
    ensures |set b | b in list :: b.streamID| == |list|
  {
    forall i, j | 0 <= i < j < |list| ensures list[i].streamID != list[j].streamID {
      assert list[i] in multiset(list) && list[j] in multiset(list);
      if list[i] == list[j] { CountedTwice(list, i, j); }
    }
    StreamsOfBindings(list);
  }

  lemma KeysCoincide(list: multiset<Binding>, assignments: multiset<Assignment>, service: Id, r: GatewayAuthority)
    requires BindingsAgree(list, assignments, service) && MapsAgree(list, assignments, r)
    ensures r.mapped.Keys == r.current.Keys
    ensures forall b :: b in list ==> b.streamID in r.current && b.epoch == r.current[b.streamID]
  {
    forall b | b in list ensures b.streamID in r.current && b.epoch == r.current[b.streamID] {
      assert BoundTo(b, assignments, service);
    }
    forall s | s in r.current ensures s in r.mapped {
      var a :| Primary(assignments, a) && a.streamID == s;
      assert Binds(list, s);
    }
    forall s | s in r.mapped ensures s in r.current {
      assert Binds(list, s);
    }
  }

  lemma MappedStreams(list: seq<Binding>, assignments: multiset<Assignment>, r: GatewayAuthority)
    requires MapsAgree(multiset(list), assignments, r)
    ensures r.mapped.Keys == set b | b in list :: b.streamID
  {
    forall s ensures s in r.mapped <==> s in set b | b in list :: b.streamID {
      if s in r.mapped { assert Binds(multiset(list), s); }
    }
  }

  /**
   * MAIN: a granted authority maps each primary assignment, and nothing else, to a profile; there are
   * as many bindings as primary assignments, and each carries the epoch of its own.
   */
  lemma GrantIsABijection(cfg: Config, service: Id, r: GatewayAuthority)
    requires Grants(cfg, service, r)
    ensures r.mapped.Keys == r.current.Keys
    ensures |cfg.envelope.value.bindings.value| == |r.current|
    ensures forall b :: b in cfg.envelope.value.bindings.value ==> b.streamID in r.current && b.epoch == r.current[b.streamID]
  {
    var list := cfg.envelope.value.bindings.value;
    KeysCoincide(multiset(list), multiset(cfg.assignments), service, r);
    DistinctStreams(list);
    MappedStreams(list, multiset(cfg.assignments), r);
    assert |r.mapped| == |r.mapped.Keys|;
    forall b | b in list ensures b.streamID in r.current && b.epoch == r.current[b.streamID] { assert b in multiset(list); }
  }

  /** MAIN: all of it is on one profile and one credential. */
  lemma GrantHasOneCredential(cfg: Config, service: Id, r: GatewayAuthority)
    requires Grants(cfg, service, r)
    ensures forall s :: s in r.mapped ==> r.mapped[s] == r.binding.profileID == r.profile.id
    ensures forall b :: b in cfg.envelope.value.bindings.value ==>
      b.secretName == r.profile.secretName == r.binding.secretName && b.fingerprint == r.profile.fingerprint == r.binding.fingerprint
  {
    var list := cfg.envelope.value.bindings.value;
    forall s | s in r.mapped ensures r.mapped[s] == r.binding.profileID == r.profile.id {
      assert Binds(multiset(list), s);
    }
    assert forall b :: b in list ==> b in multiset(list);
  }
}
