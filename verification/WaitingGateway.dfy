/** cmd/discord-bot/discord_waiting_monitor.go: which streams the bot may watch while they wait.
    Instants are their UTC texts; the empty text is the zero time. */
module WaitingGateway {
  import opened JobTypes
  import opened Text
  import CA = CurrentAuthority
  import MS = ManagerState

  datatype Binding = Binding(
    streamID: Id, serviceID: Id, serviceType: Id, selectionEpoch: Id, profileID: Id, profileRevision: Id, profileOwner: Id,
    secretName: Id, fingerprint: Id, ready: bool, readinessCode: Id,
    guildID: Id, voiceChannelID: Id, textChannelID: Id, targetRevision: nat, trigger: Id)

  /** `bindings` is absent when the list is null. */
  datatype Monitor = Monitor(version: int, executionActive: bool, availabilityCode: string, bindings: Option<seq<Binding>>)

  datatype Credential = Credential(secretName: Id, fingerprint: Id)

  /** The selection; `binding` is absent when nothing is selected. */
  datatype Selection = Selection(binding: Option<Binding>, defaults: map<Id, VoiceDefaults>)

  const UNSUPPORTED := "discord_waiting_monitor_version_unsupported"
  const NO_AUTHORITY := "discord_waiting_execution_authority_unavailable"
  const INVALID := "discord_waiting_monitor_binding_invalid"
  const AMBIGUOUS_CREDENTIALS := "discord_waiting_credentials_ambiguous"
  const AMBIGUOUS_TARGET := "discord_waiting_target_ambiguous"

  function CredentialOf(b: Binding): Credential { Credential(b.secretName, b.fingerprint) }

  function TargetOf(b: Binding): VoiceTarget { VoiceTarget(b.guildID, b.voiceChannelID) }

  function EpochText(b: Binding): Id { b.selectionEpoch + "/" + Decimal(b.targetRevision) + "/" + b.profileRevision }

  function DefaultsOf(b: Binding): VoiceDefaults {
    VoiceDefaults(EpochText(b), b.guildID, b.voiceChannelID, b.textChannelID, true)
  }

  predicate Acceptable(b: Binding, service: Id) {
    && Canonical(b.streamID) && b.serviceID == service && b.serviceType == CA.SERVICE_TYPE && b.profileOwner == service
    && Canonical(b.profileID) && Canonical(b.profileRevision) && b.selectionEpoch != ""
    && Canonical(b.secretName) && Canonical(b.fingerprint) && b.readinessCode == ""
    && Canonical(b.guildID) && Canonical(b.voiceChannelID) && b.targetRevision != 0 && b.trigger == "discord_voice_join"
    && (b.secretName == "discord_bot_token" || "discord_bot_token_" <= b.secretName)
  }

  /** The credential that a running execution keeps the Gateway on. */
  function Active(monitor: Monitor, active: CA.GatewayAuthority): Option<Credential> {
    if monitor.executionActive && active.current != map[]
    then Some(Credential(active.binding.secretName, active.binding.fingerprint)) else None
  }

  /** What is wrong before any binding is looked at. */
  function HeaderError(monitor: Option<Monitor>, active: CA.GatewayAuthority): Option<string> {
    if monitor.None? || monitor.value.version != 1 || monitor.value.bindings.None? then Some(UNSUPPORTED)
    else if monitor.value.executionActive && active.current == map[] then Some(NO_AUTHORITY)
    else if monitor.value.availabilityCode != "" && Active(monitor.value, active).None? then Some(monitor.value.availabilityCode)
    else None
  }

  // ----- what the bindings decide, without reference to their order -----

  ghost predicate Ready(list: multiset<Binding>, b: Binding) { b in list && b.ready }

  /** Every ready binding is acceptable, and no two of them name one stream. */
  ghost predicate Sound(list: multiset<Binding>, service: Id) {
    && (forall b :: Ready(list, b) ==> Acceptable(b, service) && list[b] == 1)
    && (forall b, c :: Ready(list, b) && Ready(list, c) && b.streamID == c.streamID ==> b == c)
  }

  ghost predicate Candidate(list: multiset<Binding>, only: Option<Credential>, b: Binding) {
    Ready(list, b) && (only.None? || CredentialOf(b) == only.value)
  }

  ghost predicate OneCredential(list: multiset<Binding>, only: Option<Credential>) {
    forall b, c :: Candidate(list, only, b) && Candidate(list, only, c) ==> CredentialOf(b) == CredentialOf(c)
  }

  /** A candidate whose voice channel no other candidate shares. */
  ghost predicate Chosen(list: multiset<Binding>, only: Option<Credential>, b: Binding) {
    Candidate(list, only, b) && forall c :: Candidate(list, only, c) && TargetOf(c) == TargetOf(b) ==> c == b
  }

  ghost predicate ChosenStream(list: multiset<Binding>, only: Option<Credential>, stream: Id) {
    exists b :: Chosen(list, only, b) && b.streamID == stream
  }

  /** The selection holds exactly the chosen candidates, and the binding of the first of their streams. */
  ghost predicate Selects(list: multiset<Binding>, only: Option<Credential>, r: Selection) {
    && (forall s :: s in r.defaults <==> ChosenStream(list, only, s))
    && (forall b :: Chosen(list, only, b) ==> r.defaults[b.streamID] == DefaultsOf(b))
    && (r.binding.None? <==> r.defaults == map[])
    && (r.binding.Some? ==> Chosen(list, only, r.binding.value) && First(r.defaults.Keys, r.binding.value.streamID))
  }

  /** The whole outcome of selectDiscordWaitingGateway. */
  ghost predicate Outcome(service: Id, monitor: Option<Monitor>, active: CA.GatewayAuthority, r: CA.Result<Selection>) {
    if HeaderError(monitor, active).Some? then r == CA.Err(HeaderError(monitor, active).value)
    else
      var list, only := multiset(monitor.value.bindings.value), Active(monitor.value, active);
      ListOutcome(list, service, only, r)
  }

  ghost predicate ListOutcome(list: multiset<Binding>, service: Id, only: Option<Credential>, r: CA.Result<Selection>) {
    if !Sound(list, service) then r == CA.Err(INVALID)
    else if !OneCredential(list, only) then r == CA.Err(AMBIGUOUS_CREDENTIALS)
    else if (exists b :: Candidate(list, only, b)) && !(exists b :: Chosen(list, only, b)) then r == CA.Err(AMBIGUOUS_TARGET)
    else r.Ok? && Selects(list, only, r.value)
  }

  // ----- theorems about the outcome -----

  lemma SelectionIsUnique(list: multiset<Binding>, only: Option<Credential>, service: Id, r: Selection, t: Selection)
    requires Sound(list, service) && Selects(list, only, r) && Selects(list, only, t)
    ensures r == t
  {
    DefaultsAreUnique(list, only, r, t);
    if r.binding.Some? {
      FirstIsUnique(r.defaults.Keys, r.binding.value.streamID, t.binding.value.streamID);
    }
  }

  lemma DefaultsAreUnique(list: multiset<Binding>, only: Option<Credential>, r: Selection, t: Selection)
    requires Selects(list, only, r) && Selects(list, only, t)
    ensures r.defaults == t.defaults
  {
    forall s | s in r.defaults ensures s in t.defaults && r.defaults[s] == t.defaults[s] {
      assert ChosenStream(list, only, s);
      var b :| Chosen(list, only, b) && b.streamID == s;
    }
    forall s | s in t.defaults ensures s in r.defaults { assert ChosenStream(list, only, s); }
  }

  lemma OutcomeIsUnique(service: Id, monitor: Option<Monitor>, active: CA.GatewayAuthority, r: CA.Result<Selection>, t: CA.Result<Selection>)
    requires Outcome(service, monitor, active, r) && Outcome(service, monitor, active, t)
    ensures r == t
  {
    if r.Ok? && t.Ok? {
      SelectionIsUnique(multiset(monitor.value.bindings.value), Active(monitor.value, active), service, r.value, t.value);
    }
  }

  /** MAIN: two runs on the same bindings in any two orders end the same way, errors and binding included. */
  lemma OrderDoesNotMatter(service: Id, monitor: Monitor, other: Monitor, active: CA.GatewayAuthority,
                           r: CA.Result<Selection>, t: CA.Result<Selection>)
    requires monitor.bindings.Some? && other.bindings.Some? && other == monitor.(bindings := other.bindings)
    requires multiset(monitor.bindings.value) == multiset(other.bindings.value)
    requires Outcome(service, Some(monitor), active, r) && Outcome(service, Some(other), active, t)
    ensures r == t
  {
    if r.Ok? && t.Ok? {
      SelectionIsUnique(multiset(monitor.bindings.value), Active(monitor, active), service, r.value, t.value);
    }
  }

  /** MAIN: all selected targets share one credential and are pairwise distinct voice channels. */
  lemma SelectedTargetsAreDistinct(service: Id, monitor: Option<Monitor>, active: CA.GatewayAuthority, r: Selection, b: Binding, c: Binding)
    requires Outcome(service, monitor, active, CA.Ok(r)) && monitor.Some? && monitor.value.bindings.Some?
    requires var list, only := multiset(monitor.value.bindings.value), Active(monitor.value, active);
      Chosen(list, only, b) && Chosen(list, only, c)
    ensures CredentialOf(b) == CredentialOf(c) && (b != c ==> TargetOf(b) != TargetOf(c) && b.streamID != c.streamID)
    ensures r.binding.Some? && CredentialOf(r.binding.value) == CredentialOf(b)
    ensures Active(monitor.value, active).Some? ==> Active(monitor.value, active).value == CredentialOf(b)
  {
    assert ChosenStream(multiset(monitor.value.bindings.value), Active(monitor.value, active), b.streamID);
  }

  /** The binding is ready, and on the credential of a running execution if there is one. */
  predicate MayWait(monitor: Monitor, active: CA.GatewayAuthority, c: Binding) {
    c.ready && (monitor.executionActive ==> c.secretName == active.binding.secretName && c.fingerprint == active.binding.fingerprint)
  }

  /** MAIN: every selected stream is that of a ready binding of this service that alone has its channel among the
      candidates, and it waits there under an epoch made of the selection, the target and the profile. */
  lemma SelectionMeans(service: Id, monitor: Monitor, active: CA.GatewayAuthority, r: Selection, s: Id) returns (b: Binding)
    requires Outcome(service, Some(monitor), active, CA.Ok(r)) && s in r.defaults
    ensures monitor.version == 1 && monitor.bindings.Some? && b in monitor.bindings.value
    ensures b.streamID == s && b.ready && b.readinessCode == "" && b.serviceID == service && b.serviceType == "discord-bot" && b.profileOwner == service
    ensures b.trigger == "discord_voice_join" && b.guildID != "" && b.voiceChannelID != "" && b.targetRevision > 0 && b.selectionEpoch != ""
    ensures r.defaults[s] == VoiceDefaults(b.selectionEpoch + "/" + Decimal(b.targetRevision) + "/" + b.profileRevision,
                                           b.guildID, b.voiceChannelID, b.textChannelID, true)
    ensures monitor.executionActive ==> active.current != map[] && b.secretName == active.binding.secretName && b.fingerprint == active.binding.fingerprint
    ensures forall c :: c in monitor.bindings.value && MayWait(monitor, active, c) && c.guildID == b.guildID && c.voiceChannelID == b.voiceChannelID ==> c == b
  {
    var list, only := multiset(monitor.bindings.value), Active(monitor, active);
    assert ChosenStream(list, only, s);
    b :| Chosen(list, only, b) && b.streamID == s;
    ChosenStandsAlone(monitor, active, b);
  }

  lemma ChosenStandsAlone(monitor: Monitor, active: CA.GatewayAuthority, b: Binding)
    requires monitor.bindings.Some? && (monitor.executionActive ==> active.current != map[])
    requires Chosen(multiset(monitor.bindings.value), Active(monitor, active), b)
    ensures forall c :: c in monitor.bindings.value && MayWait(monitor, active, c) && c.guildID == b.guildID && c.voiceChannelID == b.voiceChannelID ==> c == b
  {
    var list, only := multiset(monitor.bindings.value), Active(monitor, active);
    forall c | c in monitor.bindings.value && MayWait(monitor, active, c) && c.guildID == b.guildID && c.voiceChannelID == b.voiceChannelID ensures c == b {
      assert c in list && Candidate(list, only, c) && TargetOf(c) == TargetOf(b);
    }
  }

  /** MAIN: and one such binding is selected, whatever it is called, while nothing executes. */
  lemma OneBindingIsSelected(service: Id, b: Binding, active: CA.GatewayAuthority)
    requires Canonical(b.streamID) && Canonical(b.profileID) && Canonical(b.profileRevision) && Canonical(b.guildID) && Canonical(b.voiceChannelID)
    requires Canonical(b.secretName) && Canonical(b.fingerprint) && "discord_bot_token_" <= b.secretName
    requires b.ready && b.readinessCode == "" && b.serviceID == b.profileOwner == service && b.serviceType == "discord-bot"
    requires b.trigger == "discord_voice_join" && b.targetRevision > 0 && b.selectionEpoch != ""
    ensures Outcome(service, Some(Monitor(1, false, "", Some([b]))), active, CA.Ok(Selection(Some(b),
      map[b.streamID := VoiceDefaults(b.selectionEpoch + "/" + Decimal(b.targetRevision) + "/" + b.profileRevision,
                                      b.guildID, b.voiceChannelID, b.textChannelID, true)])))
  {
    var list := multiset([b]);
    assert Chosen(list, None, b) && Candidate(list, None, b);
    assert forall s :: ChosenStream(list, None, s) <==> s == b.streamID;
  }

  lemma SelectedIsUnique(service: Id, list: multiset<Binding>, only: Option<Credential>, r: Selection, s: Id)
    requires Sound(list, service) && Selects(list, only, r) && s in r.defaults
    ensures s != "" && r.defaults[s].guildID != "" && r.defaults[s].voiceChannelID != ""
    ensures MS.UniqueFor(r.defaults, s, r.defaults[s].guildID, r.defaults[s].voiceChannelID)
  {
    assert ChosenStream(list, only, s);
    var b :| Chosen(list, only, b) && b.streamID == s;
    forall other | other in r.defaults && MS.Serves(r.defaults[other], b.guildID, b.voiceChannelID) ensures other == s {
      assert ChosenStream(list, only, other);
      var c :| Chosen(list, only, c) && c.streamID == other;
      assert TargetOf(c) == TargetOf(b);
    }
  }

  /** MAIN: so the manager's lookup finds each selected stream again by its voice channel. */
  lemma SelectedStreamIsFound(service: Id, monitor: Option<Monitor>, active: CA.GatewayAuthority, r: Selection, m: MS.State, s: Id)
    requires Outcome(service, monitor, active, CA.Ok(r)) && s in r.defaults
    ensures MS.Matching(MS.Project(m, r.defaults).start.defaults, r.defaults[s].guildID, r.defaults[s].voiceChannelID) == s
  {
    var list, only := multiset(monitor.value.bindings.value), Active(monitor.value, active);
    forall t | t in r.defaults ensures t != "" { SelectedIsUnique(service, list, only, r, t); }
    SelectedIsUnique(service, list, only, r, s);
    assert MS.Projected(r.defaults) == r.defaults;
    MS.MatchingIs(r.defaults, s, r.defaults[s].guildID, r.defaults[s].voiceChannelID);
  }

  // ----- selectDiscordWaitingGateway -----

  predicate Fits(only: Option<Credential>, b: Binding) { b.ready && (only.None? || CredentialOf(b) == only.value) }

  /** What the loop knows of the bindings it has met. */
  ghost predicate Met(list: seq<Binding>, service: Id, seen: set<Id>) {
    && (forall i :: 0 <= i < |list| && list[i].ready ==> Acceptable(list[i], service))
    && (forall i, j :: 0 <= i < j < |list| && list[i].ready && list[j].ready ==> list[i].streamID != list[j].streamID)
    && (forall s :: s in seen <==> exists i :: 0 <= i < |list| && list[i].ready && list[i].streamID == s)
  }

  /** What it has kept of them: the candidates in list order, and how many share each voice channel. */
  ghost predicate Kept(list: seq<Binding>, only: Option<Credential>, credentials: set<Credential>,
                       counts: map<VoiceTarget, nat>, candidates: seq<Binding>) {
    && (forall b :: b in candidates <==> b in list && Fits(only, b))
    && (forall i, j :: 0 <= i < j < |candidates| ==> candidates[i].streamID != candidates[j].streamID)
    && (forall c :: c in credentials <==> exists b :: b in candidates && CredentialOf(b) == c)
    && (forall t :: (if t in counts then counts[t] else 0) == Sharing(candidates, t))
  }

  function Sharing(candidates: seq<Binding>, t: VoiceTarget): nat {
    if candidates == [] then 0
    else Sharing(candidates[..|candidates| - 1], t) + (if TargetOf(candidates[|candidates| - 1]) == t then 1 else 0)
  }

  lemma {:induction false} SharingIs(candidates: seq<Binding>, b: Binding)
    requires b in candidates && forall i, j :: 0 <= i < j < |candidates| ==> candidates[i] != candidates[j]
    ensures Sharing(candidates, TargetOf(b)) == 1 <==> forall c :: c in candidates && TargetOf(c) == TargetOf(b) ==> c == b
    ensures Sharing(candidates, TargetOf(b)) >= 1
  {
    var n := |candidates| - 1;
    var init, last := candidates[..n], candidates[n];
    assert candidates == init + [last];
    if b in init {
      SharingIs(init, b);
    } else {
      NoneShares(init, TargetOf(b));
    }
  }

  lemma {:induction false} NoneShares(candidates: seq<Binding>, t: VoiceTarget)
    ensures Sharing(candidates, t) == 0 <==> forall c :: c in candidates ==> TargetOf(c) != t
  {
    if candidates != [] {
      var n := |candidates| - 1;
      assert candidates == candidates[..n] + [candidates[n]];
      NoneShares(candidates[..n], t);
    }
  }

  lemma {:induction false} CountedAtMostOnce(list: seq<Binding>, b: Binding)
    requires forall i, j :: 0 <= i < j < |list| ==> !(list[i] == b && list[j] == b)
    ensures multiset(list)[b] <= 1
  {
    if list != [] {
      var n := |list| - 1;
      assert list == list[..n] + [list[n]];
      CountedAtMostOnce(list[..n], b);
      if list[n] == b { assert b !in list[..n]; }
    }
  }

  lemma MetIsSound(list: seq<Binding>, service: Id, seen: set<Id>)
    requires Met(list, service, seen)
    ensures Sound(multiset(list), service)
  {
    forall b | Ready(multiset(list), b) ensures multiset(list)[b] == 1 && Acceptable(b, service) {
      assert b in list;
      CountedAtMostOnce(list, b);
    }
    forall b, c | Ready(multiset(list), b) && Ready(multiset(list), c) && b.streamID == c.streamID ensures b == c {
      assert b in list && c in list;
    }
  }

  lemma MetGrows(list: seq<Binding>, b: Binding, service: Id, seen: set<Id>)
    requires Met(list, service, seen) && (b.ready ==> Acceptable(b, service) && b.streamID !in seen)
    ensures Met(list + [b], service, if b.ready then seen + {b.streamID} else seen)
  {
    var more, after := list + [b], if b.ready then seen + {b.streamID} else seen;
    forall s ensures s in after <==> exists i :: 0 <= i < |more| && more[i].ready && more[i].streamID == s {
      if s in seen {
        var i :| 0 <= i < |list| && list[i].ready && list[i].streamID == s;
        assert more[i].streamID == s;
      }
      if b.ready && s == b.streamID { assert more[|list|].streamID == s; }
    }
  }

  lemma Refused(list: seq<Binding>, i: nat, service: Id, seen: set<Id>)
    requires i < |list| && Met(list[..i], service, seen) && list[i].ready
    requires !Acceptable(list[i], service) || list[i].streamID in seen
    ensures !Sound(multiset(list), service)
  {
    assert Ready(multiset(list), list[i]);
    if list[i].streamID in seen {
      var j :| 0 <= j < i && list[..i][j].ready && list[..i][j].streamID == list[i].streamID;
      assert Ready(multiset(list), list[j]);
      if list[j] == list[i] { CA.CountedTwice(list, j, i); }
    }
  }

  function Bumped(counts: map<VoiceTarget, nat>, t: VoiceTarget): map<VoiceTarget, nat> {
    counts[t := (if t in counts then counts[t] else 0) + 1]
  }

  lemma KeptGrows(list: seq<Binding>, b: Binding, only: Option<Credential>, credentials: set<Credential>,
                  counts: map<VoiceTarget, nat>, candidates: seq<Binding>)
    requires Kept(list, only, credentials, counts, candidates) && Fits(only, b)
    requires forall c :: c in candidates ==> c.streamID != b.streamID
    ensures Kept(list + [b], only, credentials + {CredentialOf(b)}, Bumped(counts, TargetOf(b)), candidates + [b])
  {
    var more := candidates + [b];
    assert more[..|candidates|] == candidates;
    forall c ensures c in credentials + {CredentialOf(b)} <==> exists d :: d in more && CredentialOf(d) == c {
      if c == CredentialOf(b) { assert b in more; }
      if c in credentials {
        var d :| d in candidates && CredentialOf(d) == c;
        assert d in more;
      }
    }
  }

  lemma KeptSkips(list: seq<Binding>, b: Binding, only: Option<Credential>, credentials: set<Credential>,
                  counts: map<VoiceTarget, nat>, candidates: seq<Binding>)
    requires Kept(list, only, credentials, counts, candidates) && !Fits(only, b)
    ensures Kept(list + [b], only, credentials, counts, candidates)
  {
  }

  /** The loop over the bindings. */
  method Gather(list: seq<Binding>, service: Id, only: Option<Credential>)
    returns (ok: bool, credentials: set<Credential>, counts: map<VoiceTarget, nat>, candidates: seq<Binding>)
    ensures ok <==> Sound(multiset(list), service)
    ensures ok ==> Kept(list, only, credentials, counts, candidates)
  {
    var seen: set<Id> := {};
    credentials, counts, candidates := {}, map[], [];
    for i := 0 to |list|
      invariant Met(list[..i], service, seen)
      invariant Kept(list[..i], only, credentials, counts, candidates)
    {
      var b := list[i];
      assert list[..i + 1] == list[..i] + [b];
      if !b.ready {
        MetGrows(list[..i], b, service, seen);
        KeptSkips(list[..i], b, only, credentials, counts, candidates);
        continue;
      }
      if !Acceptable(b, service) || b.streamID in seen {
        Refused(list, i, service, seen);
        return false, credentials, counts, candidates;
      }
      FreshStream(list[..i], b, service, seen, only, credentials, counts, candidates);
      MetGrows(list[..i], b, service, seen);
      seen := seen + {b.streamID};
      if only.Some? && CredentialOf(b) != only.value {
        KeptSkips(list[..i], b, only, credentials, counts, candidates);
        continue;
      }
      KeptGrows(list[..i], b, only, credentials, counts, candidates);
      credentials := credentials + {CredentialOf(b)};
      counts := Bumped(counts, TargetOf(b));
      candidates := candidates + [b];
    }
    assert list[..|list|] == list;
    MetIsSound(list, service, seen);
    ok := true;
  }

  lemma FreshStream(list: seq<Binding>, b: Binding, service: Id, seen: set<Id>, only: Option<Credential>, credentials: set<Credential>,
                    counts: map<VoiceTarget, nat>, candidates: seq<Binding>)
    requires Met(list, service, seen) && Kept(list, only, credentials, counts, candidates) && b.streamID !in seen
    ensures forall c :: c in candidates ==> c.streamID != b.streamID
  {
    forall c | c in candidates ensures c.streamID in seen {
      var i :| 0 <= i < |list| && list[i] == c;
    }
  }

  /** The candidates sorted by stream identifier. */
  ghost predicate SortedByStream(s: seq<Binding>) {
    forall i, j :: 0 <= i < j < |s| ==> Less(s[i].streamID, s[j].streamID)
  }

  function Insert(s: seq<Binding>, b: Binding): seq<Binding> {
    if s == [] || Less(b.streamID, s[0].streamID) then [b] + s else [s[0]] + Insert(s[1..], b)
  }

  lemma {:induction false} InsertSorts(s: seq<Binding>, b: Binding)
    requires SortedByStream(s) && forall c :: c in s ==> c.streamID != b.streamID
    ensures SortedByStream(Insert(s, b))
    ensures forall c :: c in Insert(s, b) <==> c in s || c == b
  {
    if s == [] {
    } else if Less(b.streamID, s[0].streamID) {
      forall i | 0 < i < |s| ensures Less(b.streamID, s[i].streamID) {
        LessTransitive(b.streamID, s[0].streamID, s[i].streamID);
      }
    } else {
      InsertSorts(s[1..], b);
      LessTrichotomy(b.streamID, s[0].streamID);
      assert s == [s[0]] + s[1..];
      var rest := Insert(s[1..], b);
      forall j | 0 <= j < |rest| ensures Less(s[0].streamID, rest[j].streamID) {
        assert rest[j] in rest;
      }
    }
  }

  /** sort.Slice on the candidates. */
  method SortByStream(candidates: seq<Binding>) returns (sorted: seq<Binding>)
    requires forall i, j :: 0 <= i < j < |candidates| ==> candidates[i].streamID != candidates[j].streamID
    ensures SortedByStream(sorted) && forall b :: b in sorted <==> b in candidates
  {
    sorted := [];
    for i := 0 to |candidates|
      invariant SortedByStream(sorted) && forall b :: b in sorted <==> b in candidates[..i]
    {
      InsertSorts(sorted, candidates[i]);
      sorted := Insert(sorted, candidates[i]);
      assert candidates[..i + 1] == candidates[..i] + [candidates[i]];
    }
  }

  predicate Alone(counts: map<VoiceTarget, nat>, b: Binding) { TargetOf(b) in counts && counts[TargetOf(b)] == 1 }

  /** The selection as far as the sorted candidates have been visited. */
  ghost predicate PickedSoFar(sorted: seq<Binding>, counts: map<VoiceTarget, nat>, r: Selection) {
    && (forall s :: s in r.defaults <==> exists b :: b in sorted && Alone(counts, b) && b.streamID == s)
    && (forall b :: b in sorted && Alone(counts, b) ==> r.defaults[b.streamID] == DefaultsOf(b))
    && (r.binding.None? <==> r.defaults == map[])
    && (r.binding.Some? ==> r.binding.value in sorted && Alone(counts, r.binding.value)
                            && First(r.defaults.Keys, r.binding.value.streamID))
  }

  lemma SortedBefore(sorted: seq<Binding>, b: Binding)
    requires SortedByStream(sorted + [b])
    ensures forall c :: c in sorted ==> Less(c.streamID, b.streamID) && c.streamID != b.streamID
  {
    var more := sorted + [b];
    forall c | c in sorted ensures Less(c.streamID, b.streamID) && c.streamID != b.streamID {
      var i :| 0 <= i < |sorted| && sorted[i] == c;
      assert Less(more[i].streamID, more[|sorted|].streamID);
      LessTrichotomy(c.streamID, b.streamID);
    }
  }

  lemma PickSkips(sorted: seq<Binding>, b: Binding, counts: map<VoiceTarget, nat>, r: Selection)
    requires PickedSoFar(sorted, counts, r) && !Alone(counts, b)
    ensures PickedSoFar(sorted + [b], counts, r)
  {
    assert forall c :: c in sorted + [b] && Alone(counts, c) <==> c in sorted && Alone(counts, c);
  }

  lemma PickGrows(sorted: seq<Binding>, b: Binding, counts: map<VoiceTarget, nat>, r: Selection)
    requires SortedByStream(sorted + [b]) && PickedSoFar(sorted, counts, r) && Alone(counts, b)
    ensures PickedSoFar(sorted + [b], counts,
                        Selection(if r.binding.None? then Some(b) else r.binding, r.defaults[b.streamID := DefaultsOf(b)]))
  {
    var more, d := sorted + [b], r.defaults[b.streamID := DefaultsOf(b)];
    SortedBefore(sorted, b);
    forall s ensures s in d <==> exists c :: c in more && Alone(counts, c) && c.streamID == s {
      if s == b.streamID { assert b in more; }
      if s in r.defaults {
        var c :| c in sorted && Alone(counts, c) && c.streamID == s;
        assert c in more;
      }
    }
    FirstStays(r.defaults.Keys, r.binding, b, sorted);
  }

  /** The first stream stays the first one when a later stream joins. */
  lemma FirstStays(names: set<Id>, first: Option<Binding>, b: Binding, sorted: seq<Binding>)
    requires first.None? <==> names == {}
    requires first.Some? ==> first.value in sorted && First(names, first.value.streamID)
    requires forall c :: c in sorted ==> Less(c.streamID, b.streamID) && c.streamID != b.streamID
    ensures First(names + {b.streamID}, if first.None? then b.streamID else first.value.streamID)
  {
  }

  /** The loop over the sorted candidates. */
  method Pick(sorted: seq<Binding>, counts: map<VoiceTarget, nat>) returns (r: Selection)
    requires SortedByStream(sorted)
    ensures PickedSoFar(sorted, counts, r)
  {
    r := Selection(None, map[]);
    for i := 0 to |sorted|
      invariant PickedSoFar(sorted[..i], counts, r)
    {
      var b := sorted[i];
      assert sorted[..i + 1] == sorted[..i] + [b];
      if !Alone(counts, b) {
        PickSkips(sorted[..i], b, counts, r);
        continue;
      }
      PickGrows(sorted[..i], b, counts, r);
      r := Selection(if r.binding.None? then Some(b) else r.binding, r.defaults[b.streamID := DefaultsOf(b)]);
    }
    assert sorted[..|sorted|] == sorted;
  }

  lemma AloneIsChosen(list: seq<Binding>, only: Option<Credential>, credentials: set<Credential>, counts: map<VoiceTarget, nat>, candidates: seq<Binding>, b: Binding)
    requires Kept(list, only, credentials, counts, candidates)
    ensures Candidate(multiset(list), only, b) <==> b in candidates
    ensures Chosen(multiset(list), only, b) <==> b in candidates && Alone(counts, b)
  {
    assert b in multiset(list) <==> b in list;
    forall c ensures Candidate(multiset(list), only, c) <==> c in candidates {
      assert c in multiset(list) <==> c in list;
    }
    if b in candidates {
      SharingIs(candidates, b);
      var t := TargetOf(b);
      assert (if t in counts then counts[t] else 0) == Sharing(candidates, t);
    }
  }

  lemma PickedIsSelected(list: seq<Binding>, only: Option<Credential>, credentials: set<Credential>, counts: map<VoiceTarget, nat>,
                         candidates: seq<Binding>, sorted: seq<Binding>, r: Selection)
    requires Kept(list, only, credentials, counts, candidates) && PickedSoFar(sorted, counts, r)
    requires forall b :: b in sorted <==> b in candidates
    ensures Selects(multiset(list), only, r)
  {
    forall b ensures Chosen(multiset(list), only, b) <==> b in sorted && Alone(counts, b) {
      AloneIsChosen(list, only, credentials, counts, candidates, b);
    }
    forall s ensures s in r.defaults <==> ChosenStream(multiset(list), only, s) {
      if s in r.defaults {
        var b :| b in sorted && Alone(counts, b) && b.streamID == s;
        assert Chosen(multiset(list), only, b);
      }
    }
  }

  lemma CredentialsDecide(list: seq<Binding>, only: Option<Credential>, credentials: set<Credential>, counts: map<VoiceTarget, nat>, candidates: seq<Binding>)
    requires Kept(list, only, credentials, counts, candidates)
    ensures |credentials| <= 1 <==> OneCredential(multiset(list), only)
  {
    forall b ensures Candidate(multiset(list), only, b) <==> b in candidates {
      AloneIsChosen(list, only, credentials, counts, candidates, b);
    }
    SameCredential(candidates, credentials);
  }

  /** A set of credentials has at most one element exactly when all its bindings have the same one. */
  lemma SameCredential(candidates: seq<Binding>, credentials: set<Credential>)
    requires forall c :: c in credentials <==> exists b :: b in candidates && CredentialOf(b) == c
    ensures |credentials| <= 1 <==> forall b, c :: b in candidates && c in candidates ==> CredentialOf(b) == CredentialOf(c)
  {
    if b, c :| b in candidates && c in candidates && CredentialOf(b) != CredentialOf(c) {
      assert CredentialOf(b) in credentials && CredentialOf(c) in credentials;
      AtLeastTwo(credentials, CredentialOf(b), CredentialOf(c));
    }
    if |credentials| > 1 {
      var x :| x in credentials;
      assert |credentials - {x}| >= 1;
      var y :| y in credentials - {x};
      var b :| b in candidates && CredentialOf(b) == x;
      var c :| c in candidates && CredentialOf(c) == y;
    }
  }

  lemma AtLeastTwo(s: set<Credential>, x: Credential, y: Credential)
    requires x in s && y in s && x != y
    ensures |s| >= 2
  {
    assert s == {x, y} + (s - {x, y});
  }

  /** MAIN: the code ends as `Outcome` says, whatever the order of the bindings. */
  method SelectDiscordWaitingGateway(serviceName: Id, monitor: Option<Monitor>, active: CA.GatewayAuthority)
    returns (r: CA.Result<Selection>)
    ensures Outcome(Trim(serviceName), monitor, active, r)
  {
    var service := Trim(serviceName);
    if monitor.None? || monitor.value.version != 1 || monitor.value.bindings.None? { return CA.Err(UNSUPPORTED); }
    var only: Option<Credential> := None;
    if monitor.value.executionActive && |active.current| == 0 { return CA.Err(NO_AUTHORITY); }
    if monitor.value.executionActive && |active.current| != 0 {
      only := Some(Credential(active.binding.secretName, active.binding.fingerprint));
    }
    if monitor.value.availabilityCode != "" && only.None? { return CA.Err(monitor.value.availabilityCode); }
    r := SelectFrom(monitor.value.bindings.value, service, only);
  }

  method SelectFrom(list: seq<Binding>, service: Id, only: Option<Credential>) returns (r: CA.Result<Selection>)
    ensures ListOutcome(multiset(list), service, only, r)
  {
    var ok, credentials, counts, candidates := Gather(list, service, only);
    if !ok { return CA.Err(INVALID); }
    CredentialsDecide(list, only, credentials, counts, candidates);
    if |credentials| > 1 { return CA.Err(AMBIGUOUS_CREDENTIALS); }
    var sorted := SortByStream(candidates);
    var selection := Pick(sorted, counts);
    PickedIsSelected(list, only, credentials, counts, candidates, sorted, selection);
    AnyCandidate(list, only, credentials, counts, candidates, selection);
    if |candidates| != 0 && selection.binding.None? { return CA.Err(AMBIGUOUS_TARGET); }
    r := CA.Ok(selection);
  }

  lemma AnyCandidate(list: seq<Binding>, only: Option<Credential>, credentials: set<Credential>, counts: map<VoiceTarget, nat>,
                     candidates: seq<Binding>, r: Selection)
    requires Kept(list, only, credentials, counts, candidates) && Selects(multiset(list), only, r)
    ensures |candidates| != 0 <==> exists b :: Candidate(multiset(list), only, b)
    ensures r.binding.Some? <==> exists b :: Chosen(multiset(list), only, b)
  {
    forall b ensures Candidate(multiset(list), only, b) <==> b in candidates {
      AloneIsChosen(list, only, credentials, counts, candidates, b);
    }
    if |candidates| != 0 { assert Candidate(multiset(list), only, candidates[0]); }
    forall b | Chosen(multiset(list), only, b) ensures r.binding.Some? {
      assert ChosenStream(multiset(list), only, b.streamID);
      assert b.streamID in r.defaults;
    }
  }
}
