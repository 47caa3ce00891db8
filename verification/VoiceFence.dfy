/** internal/discord/voice.go: the connection generation that fences callbacks of replaced voice connections. */
module VoiceFence {
  import opened JobTypes

  /** What a callback of one connection wants to change. */
  datatype Callback =
    | PacketReceived
    | SpeakerHeard(user: Id, now: int)
    | SpeakersIdle(now: int)
    | RecvClosed

  const IDLE_TIMEOUT: int := 1_250_000_000

  /**
   * The fields of RealClient that the voice connection uses. Channels and cancel functions are
   * numbered in the order they are made; `closes` and `cancels` record each close and cancel.
   * An absent map and an empty one read alike.
   */
  datatype Client = Client(
    job: VoiceJob, generation: nat, voice: Option<nat>, connected: bool,
    audioStop: Option<nat>, daveCancel: Option<nat>,
    speakers: map<Id, int>, received: nat, disconnects: nat,
    made: nat, closes: seq<nat>, cancels: seq<nat>)

  const BOOT := Client(NO_JOB, 0, None, false, None, None, map[], 0, 0, 0, [], [])

  predicate IsCurrent(c: Client, job: VoiceJob, generation: nat) {
    c.generation == generation && SameJob(c.job, job) && c.connected
  }

  predicate Joinable(job: VoiceJob) { job.guildID != "" && job.voiceChannelID != "" && job.streamID != "" }

  function Push(log: seq<nat>, item: Option<nat>): seq<nat> { if item.Some? then log + [item.value] else log }

  /** `transport` is the connection that the voice transport hands out. */
  function Joined(c: Client, job: VoiceJob, transport: Option<nat>): Client {
    if !Joinable(job) || transport.None? then c
    else
      c.(closes := Push(c.closes, c.audioStop), cancels := Push(c.cancels, c.daveCancel),
         voice := transport, job := job, generation := c.generation + 1,
         audioStop := Some(c.made), daveCancel := Some(c.made), made := c.made + 1,
         speakers := map[], connected := true)
  }

  predicate Leaves(c: Client, stream: Id) { c.job.streamID == "" || stream == "" || c.job.streamID == stream }

  function Left(c: Client, stream: Id): Client {
    if !Leaves(c, stream) then c
    else
      c.(closes := Push(c.closes, c.audioStop), cancels := Push(c.cancels, c.daveCancel),
         audioStop := None, daveCancel := None, voice := None, generation := c.generation + 1,
         job := NO_JOB, speakers := map[], connected := false)
  }

  function Disconnected(c: Client, closeAudioStop: bool): Client {
    c.(closes := if closeAudioStop then Push(c.closes, c.audioStop) else c.closes,
       audioStop := if closeAudioStop then None else c.audioStop,
       cancels := Push(c.cancels, c.daveCancel), daveCancel := None,
       voice := None, speakers := map[], connected := false,
       disconnects := if c.connected then c.disconnects + 1 else c.disconnects)
  }

  function Called(c: Client, job: VoiceJob, generation: nat, what: Callback): Client {
    if !IsCurrent(c, job, generation) then c
    else
      match what
      case PacketReceived => c.(received := c.received + 1)
      case SpeakerHeard(user, now) => if user == "" then c else c.(speakers := c.speakers[user := now])
      case SpeakersIdle(now) => c.(speakers := map u | u in c.speakers && c.speakers[u] + IDLE_TIMEOUT > now :: c.speakers[u])
      case RecvClosed => Disconnected(c, false)
  }

  class RealClient {
    var job: VoiceJob
    var generation: nat
    var voice: Option<nat>
    var connected: bool
    var audioStop: Option<nat>
    var daveCancel: Option<nat>
    var speakers: map<Id, int>
    var received: nat
    var disconnects: nat
    var made: nat
    ghost var closes: seq<nat>
    ghost var cancels: seq<nat>

    ghost function Abstract(): Client
      reads this
    {
      Client(job, generation, voice, connected, audioStop, daveCancel, speakers, received, disconnects, made, closes, cancels)
    }

    constructor ()
      ensures Abstract() == BOOT
    {
      job, generation, voice, connected := NO_JOB, 0, None, false;
      audioStop, daveCancel, speakers, received, disconnects := None, None, map[], 0, 0;
      made, closes, cancels := 0, [], [];
    }

    method JoinVoice(wanted: VoiceJob, transport: Option<nat>) returns (ok: bool)
      modifies this
      ensures ok <==> Joinable(wanted) && transport.Some?
      ensures Abstract() == Joined(old(Abstract()), wanted, transport)
    {
      if wanted.guildID == "" || wanted.voiceChannelID == "" || wanted.streamID == "" { return false; }
      if transport.None? { return false; }
      if audioStop.Some? { closes := closes + [audioStop.value]; }
      if daveCancel.Some? { cancels := cancels + [daveCancel.value]; }
      voice := transport;
      job := wanted;
      generation := generation + 1;
      audioStop, daveCancel := Some(made), Some(made);
      made := made + 1;
      speakers := map[];
      connected := true;
      ok := true;
    }

    method LeaveVoice(stream: Id) returns (ok: bool)
      modifies this
      ensures ok <==> Leaves(old(Abstract()), stream)
      ensures Abstract() == Left(old(Abstract()), stream)
    {
      if job.streamID != "" && stream != "" && job.streamID != stream { return false; }
      if audioStop.Some? {
        closes := closes + [audioStop.value];
        audioStop := None;
      }
      if daveCancel.Some? {
        cancels := cancels + [daveCancel.value];
        daveCancel := None;
      }
      voice := None;
      generation := generation + 1;
      job := NO_JOB;
      speakers := map[];
      connected := false;
      ok := true;
    }

    /** markVoiceDisconnected. */
    method MarkVoiceDisconnected(closeAudioStop: bool) returns (notify: bool)
      modifies this
      ensures notify == old(connected)
      ensures Abstract() == Disconnected(old(Abstract()), closeAudioStop)
    {
      notify := connected;
      if closeAudioStop && audioStop.Some? {
        closes := closes + [audioStop.value];
        audioStop := None;
      }
      if daveCancel.Some? {
        cancels := cancels + [daveCancel.value];
        daveCancel := None;
      }
      voice := None;
      speakers := map[];
      connected := false;
      if notify { disconnects := disconnects + 1; }
    }

    /** A callback that captured `wanted` and `captured` when its connection was made. */
    method Call(wanted: VoiceJob, captured: nat, what: Callback)
      modifies this
      ensures Abstract() == Called(old(Abstract()), wanted, captured, what)
    {
      if generation != captured || !SameJob(job, wanted) || !connected { return; }
      match what
      case PacketReceived =>
        received := received + 1;
      case SpeakerHeard(user, now) =>
        if user != "" { speakers := speakers[user := now]; }
      case SpeakersIdle(now) =>
        ExpireIdle(now);
      case RecvClosed =>
        var notify := MarkVoiceDisconnected(false);
    }

    method ExpireIdle(now: int)
      modifies this`speakers
      ensures speakers == map u | u in old(speakers) && old(speakers)[u] + IDLE_TIMEOUT > now :: old(speakers)[u]
    {
      var rest := speakers.Keys;
      while rest != {}
        invariant rest <= speakers.Keys <= old(speakers).Keys
        invariant forall u :: u in speakers ==> speakers[u] == old(speakers)[u]
        invariant forall u :: u in old(speakers) && u !in rest ==> (u in speakers <==> old(speakers)[u] + IDLE_TIMEOUT > now)
        decreases |rest|
      {
        var user :| user in rest;
        rest := rest - {user};
        if speakers[user] + IDLE_TIMEOUT <= now { speakers := speakers - {user}; }
      }
    }
  }

  // ----- runs -----

  datatype Event =
    | Join(job: VoiceJob, transport: Option<nat>)
    | Leave(stream: Id)
    | Disconnect(closeAudioStop: bool)
    | Call(job: VoiceJob, generation: nat, what: Callback)

  function Apply(c: Client, e: Event): Client {
    match e
    case Join(job, transport) => Joined(c, job, transport)
    case Leave(stream) => Left(c, stream)
    case Disconnect(close) => Disconnected(c, close)
    case Call(job, generation, what) => Called(c, job, generation, what)
  }

  function Execute(c: Client, run: seq<Event>): Client {
    if run == [] then c else Apply(Execute(c, run[..|run| - 1]), run[|run| - 1])
  }

  // ----- what one event does -----

  /** MAIN: a join of a whole job over a transport makes that connection the current one, with nobody speaking,
      and stops what belonged to the one before; any other join changes nothing. */
  lemma JoinMeans(c: Client, job: VoiceJob, transport: Option<nat>)
    ensures var n := Apply(c, Join(job, transport));
      if job.guildID == "" || job.voiceChannelID == "" || job.streamID == "" || transport.None? then n == c
      else
        && n.job == job && n.generation == c.generation + 1 && n.voice == transport && n.connected && n.speakers == map[]
        && n.audioStop == Some(c.made) && n.daveCancel == Some(c.made) && n.made == c.made + 1
        && n.closes == (if c.audioStop.Some? then c.closes + [c.audioStop.value] else c.closes)
        && n.cancels == (if c.daveCancel.Some? then c.cancels + [c.daveCancel.value] else c.cancels)
        && n.received == c.received && n.disconnects == c.disconnects
  {
  }

  /** MAIN: a leave of the current stream, or of whichever it is, ends the connection under a new generation
      and stops what belonged to it, without counting as a loss; a leave of another stream changes nothing. */
  lemma LeaveMeans(c: Client, stream: Id)
    ensures var n := Apply(c, Leave(stream));
      if c.job.streamID != "" && stream != "" && stream != c.job.streamID then n == c
      else
        && n.job == NO_JOB && n.generation == c.generation + 1 && n.voice.None? && !n.connected && n.speakers == map[]
        && n.audioStop.None? && n.daveCancel.None? && n.made == c.made
        && n.closes == (if c.audioStop.Some? then c.closes + [c.audioStop.value] else c.closes)
        && n.cancels == (if c.daveCancel.Some? then c.cancels + [c.daveCancel.value] else c.cancels)
        && n.received == c.received && n.disconnects == c.disconnects
  {
  }

  /** A lost connection: job and generation stay, the watcher is canceled, and it is counted if there was one. */
  predicate Loses(c: Client, n: Client, closeAudioStop: bool) {
    && n.job == c.job && n.generation == c.generation && n.voice.None? && !n.connected && n.speakers == map[]
    && n.daveCancel.None? && n.cancels == (if c.daveCancel.Some? then c.cancels + [c.daveCancel.value] else c.cancels)
    && n.audioStop == (if closeAudioStop then None else c.audioStop)
    && n.closes == (if closeAudioStop && c.audioStop.Some? then c.closes + [c.audioStop.value] else c.closes)
    && n.disconnects == (if c.connected then c.disconnects + 1 else c.disconnects) && n.received == c.received && n.made == c.made
  }

  /**
   * MAIN: a callback acts only for the connection it was made for: it counts a packet, notes or forgets who
   * speaks - a speaker is idle 1.25 s after it was last heard - or loses the connection.
   */
  lemma CallbackMeans(c: Client, job: VoiceJob, generation: nat, what: Callback)
    ensures var n := Apply(c, Call(job, generation, what));
      if !(c.connected && c.generation == generation && SameJob(c.job, job)) then n == c
      else
        match what
        case PacketReceived => n == c.(received := c.received + 1)
        case SpeakerHeard(user, now) => n == (if user == "" then c else c.(speakers := c.speakers[user := now]))
        case SpeakersIdle(now) =>
          && n == c.(speakers := n.speakers) && (forall u :: u in n.speakers ==> n.speakers[u] == c.speakers[u])
          && (forall u :: u in n.speakers <==> u in c.speakers && now - c.speakers[u] < 1_250_000_000)
        case RecvClosed => Loses(c, n, false)
    ensures forall close :: Loses(c, Apply(c, Disconnect(close)), close)
  {
  }

  // ----- staleness is permanent -----

  /** A connection that was handed out and is no longer the current one. */
  predicate Stale(c: Client, job: VoiceJob, generation: nat) {
    generation <= c.generation && !IsCurrent(c, job, generation)
  }

  lemma {:induction false} StaysStale(c: Client, run: seq<Event>, job: VoiceJob, generation: nat)
    requires Stale(c, job, generation)
    ensures Stale(Execute(c, run), job, generation)
  {
    if run != [] {
      StaysStale(c, run[..|run| - 1], job, generation);
    }
  }

  ghost predicate CanBecomeCurrent(c: Client, job: VoiceJob, generation: nat) {
    exists run :: IsCurrent(Execute(c, run), job, generation)
  }

  function Leaving(count: nat): seq<Event> { seq(count, _ => Leave("")) }

  lemma {:induction false} LeavingCounts(c: Client, count: nat)
    ensures Execute(c, Leaving(count)).generation == c.generation + count
  {
    if count > 0 {
      LeavingCounts(c, count - 1);
      assert Leaving(count)[..count - 1] == Leaving(count - 1);
    }
  }

  /**
   * MAIN: a job and generation can be current at some later time exactly when they are current now,
   * or the generation has not been handed out yet and the job can be joined.
   */
  lemma CurrentAgainExactly(c: Client, job: VoiceJob, generation: nat)
    ensures CanBecomeCurrent(c, job, generation)
      <==> IsCurrent(c, job, generation) || (generation > c.generation && Joinable(job))
  {
    if IsCurrent(c, job, generation) {
      assert Execute(c, []) == c;
    } else if generation > c.generation && Joinable(job) {
      var gap := generation - c.generation - 1;
      var run := Leaving(gap) + [Join(job, Some(0))];
      assert run[..|run| - 1] == Leaving(gap);
      LeavingCounts(c, gap);
      assert IsCurrent(Execute(c, run), job, generation);
    }
    forall run | IsCurrent(Execute(c, run), job, generation) && !IsCurrent(c, job, generation)
      ensures generation > c.generation && Joinable(job)
    {
      if generation <= c.generation { StaysStale(c, run, job, generation); }
      CurrentWasJoined(c, run, job, generation);
    }
  }

  lemma {:induction false} CurrentWasJoined(c: Client, run: seq<Event>, job: VoiceJob, generation: nat)
    requires IsCurrent(Execute(c, run), job, generation) && !IsCurrent(c, job, generation)
    ensures Joinable(job)
  {
    if run != [] {
      var d := Execute(c, run[..|run| - 1]);
      if IsCurrent(d, job, generation) { CurrentWasJoined(c, run[..|run| - 1], job, generation); }
    }
  }

  // ----- so the callbacks of a stale connection might as well not happen -----

  predicate CalledBy(e: Event, job: VoiceJob, generation: nat) {
    e.Call? && SameJob(e.job, job) && e.generation == generation
  }

  /** The run without the callbacks of one connection. */
  function Silenced(run: seq<Event>, job: VoiceJob, generation: nat): seq<Event> {
    if run == [] then []
    else
      var before, e := Silenced(run[..|run| - 1], job, generation), run[|run| - 1];
      if CalledBy(e, job, generation) then before else before + [e]
  }

  /** MAIN: erasing every callback of a stale connection from any run leaves the same client. */
  lemma {:induction false} StaleCallbacksChangeNothing(c: Client, run: seq<Event>, job: VoiceJob, generation: nat)
    requires Stale(c, job, generation)
    ensures Execute(c, run) == Execute(c, Silenced(run, job, generation))
  {
    if run != [] {
      var init, e := run[..|run| - 1], run[|run| - 1];
      StaleCallbacksChangeNothing(c, init, job, generation);
      if CalledBy(e, job, generation) {
        StaysStale(c, init, job, generation);
      } else {
        var quiet := Silenced(init, job, generation);
        assert (quiet + [e])[..|quiet|] == quiet;
      }
    }
  }

  // ----- stop channels -----

  ghost predicate Distinct(log: seq<nat>) { forall i, j :: 0 <= i < j < |log| ==> log[i] != log[j] }

  /** Every number below `made` was closed once, or is the one still held. */
  ghost predicate ClosedOnce(log: seq<nat>, held: Option<nat>, made: nat) {
    && Distinct(log) && (forall n :: n in log ==> n < made)
    && (held.Some? ==> held.value < made && held.value !in log)
    && (forall n :: 0 <= n < made ==> n in log || held == Some(n))
  }

  lemma PushKeeps(log: seq<nat>, held: Option<nat>, made: nat)
    requires ClosedOnce(log, held, made)
    ensures ClosedOnce(Push(log, held), None, made)
    ensures ClosedOnce(Push(log, held), Some(made), made + 1)
  {
  }

  lemma StepClosesOnce(c: Client, e: Event)
    requires ClosedOnce(c.closes, c.audioStop, c.made)
    ensures ClosedOnce(Apply(c, e).closes, Apply(c, e).audioStop, Apply(c, e).made)
  {
    PushKeeps(c.closes, c.audioStop, c.made);
  }

  lemma StepCancelsOnce(c: Client, e: Event)
    requires ClosedOnce(c.cancels, c.daveCancel, c.made)
    ensures ClosedOnce(Apply(c, e).cancels, Apply(c, e).daveCancel, Apply(c, e).made)
  {
    PushKeeps(c.cancels, c.daveCancel, c.made);
  }

  /**
   * MAIN: over every run each audio stop channel is closed at most once, only the current one is not
   * closed yet, and the same holds of the cancel functions of the DAVE watchers.
   */
  lemma {:induction false} ChannelsAreClosedOnce(run: seq<Event>)
    ensures var c := Execute(BOOT, run);
      ClosedOnce(c.closes, c.audioStop, c.made) && ClosedOnce(c.cancels, c.daveCancel, c.made)
  {
    if run != [] {
      ChannelsAreClosedOnce(run[..|run| - 1]);
      StepClosesOnce(Execute(BOOT, run[..|run| - 1]), run[|run| - 1]);
      StepCancelsOnce(Execute(BOOT, run[..|run| - 1]), run[|run| - 1]);
    }
  }

  /** MAIN: whoever holds a voice connection holds its stop channel and its watcher, and is connected. */
  lemma {:induction false} ConnectionHoldsItsResources(run: seq<Event>)
    ensures var c := Execute(BOOT, run);
      && (c.connected <==> c.voice.Some?) && (c.connected <==> c.daveCancel.Some?)
      && (c.connected ==> c.audioStop.Some? && Joinable(c.job))
      && (c.connected ==> c.audioStop == c.daveCancel == Some(c.made - 1))
  {
    if run != [] {
      ConnectionHoldsItsResources(run[..|run| - 1]);
    }
  }
}
