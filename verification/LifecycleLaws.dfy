/** What starting, stopping, reconnecting and projecting do to the manager, one event at a time. */
module LifecycleLaws {
  import opened JobTypes
  import opened ManagerState
  import opened ManagerSystem
  import opened SystemFrames
  import RL = RosterLaws

  // ----- projecting the waiting streams -----

  /** The fence was set for another epoch or channel than the projected one. */
  predicate Outdated(d: VoiceDefaults, fence: VoiceDefaults) {
    d.epoch != fence.epoch || d.guildID != fence.guildID || d.voiceChannelID != fence.voiceChannelID
  }

  /** The reservation is for a stream that is projected to start automatically, under the same epoch. */
  predicate Backed(projected: map<Id, VoiceDefaults>, stream: Id, r: Reservation) {
    stream in projected && projected[stream].autoStart && projected[stream].epoch == r.epoch
  }

  /** The stream was pending, is projected with no other epoch than before, and kept its fence if it had one. */
  predicate StaysPending(a: AutoStart, b: AutoStart, x: Id) {
    && x in a.pending && x in b.defaults && (x in a.defaults ==> a.defaults[x].epoch == b.defaults[x].epoch)
    && (x in a.stopped ==> x in b.stopped)
  }

  /**
   * MAIN: a projection replaces the defaults by the named streams it brings. A reservation stays exactly if it
   * is backed, and otherwise its context is cancelled; a fence falls exactly if it is outdated; a pending
   * start stays exactly if its stream is still projected, with no other epoch, and its fence stands.
   */
  lemma ProjectMeans(cfg: Config, s: System, incoming: map<Id, VoiceDefaults>, now: int)
    ensures var m, n := s.m, Apply(cfg, s, ProjectCall(incoming), now).m; var a, b := m.start, n.start;
      && n == m.(start := n.start, cancelled := n.cancelled) && b.executing == a.executing && b.refreshAt == a.refreshAt
      && (forall x :: x in b.defaults <==> x in incoming && x != "") && (forall x :: x in b.defaults ==> b.defaults[x] == incoming[x])
      && (forall x :: x in b.retries <==> x in a.retries && Backed(b.defaults, x, a.retries[x]))
      && (forall x :: x in b.retries ==> b.retries[x] == a.retries[x])
      && (forall c :: c in n.cancelled <==> c in m.cancelled || exists x :: x in a.retries && x !in b.retries && a.retries[x].id == c)
      && (forall x :: x in b.stopped <==> x in a.stopped && !(x in b.defaults && Outdated(b.defaults[x], a.stopped[x])))
      && (forall x :: x in b.stopped ==> b.stopped[x] == a.stopped[x])
      && (forall x :: x in b.pending <==> StaysPending(a, b, x))
      && (forall x :: x in b.pending ==> b.pending[x] == a.pending[x])
  {
    var m, n := s.m, Project(s.m, incoming);
    forall x ensures x in n.start.retries <==> x in m.start.retries && Backed(n.start.defaults, x, m.start.retries[x]) {}
  }

  // ----- starting -----

  predicate Whole(job: VoiceJob) { job.streamID != "" && job.guildID != "" && job.voiceChannelID != "" }

  /**
   * MAIN: Start is refused without a stream and a channel, while a job is being stopped, and while another
   * stream runs. Otherwise it ends the stream's pending stop and goes on to join, with the epoch that the
   * stream is projected with, or was retained with.
   */
  lemma StartMeans(cfg: Config, s: System, job: VoiceJob, now: int)
    ensures var n := Apply(cfg, s, StartCall(job), now); var a := s.m.start;
      if !Whole(job) || s.m.stopping || (s.m.current.streamID != "" && s.m.current.streamID != job.streamID) then n == s
      else
        && n.tasks == s.tasks[s.next := StartJobTask(job,
             if job.streamID in a.defaults then a.defaults[job.streamID].epoch
             else if job.streamID in a.retained then a.retained[job.streamID].epoch else "")]
        && n == s.(m := n.m, tasks := n.tasks, next := s.next + 1) && n.m == s.m.(stop := n.m.stop, cancelled := n.m.cancelled)
        && job.streamID !in n.m.stop.pending && n.m.stop.inFlight == s.m.stop.inFlight - {job.streamID}
        && (job.streamID in s.m.stop.inFlight ==> s.m.stop.inFlight[job.streamID].context in n.m.cancelled)
  {
    if Whole(job) {
      RL.CancellingMeans(s.m, job.streamID);
      CancelStopFrame(s.m, job.streamID);
    }
  }

  /** All reservations are gone and their contexts cancelled. */
  ghost predicate NoReservations(m: State, n: State) {
    n.start.retries == map[] && forall c :: c in n.cancelled <==> c in m.cancelled || exists x :: x in m.start.retries && m.start.retries[x].id == c
  }

  /**
   * MAIN: a successful start runs its job under its captured epoch, with an empty roster, a retry queue and a
   * connection generation of its own, and without any reservation left; a failed one changes nothing.
   */
  lemma StartCommitMeans(cfg: Config, s: System, id: nat, answer: Answer, now: int)
    requires id in s.tasks && s.tasks[id].StartJobTask?
    ensures var n, t := Apply(cfg, s, Run(id, answer), now), s.tasks[id];
      match answer
      case Done =>
        && n == s.(tasks := s.tasks - {id}, m := n.m) && NoReservations(s.m, n.m)
        && n.m.start == s.m.start.(pending := s.m.start.pending - {t.job.streamID}, retries := map[])
        && n.m == s.m.(current := t.job, epoch := t.epoch, stopping := false, disconnected := false, generation := s.m.generation + 1,
                       queue := Some(s.m.minted), minted := s.m.minted + 1, roster := Roster(map[], {}, 0, 0),
                       start := n.m.start, cancelled := n.m.cancelled)
      case Failed(_) => n == s.(tasks := s.tasks - {id})
      case _ => n == s
  {
  }

  // ----- stopping -----

  /**
   * MAIN: Stop always cancels every reservation. For the running stream, or for whichever runs, it closes the
   * retry queue, opens a new connection generation, drops the stream's pending stop but not the request
   * under way, and goes on to leave; while one stop is under way another is refused.
   */
  lemma StopMeans(cfg: Config, s: System, stream: Id, now: int)
    ensures var n := Apply(cfg, s, StopCall(stream), now); var own := s.m.current.streamID;
      && NoReservations(s.m, n.m) && n.m.start == s.m.start.(retries := map[])
      && (if own == "" || s.m.stopping || (stream != "" && stream != own)
          then n == s.(m := s.m.(start := n.m.start, cancelled := n.m.cancelled))
          else StopsJob(s, n))
  {
  }

  predicate StopsJob(s: System, n: System) {
    var own := s.m.current.streamID;
    && n == s.(m := n.m, tasks := s.tasks[s.next := LeaveTask(own)], next := s.next + 1)
    && n.m == s.m.(start := n.m.start, cancelled := n.m.cancelled, stop := n.m.stop,
                   stopping := true, queue := None, generation := s.m.generation + 1)
    && own !in n.m.stop.pending && n.m.stop.inFlight == s.m.stop.inFlight
    && own in n.m.stop.generation && n.m.stop.generation[own] == Count(s.m.stop.generation, own) + 1
  }

  /**
   * MAIN: when leaving succeeds the stream is fenced with the epoch and channel of the job that then runs, and
   * nothing runs any more; when it fails the job it was meant for runs on, with a new retry queue.
   */
  lemma LeaveMeans(cfg: Config, s: System, id: nat, answer: Answer, now: int)
    requires id in s.tasks && s.tasks[id].LeaveTask?
    ensures var n, stream := Apply(cfg, s, Run(id, answer), now), s.tasks[id].stream; var job := s.m.current;
      match answer
      case Done =>
        n == s.(tasks := s.tasks - {id}, m := s.m.(
          current := NO_JOB, stopping := false, queue := None, roster := s.m.roster.(participants := map[], speakers := {}),
          start := s.m.start.(stopped := s.m.start.stopped[stream := VoiceDefaults(s.m.epoch, job.guildID, job.voiceChannelID, "", false)])))
      case Failed(_) =>
        n == s.(tasks := s.tasks - {id}, m := if job.streamID == stream && s.m.stopping
                then s.m.(stopping := false, queue := Some(s.m.minted), minted := s.m.minted + 1) else s.m)
      case _ => n == s
  {
  }

  // ----- reconnecting -----

  /** MAIN: a connection ends the pause, with a new retry queue for a running job and none for an idle manager. */
  lemma ConnectMeans(cfg: Config, s: System, now: int)
    ensures var n, m := Apply(cfg, s, ConnectedCall, now), s.m; var running := m.current.streamID != "" && !m.stopping;
      n == s.(m := m.(disconnected := false, queue := if running then Some(m.minted) else None, minted := if running then m.minted + 1 else m.minted))
  {
  }

  /**
   * MAIN: a lost connection pauses the manager in a new connection generation, without a retry queue and
   * without reservations, and a running job goes on to rejoin its channel if that is wanted.
   */
  lemma DisconnectMeans(cfg: Config, s: System, rejoin: bool, now: int)
    ensures var n, m := Apply(cfg, s, DisconnectedCall(rejoin), now), s.m;
      && n.m == m.(disconnected := true, queue := None, generation := m.generation + 1, start := m.start.(retries := map[]), cancelled := n.m.cancelled)
      && NoReservations(m, n.m)
      && (if rejoin && !m.stopping && m.current.streamID != ""
          then n == s.(m := n.m, next := s.next + 1, tasks := s.tasks[s.next := VoiceTask(m.current, m.generation + 1, 0, false)])
          else n == s.(m := n.m))
  {
  }

  /** The rejoin is still for the running job and the connection it was started for. */
  predicate StillRejoins(m: State, t: Task)
    requires t.VoiceTask?
  {
    SameJob(m.current, t.job) && m.generation == t.reconnect
  }

  /**
   * MAIN: a rejoin tries while its job and connection are current, no stop is under way and attempts are left;
   * a successful attempt ends the pause with a new retry queue, if it is still wanted, and a failed one
   * counts.
   */
  lemma RejoinMeans(cfg: Config, s: System, id: nat, answer: Answer, now: int)
    requires id in s.tasks && s.tasks[id].VoiceTask?
    ensures var n, t, m := Apply(cfg, s, Run(id, answer), now), s.tasks[id], s.m;
      if !t.joining then
        if StillRejoins(m, t) && !m.stopping && t.attempts < cfg.voiceAttempts then n == s.(tasks := s.tasks[id := t.(joining := true)])
        else n == s.(tasks := s.tasks - {id})
      else
        match answer
        case Done =>
          n == s.(tasks := s.tasks - {id}, m := if StillRejoins(m, t) && !m.stopping
                  then m.(disconnected := false, queue := Some(m.minted), minted := m.minted + 1) else m)
        case Failed(_) =>
          if StillRejoins(m, t) then n == s.(tasks := s.tasks[id := t.(joining := false, attempts := t.attempts + 1)])
          else n == s.(tasks := s.tasks - {id})
        case _ => n == s
  {
  }
}
