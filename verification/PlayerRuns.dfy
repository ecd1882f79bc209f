/** What holds over every run of the player: safety, and waiting calls that are not forgotten. */
module PlayerRuns {
  import opened Feed
  import opened PlayerModel
  import opened PlayerFrames
  import C = Categories

  // ---- Safety ----

  predicate Sane(s: State) {
    (s.deck.audio ==> s.deck.call.Some?) &&
    (s.deck.delay ==> s.deck.call.None?) &&
    (s.mode == Offline ==> s.deck.queue == [])
  }

  /** Online with calls waiting, and nothing under way that will start one: no current call, no pause, no skip
      delay, no reply awaited. They wait until another call arrives or the listener acts. */
  predicate Stalled(s: State) {
    s.mode == Online && s.deck.queue != [] && s.deck.call.None? && !s.deck.paused && !s.deck.delay &&
      s.walk.pending.None?
  }

  /** The two things a listener can do that leave waiting calls with nobody to start them. */
  predicate Strands(s: State, e: Event) {
    s.deck.queue != [] && !s.deck.paused && !s.deck.delay && s.walk.pending.None? &&
    ((e == Stop && s.mode == Online) || (e == StartLivefeed && s.mode == Playback && s.deck.call.None?))
  }

  /** What every step other than the two keeps. */
  ghost predicate Kept'(s: State, s': State) {
    Sane(s') && (!Stalled(s) ==> !Stalled(s'))
  }

  lemma RequestedSane(s: State, id: nat)
    requires Sane(s)
    ensures Kept'(s, Requested(s, id))
  {
    hide ReleasedSystem, ReleasedTalkgroup, SystemReleaseThrows, TalkgroupReleaseThrows;
    ReleasedFrame(Freed(s, id));
    ReleasedFrame(ReleasedSystem(Freed(s, id)));
  }

  lemma NextSane(s: State)
    requires Sane(s)
    ensures Kept'(s, Next(s))
  {
    hide Requested;
    forall id: nat { RequestedSane(s, id); }
  }

  lemma ResumedSane(s: State)
    requires Sane(s)
    ensures Sane(Resumed(s)) && !Stalled(Resumed(s))
  {
    hide Next, QueueCount;
    NextSane(s);
    NextMode(s);
  }

  lemma NextMode(s: State)
    ensures Next(s).mode == Online ==> s.mode == Online || (Next(s).deck.queue == [] && s.walk.refreshing)
  {
    hide C.IndexThrows, C.Statuses, IndexOf;
  }

  lemma CleanedSane(s: State)
    requires Sane(s)
    ensures Kept'(s, Cleaned(s))
  {
    hide Resumed;
    var s' := s.(deck := s.deck.(queue := Kept(s.deck.queue, s.feeds.live, true)),
                 log := s.log.(dropped := s.log.dropped + Kept(s.deck.queue, s.feeds.live, false)));
    ResumedSane(Undelayed(Halted(s')));
  }

  // ---- One event, by what it touches ----

  predicate OfAudio(e: Event) {
    e.LiveCall? || e.PlayReply? || e.Decoded? || e.Ended? || e.Pause? || e.PlayCall? || e.Replay? || e.Stop?
  }

  predicate OfWalk(e: Event) {
    e.ListReply? || e.DecodeFailed? || e.DelayOver? || e.Skip? || e.LoadAndPlay? || e.Search?
  }

  predicate OfMode(e: Event) {
    e.Livefeed? || e.StartLivefeed? || e.StopLivefeed? || e.StopPlayback?
  }

  ghost predicate StepKeeps(s: State, e: Event) {
    Sane(Step(s, e)) && (!Stalled(s) ==> (Stalled(Step(s, e)) <==> Strands(s, e)))
  }

  lemma PlayedSane(s: State, c: Call)
    requires Sane(s)
    ensures Sane(Played(s)) && !Stalled(Played(s))
    ensures Kept'(s, PlayedCall(s, c))
  {
    hide QueueCount;
  }

  lemma EnqueuedSane(s: State, c: Call, priority: bool)
    requires Sane(s)
    ensures Kept'(s, Enqueued(s, c, priority))
    ensures s.mode != Offline && s.deck.call.None? && !s.deck.paused && !s.deck.delay ==>
              !Stalled(Enqueued(s, c, priority))
  {
    hide Played;
    var s' := if priority then s.(deck := s.deck.(queue := [Entry(c, PRIORITY)] + s.deck.queue))
              else s.(deck := s.deck.(queue := s.deck.queue + [Entry(c, |s.log.arrivals|)]),
                      log := s.log.(arrivals := s.log.arrivals + [c]));
    if s.mode != Offline {
      PlayedSane(s', c);
    }
  }

  lemma AudioSane(s: State, e: Event)
    requires Sane(s) && OfAudio(e)
    ensures StepKeeps(s, e)
  {
    hide Played, PlayedCall, Enqueued;
    match e {
      case LiveCall(c) => EnqueuedSane(s, c, false);
      case PlayReply(c) =>
        EnqueuedSane(s, c, false);
        EnqueuedSane(s.(walk := s.walk.(pending := None)), c, true);
      case Pause(_) => PlayedSane(WithPause(s, false), Call(0, 0, 0, []));
      case PlayCall(c) => PlayedSane(s, c);
      case Replay => PlayedSane(s, if Current(s).Some? then Current(s).value else Call(0, 0, 0, []));
      case _ =>
    }
  }

  lemma WalkSane(s: State, e: Event)
    requires Sane(s) && OfWalk(e)
    ensures StepKeeps(s, e)
  {
    hide Resumed, Next, Requested;
    match e {
      case ListReply(l) => NextSane(s.(walk := s.walk.(list := Some(l))));
      case LoadAndPlay(id) => RequestedSane(s, id);
      case DelayOver => ResumedSane(Undelayed(s));
      case Search(_) =>
      case _ => ResumedSane(Undelayed(Halted(s)));
    }
  }

  lemma ModeSane(s: State, e: Event)
    requires Sane(s) && OfMode(e)
    ensures StepKeeps(s, e)
  {
  }

  lemma SettledSane(s: State)
    requires Sane(s)
    ensures Kept'(s, HoldSettled(s)) && Kept'(s, AfterAvoid(s))
  {
    hide Cleaned, Announced, CleaningThrows;
    CleanedSane(s);
    AnnouncedFrame(s);
    AnnouncedFrame(Cleaned(s));
  }

  lemma HeldSystemSane(s: State)
    requires Sane(s)
    ensures Kept'(s, HeldSystem(s))
  {
    hide HoldSettled, Announced, ReleasedTalkgroup, TalkgroupReleaseThrows, RestrictToSystem;
    ReleasedFrame(s);
    if s.feeds.heldSystem.Some? {
      AnnouncedFrame(s.(feeds := s.feeds.(live := s.feeds.heldSystem.value, heldSystem := None)));
    } else if Current(s).Some? {
      SettledSane(WithSystemHeld(ReleasedTalkgroup(s), Current(s).value.system));
    }
  }

  lemma HeldTalkgroupSane(s: State)
    requires Sane(s)
    ensures Kept'(s, HeldTalkgroup(s))
  {
    hide HoldSettled, Announced, ReleasedSystem, SystemReleaseThrows, OnlyTalkgroup;
    ReleasedFrame(s);
    if s.feeds.heldTalkgroup.Some? {
      AnnouncedFrame(s.(feeds := s.feeds.(live := s.feeds.heldTalkgroup.value, heldTalkgroup := None)));
    } else if Current(s).Some? {
      SettledSane(WithTalkgroupHeld(ReleasedSystem(s), Current(s).value.system, Current(s).value.talkgroup));
    }
  }

  lemma AvoidedSane(s: State, o: AvoidOptions)
    requires Sane(s)
    ensures Kept'(s, Avoided(s, o))
  {
    hide AfterAvoid, AvoidedMap;
    if AvoidedMap(s, o).Some? {
      SettledSane(WithLive(s.(feeds := s.feeds.(heldSystem := None, heldTalkgroup := None)), AvoidedMap(s, o).value));
    }
  }

  lemma SwitchedSane(s: State, c: C.Category)
    requires Sane(s)
    ensures Kept'(s, Switched(s, c))
  {
    hide Cleaned, Rebuilt, RebuildThrows, Resubscribed, ScanOf;
    var s1 := s.(feeds := s.feeds.(heldSystem := None, heldTalkgroup := None, live := ScanOf(s, c).live));
    AnnouncedFrame(s1);
    AnnouncedFrame(Rebuilt(s1));
    CleanedSane(Resubscribed(Rebuilt(s1)));
  }

  lemma ConfiguredSane(s: State, config: C.Config, sys: nat, tg: nat)
    requires Sane(s)
    ensures Kept'(s, Configured(s, config)) && Kept'(s, Unavoided(s, sys, tg))
  {
    hide Announced, Rebuilt, RebuiltLive, Set;
    AnnouncedFrame(WithConfig(s, config));
    if Known(s.feeds.live, sys, tg) {
      AnnouncedFrame(WithLive(s, Set(s.feeds.live, sys, tg, true)));
    }
  }

  lemma FeedSane(s: State, e: Event)
    requires Sane(s) && !OfAudio(e) && !OfWalk(e) && !OfMode(e)
    ensures StepKeeps(s, e)
  {
    hide HeldSystem, HeldTalkgroup, Avoided, Switched, Configured, Unavoided;
    match e {
      case HoldSystem => HeldSystemSane(s);
      case HoldTalkgroup => HeldTalkgroupSane(s);
      case Avoid(o) => AvoidedSane(s, o);
      case Toggle(c) => SwitchedSane(s, c);
      case NewConfig(config) => ConfiguredSane(s, config, 0, 0);
      case AvoidOver(sys, tg) => ConfiguredSane(s, s.feeds.config, sys, tg);
    }
  }

  lemma StepSane(s: State, e: Event)
    requires Sane(s)
    ensures Sane(Step(s, e))
    ensures !Stalled(s) ==> (Stalled(Step(s, e)) <==> Strands(s, e))
  {
    hide Step, Sane, Stalled, Strands;
    if OfAudio(e) {
      AudioSane(s, e);
    } else if OfWalk(e) {
      WalkSane(s, e);
    } else if OfMode(e) {
      ModeSane(s, e);
    } else {
      FeedSane(s, e);
    }
  }

  /** Over every run from the constructed player, a source implies a call, a pending delay implies none, and an
      offline player has an empty queue. */
  lemma {:induction false} RunSane(s: State, events: seq<Event>)
    requires Sane(s)
    ensures Sane(Run(s, events))
    decreases |events|
  {
    if events != [] {
      StepSane(s, events[0]);
      RunSane(Step(s, events[0]), events[1..]);
    }
  }

  predicate NeverStrands(s: State, events: seq<Event>)
    decreases |events|
  {
    events == [] || (!Strands(s, events[0]) && NeverStrands(Step(s, events[0]), events[1..]))
  }

  /** Unless the listener strands the queue, an online player never sits on waiting calls. */
  lemma {:induction false} RunNeverStalls(s: State, events: seq<Event>)
    requires Sane(s) && !Stalled(s) && NeverStrands(s, events)
    ensures !Stalled(Run(s, events))
    decreases |events|
  {
    if events != [] {
      StepSane(s, events[0]);
      RunNeverStalls(Step(s, events[0]), events[1..]);
    }
  }
}
