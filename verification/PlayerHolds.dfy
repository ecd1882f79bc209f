/** Holding a system or a talkgroup never loses the map underneath. */
module PlayerHolds {
  import opened Feed
  import opened PlayerModel
  import opened PlayerFrames
  import C = Categories

  /** The map a release gives back, or the live map when nothing is held. */
  function Base(f: Feeds): FeedMap {
    if f.heldSystem.Some? then f.heldSystem.value
    else if f.heldTalkgroup.Some? then f.heldTalkgroup.value
    else f.live
  }

  /** At most one snapshot; the live map is the base, the base restricted to one system, or one talkgroup of it. */
  ghost predicate Held(f: Feeds) {
    match (f.heldSystem, f.heldTalkgroup)
    case (None, None) => true
    case (Some(base), None) => exists k :: f.live == RestrictToSystem(base, k)
    case (None, Some(base)) => exists k, t :: f.live == OnlyTalkgroup(base, k, t)
    case (Some(_), Some(_)) => false
  }

  /** Something has been played whenever a hold is set, so a hold can always be released. */
  ghost predicate HoldsFine(s: State) {
    Held(s.feeds) && (s.feeds.heldSystem.Some? || s.feeds.heldTalkgroup.Some? ==> Current(s).Some?)
  }

  ghost predicate Conserves(s: State, s': State) {
    HoldsFine(s') && Base(s'.feeds) == Base(s.feeds)
  }

  /** Events that change the flags themselves or the configured talkgroups. */
  ghost predicate ChangesFlags(e: Event) {
    e.NewConfig? || e.AvoidOver? || e.Avoid? || e.Toggle?
  }

  ghost predicate SameHold(s: State, s': State) {
    s'.feeds == s.feeds && (Current(s).Some? ==> Current(s').Some?)
  }

  lemma PlayedSameHold(s: State)
    ensures SameHold(s, Played(s))
  {
  }

  lemma QueueingSameHold(s: State, c: Call)
    ensures SameHold(s, Enqueued(s, c, true)) && SameHold(s, Enqueued(s, c, false))
    ensures SameHold(s, PlayedCall(s, c))
  {
  }

  lemma StoppingSameHold(s: State)
    ensures SameHold(s, WentLive(s)) && SameHold(s, Stopped(s))
    ensures SameHold(s, LeftPlayback(s)) && SameHold(s, Halted(s))
  {
  }

  lemma NextSameHold(s: State)
    ensures SameHold(s, Next(s))
  {
  }

  lemma ResumedSameHold(s: State)
    ensures SameHold(s, Resumed(s))
  {
    hide Next, QueueCount;
    NextSameHold(s);
  }

  lemma CleanedSameHold(s: State)
    ensures SameHold(s, Cleaned(s))
  {
    hide Resumed, Kept;
    var s' := s.(deck := s.deck.(queue := Kept(s.deck.queue, s.feeds.live, true)),
                 log := s.log.(dropped := s.log.dropped + Kept(s.deck.queue, s.feeds.live, false)));
    ResumedSameHold(Undelayed(Halted(s')));
  }

  ghost predicate SameMaps(s: State, s': State) {
    && s'.feeds.live == s.feeds.live && s'.feeds.heldSystem == s.feeds.heldSystem
    && s'.feeds.heldTalkgroup == s.feeds.heldTalkgroup && (Current(s).Some? ==> Current(s').Some?)
  }

  lemma SettledSameMaps(s: State)
    ensures SameMaps(s, HoldSettled(s))
  {
    hide Cleaned, Announced;
    CleanedSameHold(s);
    AnnouncedFrame(Cleaned(s));
  }

  /** A release gives the base back, whether or not recomputing the statuses throws. */
  lemma ReleasedGivesBase(s: State)
    requires HoldsFine(s)
    ensures Conserves(s, ReleasedSystem(s)) && Conserves(s, ReleasedTalkgroup(s))
    ensures ReleasedTalkgroup(ReleasedSystem(s)).feeds.live == Base(s.feeds)
    ensures s.feeds.heldSystem.None? ==> ReleasedTalkgroup(s).feeds.live == Base(s.feeds)
    ensures s.feeds.heldTalkgroup.None? ==> ReleasedSystem(s).feeds.live == Base(s.feeds)
    ensures ReleasedSystem(s).deck == s.deck && ReleasedTalkgroup(s).deck == s.deck
    ensures ReleasedSystem(s).feeds.heldSystem == None && ReleasedTalkgroup(s).feeds.heldTalkgroup == None
    ensures ReleasedSystem(s).feeds.heldTalkgroup == s.feeds.heldTalkgroup
    ensures ReleasedTalkgroup(s).feeds.heldSystem == s.feeds.heldSystem
  {
    hide C.IndexThrows, C.Statuses, RestrictToSystem, OnlyTalkgroup;
  }

  lemma RequestedConserves(s: State, id: nat)
    requires HoldsFine(s)
    ensures Conserves(s, Requested(s, id))
    ensures id != 0 && s.mode == Offline ==> Requested(s, id).feeds.live == Base(s.feeds)
  {
    hide ReleasedSystem, ReleasedTalkgroup, RebuildThrows, RestrictToSystem, OnlyTalkgroup;
    ReleasedGivesBase(Freed(s, id));
    ReleasedGivesBase(ReleasedSystem(Freed(s, id)));
  }

  lemma HeldSystemConserves(s: State)
    requires HoldsFine(s)
    ensures Conserves(s, HeldSystem(s))
    ensures Current(s).Some? && s.feeds.heldSystem.None? && !TalkgroupReleaseThrows(s) ==>
              HeldSystem(s).feeds.heldSystem == Some(Base(s.feeds)) &&
              HeldSystem(s).feeds.live == RestrictToSystem(Base(s.feeds), Current(s).value.system)
    ensures s.feeds.heldSystem.Some? || TalkgroupReleaseThrows(s) ==> HeldSystem(s).feeds.live == Base(s.feeds)
  {
    hide ReleasedSystem, ReleasedTalkgroup, RebuildThrows, HoldSettled, Announced, RestrictToSystem, OnlyTalkgroup;
    if Current(s).Some? {
      ReleasedGivesBase(s);
      SettledSameMaps(WithSystemHeld(ReleasedTalkgroup(s), Current(s).value.system));
      if s.feeds.heldSystem.Some? {
        AnnouncedFrame(s.(feeds := s.feeds.(live := s.feeds.heldSystem.value, heldSystem := None)));
      }
    }
  }

  lemma HeldTalkgroupConserves(s: State)
    requires HoldsFine(s)
    ensures Conserves(s, HeldTalkgroup(s))
    ensures Current(s).Some? && s.feeds.heldTalkgroup.None? && !SystemReleaseThrows(s) ==>
              HeldTalkgroup(s).feeds.heldTalkgroup == Some(Base(s.feeds)) &&
              HeldTalkgroup(s).feeds.live ==
                OnlyTalkgroup(Base(s.feeds), Current(s).value.system, Current(s).value.talkgroup)
    ensures s.feeds.heldTalkgroup.Some? || SystemReleaseThrows(s) ==> HeldTalkgroup(s).feeds.live == Base(s.feeds)
  {
    hide ReleasedSystem, ReleasedTalkgroup, RebuildThrows, HoldSettled, Announced, RestrictToSystem, OnlyTalkgroup;
    if Current(s).Some? {
      var c := Current(s).value;
      ReleasedGivesBase(s);
      SettledSameMaps(WithTalkgroupHeld(ReleasedSystem(s), c.system, c.talkgroup));
      if s.feeds.heldTalkgroup.Some? {
        AnnouncedFrame(s.(feeds := s.feeds.(live := s.feeds.heldTalkgroup.value, heldTalkgroup := None)));
      }
    }
  }

  lemma StepConserves(s: State, e: Event)
    requires HoldsFine(s) && !ChangesFlags(e)
    ensures Conserves(s, Step(s, e))
  {
    hide Resumed, Next, Played, PlayedCall, Enqueued, WentLive, Stopped, LeftPlayback, HeldSystem, HeldTalkgroup,
         Requested, RestrictToSystem, OnlyTalkgroup;
    StoppingSameHold(s);
    match e {
      case LiveCall(c) => QueueingSameHold(s, c);
      case PlayReply(c) =>
        QueueingSameHold(s, c);
        QueueingSameHold(s.(walk := s.walk.(pending := None)), c);
      case Pause(status) => PlayedSameHold(WithPause(s, false));
      case PlayCall(c) => QueueingSameHold(s, c);
      case Replay =>
        PlayedSameHold(s);
        if Current(s).Some? { QueueingSameHold(s, Current(s).value); }
      case ListReply(l) => NextSameHold(s.(walk := s.walk.(list := Some(l))));
      case DecodeFailed => ResumedSameHold(Undelayed(Halted(s)));
      case Skip => ResumedSameHold(Undelayed(Halted(s)));
      case DelayOver => ResumedSameHold(Undelayed(s));
      case LoadAndPlay(id) => RequestedConserves(s, id);
      case HoldSystem => HeldSystemConserves(s);
      case HoldTalkgroup => HeldTalkgroupConserves(s);
      case _ =>
    }
  }

  ghost predicate KeepsFlags(events: seq<Event>) {
    forall e | e in events :: !ChangesFlags(e)
  }

  /** Hold conservation: over any run without flag or configuration changes, whatever plays meanwhile, at most one
      snapshot is set, the base map stays exactly what it was, and the live map is derived from it. */
  lemma {:induction false} RunConserves(s: State, events: seq<Event>)
    requires HoldsFine(s) && KeepsFlags(events)
    ensures Conserves(s, Run(s, events))
    decreases |events|
  {
    if events != [] {
      StepConserves(s, events[0]);
      RunConserves(Step(s, events[0]), events[1..]);
    }
  }

  /** Wherever a run from a player without holds leaves them, one press gives back the map it started with. */
  lemma ReleaseRestores(s: State, events: seq<Event>)
    requires s.feeds.heldSystem.None? && s.feeds.heldTalkgroup.None? && KeepsFlags(events)
    ensures
      var s' := Run(s, events);
      && (s'.feeds.heldSystem.Some? ==> HeldSystem(s').feeds.live == s.feeds.live)
      && (s'.feeds.heldTalkgroup.Some? ==> HeldTalkgroup(s').feeds.live == s.feeds.live)
      && (s'.feeds.heldSystem.None? && s'.feeds.heldTalkgroup.None? ==> s'.feeds.live == s.feeds.live)
      && SameKeys(s'.feeds.live, s.feeds.live)
  {
    RunConserves(s, events);
    var s' := Run(s, events);
    HeldSystemConserves(s');
    HeldTalkgroupConserves(s');
    var base := s.feeds.live;
    if s'.feeds.heldSystem.Some? {
      var k :| s'.feeds.live == RestrictToSystem(base, k);
      HeldMapsKeepKeys(base, k, 0);
    } else if s'.feeds.heldTalkgroup.Some? {
      var k, t :| s'.feeds.live == OnlyTalkgroup(base, k, t);
      HeldMapsKeepKeys(base, k, t);
    }
  }
}
