/** What every event does to the flags of the live map, talkgroup by talkgroup. */
module PlayerFlags {
  import opened Feed
  import opened PlayerModel
  import opened PlayerFrames
  import opened PlayerDeck
  import C = Categories

  /** Everything else leaves flags, snapshots, configuration and statuses alone. */
  lemma OthersLeaveFeeds(s: State, e: Event)
    requires !e.LoadAndPlay? && !e.HoldSystem? && !e.HoldTalkgroup? && !e.Avoid? && !e.Toggle? && !e.NewConfig?
    requires !e.AvoidOver?
    ensures Step(s, e).feeds == s.feeds
  {
    hide Next, IndexOf, QueueCount;
    SkippedKeepsLive(s);
    match e {
      case ListReply(l) => NextKeepsFeeds(s.(walk := s.walk.(list := Some(l))));
      case DelayOver => NextKeepsFeeds(Undelayed(s));
      case _ =>
    }
  }

  lemma NextKeepsFeeds(s: State)
    ensures Next(s).feeds == s.feeds
  {
    hide IndexOf, QueueCount, ReleasedSystem, ReleasedTalkgroup, SystemReleaseThrows, TalkgroupReleaseThrows;
  }

  // ---- Avoiding ----

  /** The talkgroups an avoid is about. */
  predicate Addressed(s: State, options: AvoidOptions, sys: nat, tg: nat) {
    match options
    case All(_) => true
    case OfTalkgroup(a, b, _) => sys == a && tg == b
    case OfSystem(a, _) => sys == a
    case OfCurrent(_) => Current(s).Some? && sys == Current(s).value.system && tg == Current(s).value.talkgroup
  }

  /** The flag it gives: the one named, else the opposite. */
  function FlagGiven(options: AvoidOptions, was: bool): bool {
    match options
    case All(flag) => flag
    case OfTalkgroup(_, _, status) => if status.Some? then status.value else !was
    case OfSystem(_, status) => if status.Some? then status.value else !was
    case OfCurrent(status) => if status.Some? then status.value else !was
  }

  lemma CleanedFeeds(s: State)
    ensures Cleaned(s).feeds == s.feeds
  {
    hide Skipped, Kept;
    SkippedKeepsLive(s.(deck := s.deck.(queue := Kept(s.deck.queue, s.feeds.live, true)),
                        log := s.log.(dropped := s.log.dropped + Kept(s.deck.queue, s.feeds.live, false))));
  }

  /** An avoid gives up any hold and sets exactly the flags it is about; no talkgroup comes or goes. */
  lemma AvoidSets(s: State, options: AvoidOptions)
    ensures
      var f, m := Step(s, Avoid(options)).feeds, s.feeds.live;
      && f.heldSystem.None? && f.heldTalkgroup.None? && f.config == s.feeds.config
      && SameKeys(f.live, m)
      && forall sys, tg | Known(m, sys, tg) ::
           f.live[sys][tg] == if Addressed(s, options, sys, tg) then FlagGiven(options, m[sys][tg]) else m[sys][tg]
  {
    AvoidedFlags(s, options);
    AvoidedFeeds(s, options);
    hide AvoidedMap, Addressed, FlagGiven, Step;
  }

  lemma AvoidedFeeds(s: State, options: AvoidOptions)
    ensures
      var f := Step(s, Avoid(options)).feeds;
      && f.heldSystem.None? && f.heldTalkgroup.None? && f.config == s.feeds.config
      && f.live == if AvoidedMap(s, options).Some? then AvoidedMap(s, options).value else s.feeds.live
  {
    hide AvoidedMap, Cleaned, Announced;
    if AvoidedMap(s, options).Some? {
      var s1 := s.(feeds := s.feeds.(heldSystem := None, heldTalkgroup := None));
      var s2 := WithLive(s1, AvoidedMap(s, options).value);
      CleanedFeeds(s2);
      AnnouncedFrame(s2);
      AnnouncedFrame(Cleaned(s2));
    }
  }

  lemma AvoidedFlags(s: State, options: AvoidOptions)
    ensures
      var m := s.feeds.live;
      match AvoidedMap(s, options)
      case None => forall sys, tg | Known(m, sys, tg) :: !Addressed(s, options, sys, tg)
      case Some(m') =>
        && SameKeys(m', m)
        && forall sys, tg | Known(m, sys, tg) ::
             m'[sys][tg] == if Addressed(s, options, sys, tg) then FlagGiven(options, m[sys][tg]) else m[sys][tg]
  {
  }

  /** The timer of an avoid makes its one talkgroup active again, unless something is held. */
  lemma TimerSets(s: State, sys: nat, tg: nat)
    ensures
      var f, m := Step(s, AvoidOver(sys, tg)).feeds, s.feeds.live;
      && SameKeys(f.live, m)
      && forall a, b | Known(m, a, b) ::
           f.live[a][b] == if a == sys && b == tg && s.feeds.heldSystem.None? && s.feeds.heldTalkgroup.None? then true
                           else m[a][b]
  {
    if Known(s.feeds.live, sys, tg) {
      var m := Set(s.feeds.live, sys, tg, true);
      hide Rebuilt;
      AnnouncedFrame(WithLive(s, m));
    }
  }

  // ---- Holding ----

  /** The map a hold starts from: what another hold has put aside, else the live map. */
  function Base(other: Option<FeedMap>, live: FeedMap): FeedMap {
    if other.Some? then other.value else live
  }

  /** Holding a system, of the current or else the previous call, leaves active what was active in that system and puts
      the map it starts from aside; holding it again gives that map back. */
  lemma HoldSystemSets(s: State)
    requires Current(s).Some? && !TalkgroupReleaseThrows(s)
    ensures
      var f, base := Step(s, HoldSystem).feeds, Base(s.feeds.heldTalkgroup, s.feeds.live);
      if s.feeds.heldSystem.Some? then f.live == s.feeds.heldSystem.value && f.heldSystem == None
      else
        && f.heldSystem == Some(base) && f.heldTalkgroup == None && SameKeys(f.live, base)
        && forall a, b :: Flag(f.live, a, b) <==> a == Current(s).value.system && Flag(base, a, b)
  {
    hide Cleaned, Announced, CleaningThrows, Rebuilt, TalkgroupReleaseThrows;
    if s.feeds.heldSystem.Some? {
      AnnouncedFrame(s.(feeds := s.feeds.(live := s.feeds.heldSystem.value, heldSystem := None)));
    } else {
      var s1, c := ReleasedTalkgroup(s), Current(s).value;
      AnnouncedFrame(s.(feeds := s.feeds.(live := Base(s.feeds.heldTalkgroup, s.feeds.live), heldTalkgroup := None)));
      var s2 := WithSystemHeld(s1, c.system);
      HeldMapsKeepKeys(s1.feeds.live, c.system, c.talkgroup);
      CleanedFeeds(s2);
      AnnouncedFrame(Cleaned(s2));
    }
  }

  /** Likewise for a talkgroup, which becomes the only active one. */
  lemma HoldTalkgroupSets(s: State)
    requires Current(s).Some? && !SystemReleaseThrows(s)
    ensures
      var f, base, c := Step(s, HoldTalkgroup).feeds, Base(s.feeds.heldSystem, s.feeds.live), Current(s).value;
      if s.feeds.heldTalkgroup.Some? then f.live == s.feeds.heldTalkgroup.value && f.heldTalkgroup == None
      else
        && f.heldTalkgroup == Some(base) && f.heldSystem == None && SameKeys(f.live, base)
        && forall a, b :: Flag(f.live, a, b) <==> a == c.system && b == c.talkgroup && Known(base, a, b)
  {
    hide Cleaned, Announced, CleaningThrows, Rebuilt, SystemReleaseThrows;
    if s.feeds.heldTalkgroup.Some? {
      AnnouncedFrame(s.(feeds := s.feeds.(live := s.feeds.heldTalkgroup.value, heldTalkgroup := None)));
    } else {
      var s1, c := ReleasedSystem(s), Current(s).value;
      AnnouncedFrame(s.(feeds := s.feeds.(live := Base(s.feeds.heldSystem, s.feeds.live), heldSystem := None)));
      var s2 := WithTalkgroupHeld(s1, c.system, c.talkgroup);
      HeldMapsKeepKeys(s1.feeds.live, c.system, c.talkgroup);
      CleanedFeeds(s2);
      AnnouncedFrame(Cleaned(s2));
    }
  }

  /** Going to playback from offline gives up a hold, and asking for a call in any other mode leaves the maps alone. */
  lemma RequestReleases(s: State, id: nat)
    requires s.feeds.heldSystem.None? || s.feeds.heldTalkgroup.None?
    ensures
      var f := Step(s, LoadAndPlay(id)).feeds;
      if id == 0 || s.mode != Offline || Current(s).None? then f == s.feeds
      else
        && f.heldSystem == None && f.heldTalkgroup == None
        && f.live == Base(s.feeds.heldSystem, Base(s.feeds.heldTalkgroup, s.feeds.live))
  {
    hide Rebuilt, RebuildThrows;
    var s2 := Freed(s, id);
    AnnouncedFrame(s2.(feeds := s2.feeds.(live := Base(s.feeds.heldSystem, s.feeds.live), heldSystem := None)));
    AnnouncedFrame(s2.(feeds := s2.feeds.(live := Base(s.feeds.heldTalkgroup, s.feeds.live), heldTalkgroup := None)));
  }

  // ---- Configurations ----

  lemma ConfiguredFeeds(s: State, config: C.Config)
    ensures
      var f, m := Step(s, NewConfig(config)).feeds, RebuiltLive(s, config);
      && f.config == config
      && f.heldSystem == (if s.feeds.heldSystem.Some? then Some(m) else None)
      && f.heldTalkgroup == (if s.feeds.heldTalkgroup.Some? && s.feeds.heldSystem.None? then Some(m)
                             else s.feeds.heldTalkgroup)
      && f.live == if s.feeds.heldSystem.None? && s.feeds.heldTalkgroup.None? then m else s.feeds.live
  {
    hide Announced, RebuiltLive;
    AnnouncedFrame(WithConfig(s, config));
  }

  /** A configuration keeps the flag of every talkgroup the live map knows, makes a new one active unless its group or
      tag is shown as off, and forgets the others; while something is held all that happens to the snapshot. */
  lemma ConfigurationSets(s: State, config: C.Config, c: C.SystemConfig, t: C.TalkgroupConfig)
    requires C.DistinctTalkgroups(config.systems) && c in config.systems && t in c.talkgroups
    ensures
      var f := Step(s, NewConfig(config)).feeds;
      var held := s.feeds.heldSystem.Some? || s.feeds.heldTalkgroup.Some?;
      var m := if s.feeds.heldSystem.Some? && f.heldSystem.Some? then f.heldSystem.value
               else if s.feeds.heldTalkgroup.Some? && f.heldTalkgroup.Some? then f.heldTalkgroup.value
               else f.live;
      && f.config == config && (held ==> f.live == s.feeds.live)
      && (f.heldSystem.Some? <==> s.feeds.heldSystem.Some?) && (f.heldTalkgroup.Some? <==> s.feeds.heldTalkgroup.Some?)
      && Known(m, c.id, t.id)
      && (if Known(s.feeds.live, c.id, t.id) then m[c.id][t.id] == s.feeds.live[c.id][t.id]
          else C.StartsAs(s.feeds.groups, s.feeds.tags, t, m[c.id][t.id]))
      && forall a, b | Known(m, a, b) :: C.NamesTalkgroup(config.systems, a, b)
  {
    ConfiguredFeeds(s, config);
    hide Step, C.RebuildMap, C.StartsAs, C.DistinctTalkgroups;
    C.RebuildCoversConfig(config.systems, s.feeds.live, s.feeds.groups, s.feeds.tags);
    if !Known(s.feeds.live, c.id, t.id) {
      C.RebuildDefaults(config.systems, s.feeds.live, s.feeds.groups, s.feeds.tags, c, t);
    }
  }
}
