/** What the server was last told against what the player plays live, and exactly which steps let them drift apart. */
module LivefeedAgreement {
  import opened Feed
  import opened PlayerModel
  import opened PlayerCategories
  import opened PlayerFrames
  import C = Categories

  /** The map in the last map message; none before the first one, and none after a stop. */
  function LastMap(outbox: seq<Message>): Option<FeedMap> {
    if outbox == [] then None
    else
      var m := outbox[|outbox| - 1];
      if m.LivefeedMap? then m.feed else LastMap(outbox[..|outbox| - 1])
  }

  /** The server was last told the live map while the player is online, and nothing otherwise. */
  predicate Agrees(s: State) {
    LastMap(s.outbox) == if s.mode == Online then Some(s.feeds.live) else None
  }

  /** The map is another one than the live map, and recomputing the statuses for it throws. */
  predicate Untold(s: State, m: FeedMap) {
    m != s.feeds.live && RebuildThrows(s.feeds.(live := m))
  }

  /** The snapshot a hold of the other kind gives back before a hold is set, or the live map. */
  function BaseOf(snapshot: Option<FeedMap>, live: FeedMap): FeedMap {
    if snapshot.Some? then snapshot.value else live
  }

  /** The steps, all while online, that change what plays live without telling the server. An avoid timer never tells
      it; leaving playback mode gives up the live feed unannounced; and the others tell it only after they have
      recomputed the statuses, so when that throws, or the scan of a toggle does, a changed map stays untold. */
  predicate Drifts(s: State, e: Event) {
    s.mode == Online &&
    match e
    case StopPlayback => true
    case AvoidOver(sys, tg) =>
      s.feeds.heldSystem.None? && s.feeds.heldTalkgroup.None? && Known(s.feeds.live, sys, tg) && !s.feeds.live[sys][tg]
    case Avoid(options) => AvoidedMap(s, options).Some? && Untold(s, AvoidedMap(s, options).value)
    case NewConfig(c) =>
      s.feeds.heldSystem.None? && s.feeds.heldTalkgroup.None? &&
      Untold(s.(feeds := s.feeds.(config := c)), RebuiltLive(s, c))
    case Toggle(c) =>
      var r := ScanOf(s, c);
      r.live != s.feeds.live &&
      (r.stopped || RebuildThrows(s.feeds.(live := r.live)) ||
       (s.deck.call.Some? && s.deck.call.value.system !in r.live))
    case HoldSystem =>
      Current(s).Some? &&
      if s.feeds.heldSystem.Some? then Untold(s, s.feeds.heldSystem.value)
      else
        var base := BaseOf(s.feeds.heldTalkgroup, s.feeds.live);
        if TalkgroupReleaseThrows(s) then base != s.feeds.live
        else Untold(s, RestrictToSystem(base, Current(s).value.system))
    case HoldTalkgroup =>
      Current(s).Some? &&
      if s.feeds.heldTalkgroup.Some? then Untold(s, s.feeds.heldTalkgroup.value)
      else
        var base := BaseOf(s.feeds.heldSystem, s.feeds.live);
        if SystemReleaseThrows(s) then base != s.feeds.live
        else Untold(s, OnlyTalkgroup(base, Current(s).value.system, Current(s).value.talkgroup))
    case _ => false
  }

  ghost predicate Steady(s: State, s': State) {
    s.outbox <= s'.outbox && (Agrees(s) ==> Agrees(s'))
  }

  lemma SendSteady(s: State, m: Message)
    ensures s.outbox <= Send(s, m).outbox
    ensures m.LivefeedMap? ==> LastMap(Send(s, m).outbox) == m.feed
    ensures !m.LivefeedMap? ==> LastMap(Send(s, m).outbox) == LastMap(s.outbox)
  {
  }

  lemma ModesAgree(s: State)
    ensures s.outbox <= WentLive(s).outbox && Agrees(WentLive(s))
    ensures s.outbox <= Stopped(s).outbox && Agrees(Stopped(s))
    ensures LeftPlayback(s).outbox == s.outbox && (Agrees(s) ==> (Agrees(LeftPlayback(s)) <==> s.mode != Online))
    ensures s.outbox <= Resubscribed(s).outbox
  {
  }

  lemma RequestedSteady(s: State, id: nat)
    ensures Steady(s, Requested(s, id))
  {
    var s2 := Freed(s, id);
    var s3 := ReleasedSystem(s2);
    ReleasedFrame(s2);
    ReleasedFrame(s3);
    SendSteady(s2, GetCall(id));
    SendSteady(ReleasedTalkgroup(s3), GetCall(id));
    hide LastMap, ReleasedSystem, ReleasedTalkgroup, SystemReleaseThrows, TalkgroupReleaseThrows;
  }

  lemma NextSteady(s: State)
    ensures Steady(s, Next(s))
  {
    hide QueueCount, LastMap, Requested, WentLive, LeftPlayback;
    ModesAgree(s);
    ModesAgree(LeftPlayback(s));
    if s.walk.list.Some? {
      var l := s.walk.list.value;
      SendSteady(s.(walk := s.walk.(refreshing := true)), ListCalls(l.options));
      if l.options.offset >= l.options.limit {
        SendSteady(s, ListCalls(l.options.(offset := l.options.offset - l.options.limit)));
      }
      SendSteady(s, ListCalls(l.options.(offset := l.options.offset + l.options.limit)));
      forall id: nat ensures Steady(s, Requested(s, id)) {
        RequestedSteady(s, id);
      }
    }
  }

  /** Nothing that the server is told, the mode or the live map depends on has changed. */
  ghost predicate SameFeed(s: State, s': State) {
    s'.mode == s.mode && s'.feeds.live == s.feeds.live && s'.outbox == s.outbox
  }

  lemma PlayingSameFeed(s: State, c: Call)
    ensures SameFeed(s, Played(s)) && SameFeed(s, PlayedCall(s, c))
    ensures SameFeed(s, Enqueued(s, c, true)) && SameFeed(s, Enqueued(s, c, false))
  {
  }

  lemma SkippedSteady(s: State)
    ensures Steady(s, Skipped(s))
    ensures s.mode != Playback ==> SameFeed(s, Skipped(s))
  {
    hide Next, QueueCount, LastMap;
    NextSteady(Undelayed(Halted(s)));
  }

  lemma CleanedSteady(s: State)
    ensures Steady(s, Cleaned(s))
    ensures s.mode != Playback ==> SameFeed(s, Cleaned(s))
  {
    hide Skipped, Kept, LastMap;
    SkippedSteady(s.(deck := s.deck.(queue := Kept(s.deck.queue, s.feeds.live, true)),
                     log := s.log.(dropped := s.log.dropped + Kept(s.deck.queue, s.feeds.live, false))));
  }

  /** The outcome of a step that takes over map m: in agreement, unless it is online and the map untold. */
  ghost predicate Takes(s: State, s': State, untold: bool) {
    s.outbox <= s'.outbox && (Agrees(s) ==> (Agrees(s') <==> !(s.mode == Online && untold)))
  }

  lemma AnnouncedTakes(s: State, s': State)
    requires s'.mode == s.mode && s'.outbox == s.outbox
    ensures Takes(s, Announced(s'), s'.feeds.live != s.feeds.live && RebuildThrows(s'.feeds))
    ensures Steady(s', Announced(s'))
  {
    hide LastMap, Rebuilt, RebuildThrows;
    AnnouncedFrame(s');
    ModesAgree(Rebuilt(s'));
  }

  lemma SettledTakes(s: State, s': State)
    requires s'.mode == s.mode && s'.outbox == s.outbox
    ensures Takes(s, HoldSettled(s'), s'.feeds.live != s.feeds.live && RebuildThrows(s'.feeds))
    ensures Takes(s, AfterAvoid(s'), s'.feeds.live != s.feeds.live && RebuildThrows(s'.feeds))
  {
    CleanedSteady(s');
    CleanedConfig(s');
    hide LastMap, Cleaned, Announced, RebuildThrows;
    AnnouncedTakes(s, s');
    AnnouncedTakes(Cleaned(s'), Cleaned(s'));
    if s.mode != Playback {
      AnnouncedTakes(s, Cleaned(s'));
    }
  }

  lemma CleanedConfig(s: State)
    ensures s.mode != Playback ==> Cleaned(s).feeds == s.feeds
  {
    hide QueueCount, Kept;
  }

  lemma HeldSystemTakes(s: State)
    ensures Takes(s, HeldSystem(s), Drifts(s.(mode := Online), HoldSystem))
  {
    hide LastMap, HoldSettled, Announced, ReleasedTalkgroup, RestrictToSystem, RebuildThrows;
    if Current(s).Some? {
      if s.feeds.heldSystem.Some? {
        AnnouncedTakes(s, s.(feeds := s.feeds.(live := s.feeds.heldSystem.value, heldSystem := None)));
        var m := s.feeds.heldSystem.value;
        SameThrows(s.feeds.(live := m), s.feeds.(heldSystem := None, live := m));
      } else {
        var s1 := ReleasedTalkgroup(s);
        ReleasedFrame(s);
        ReleasedLive(s);
        var s2 := WithSystemHeld(s1, Current(s).value.system);
        SettledTakes(s, s2);
        SameThrows(s.feeds.(live := s2.feeds.live), s2.feeds);
      }
    }
  }

  lemma HeldTalkgroupTakes(s: State)
    ensures Takes(s, HeldTalkgroup(s), Drifts(s.(mode := Online), HoldTalkgroup))
  {
    hide LastMap, HoldSettled, Announced, ReleasedSystem, OnlyTalkgroup, RebuildThrows;
    if Current(s).Some? {
      if s.feeds.heldTalkgroup.Some? {
        AnnouncedTakes(s, s.(feeds := s.feeds.(live := s.feeds.heldTalkgroup.value, heldTalkgroup := None)));
        var m := s.feeds.heldTalkgroup.value;
        SameThrows(s.feeds.(live := m), s.feeds.(heldTalkgroup := None, live := m));
      } else {
        var s1 := ReleasedSystem(s);
        ReleasedFrame(s);
        ReleasedLive(s);
        var s2 := WithTalkgroupHeld(s1, Current(s).value.system, Current(s).value.talkgroup);
        SettledTakes(s, s2);
        SameThrows(s.feeds.(live := s2.feeds.live), s2.feeds);
      }
    }
  }

  lemma ReleasedLive(s: State)
    requires Current(s).Some?
    ensures ReleasedTalkgroup(s).feeds.live == BaseOf(s.feeds.heldTalkgroup, s.feeds.live)
    ensures ReleasedSystem(s).feeds.live == BaseOf(s.feeds.heldSystem, s.feeds.live)
  {
    hide C.IndexThrows, C.Statuses;
  }

  lemma AvoidingTakes(s: State, options: AvoidOptions)
    ensures Takes(s, Avoided(s, options), Drifts(s.(mode := Online), Avoid(options)))
  {
    SameAvoid(s, options);
    hide LastMap, AfterAvoid, HoldSettled, AvoidedMap, RebuildThrows;
    if AvoidedMap(s, options).Some? {
      var s1 := WithLive(s.(feeds := s.feeds.(heldSystem := None, heldTalkgroup := None)),
                         AvoidedMap(s, options).value);
      SettledTakes(s, s1);
      SameThrows(s.feeds.(live := s1.feeds.live), s1.feeds);
    }
  }

  lemma SameAvoid(s: State, options: AvoidOptions)
    ensures AvoidedMap(s.(mode := Online), options) == AvoidedMap(s, options)
  {
  }

  lemma SwitchingTakes(s: State, c: C.Category)
    ensures Takes(s, Switched(s, c), Drifts(s.(mode := Online), Toggle(c)))
  {
    var s1 := s.(feeds := s.feeds.(heldSystem := None, heldTalkgroup := None, live := ScanOf(s, c).live));
    hide LastMap, ScanOf, Rebuilt, Resubscribed, Cleaned, RebuildThrows;
    SameThrows(s.feeds.(live := s1.feeds.live), s1.feeds);
    AnnouncedFrame(s1);
    ModesAgree(Rebuilt(s1));
    var s3 := Resubscribed(Rebuilt(s1));
    ResubscribedAgrees(s, Rebuilt(s1));
    CleanedSteady(s3);
  }

  lemma ResubscribedAgrees(s: State, s': State)
    requires s'.mode == s.mode && s'.outbox == s.outbox
    ensures Steady(s, Resubscribed(s'))
  {
    ModesAgree(s');
    hide LastMap;
  }

  lemma UnavoidingTakes(s: State, sys: nat, tg: nat)
    ensures Takes(s, Unavoided(s, sys, tg), Drifts(s.(mode := Online), AvoidOver(sys, tg)))
  {
    hide LastMap, Rebuilt;
    if Known(s.feeds.live, sys, tg) {
      var live := s.feeds.live;
      AnnouncedFrame(WithLive(s, Set(live, sys, tg, true)));
      if live[sys][tg] {
        var row: map<nat, bool> := live[sys][tg := true];
        assert row == live[sys];
        assert Set(live, sys, tg, true) == live;
      } else {
        assert Set(live, sys, tg, true)[sys][tg];
      }
    }
  }

  lemma ConfiguringTakes(s: State, c: C.Config)
    ensures Takes(s, Configured(s, c), Drifts(s.(mode := Online), NewConfig(c)))
  {
    hide LastMap, RebuiltLive, Announced, RebuildThrows;
    var s1 := WithConfig(s, c);
    AnnouncedTakes(s, s1);
    SameRebuild(s, c);
    SameThrows(s.feeds.(config := c).(live := s1.feeds.live), s1.feeds);
  }

  lemma SameRebuild(s: State, c: C.Config)
    ensures RebuiltLive(s.(mode := Online), c) == RebuiltLive(s, c)
  {
  }

  predicate IsPlaying(e: Event) {
    || e.LiveCall? || e.PlayReply? || e.ListReply? || e.Decoded? || e.DecodeFailed? || e.Ended? || e.DelayOver? ||
         e.Pause?
    || e.PlayCall? || e.Replay? || e.Skip? || e.Stop? || e.LoadAndPlay? || e.Search?
  }

  lemma PlayingAgrees(s: State, e: Event)
    requires IsPlaying(e)
    ensures s.outbox <= Step(s, e).outbox
    ensures Agrees(s) ==> (Agrees(Step(s, e)) <==> !Drifts(s, e))
  {
    hide LastMap, Next, Played, PlayedCall, Enqueued, Skipped, Requested, Resumed, ScanOf, AvoidedMap, RebuiltLive,
         RebuildThrows;
    match e {
      case LiveCall(c) => PlayingSameFeed(s, c);
      case PlayReply(c) =>
        PlayingSameFeed(s, c);
        PlayingSameFeed(s.(walk := s.walk.(pending := None)), c);
      case ListReply(l) => NextSteady(s.(walk := s.walk.(list := Some(l))));
      case DecodeFailed => SkippedSteady(s);
      case DelayOver => ResumedSteady(Undelayed(s));
      case Pause(status) => PlayingSameFeed(WithPause(s, false), Call(0, 0, 0, []));
      case PlayCall(c) => PlayingSameFeed(s, c);
      case Replay => PlayingSameFeed(s, if Current(s).Some? then Current(s).value else Call(0, 0, 0, []));
      case Skip => SkippedSteady(s);
      case LoadAndPlay(id) => RequestedSteady(s, id);
      case Search(query) => SendSteady(s, ListCalls(query));
      case _ =>
    }
  }

  /** Exactly what makes them drift: from agreement, every step keeps the two in agreement unless it is one of those. */
  lemma StepAgrees(s: State, e: Event)
    ensures s.outbox <= Step(s, e).outbox
    ensures Agrees(s) ==> (Agrees(Step(s, e)) <==> !Drifts(s, e))
  {
    if IsPlaying(e) {
      PlayingAgrees(s, e);
    } else {
      hide LastMap, WentLive, Stopped, LeftPlayback, HeldSystem, HeldTalkgroup, Avoided, Switched, Configured,
           Unavoided,
           ScanOf, AvoidedMap, RebuiltLive, RebuildThrows;
      assert s.mode == Online ==> s.(mode := Online) == s;
      match e {
        case NewConfig(config) => ConfiguringTakes(s, config);
        case AvoidOver(sys, tg) => UnavoidingTakes(s, sys, tg);
        case HoldSystem => HeldSystemTakes(s);
        case HoldTalkgroup => HeldTalkgroupTakes(s);
        case Livefeed => ModesAgree(s);
        case StartLivefeed => ModesAgree(s);
        case StopLivefeed => ModesAgree(s);
        case StopPlayback => ModesAgree(s);
        case Avoid(options) => AvoidingTakes(s, options);
        case Toggle(category) => SwitchingTakes(s, category);
      }
    }
  }

  lemma ResumedSteady(s: State)
    ensures Steady(s, Resumed(s))
  {
    hide Next, QueueCount, LastMap;
    NextSteady(s);
  }

  ghost predicate DriftsIn(s: State, events: seq<Event>)
    decreases |events|
  {
    events != [] && (Drifts(s, events[0]) || DriftsIn(Step(s, events[0]), events[1..]))
  }

  /** Over every run that never drifts, the server was last told exactly what the player plays live. */
  lemma {:induction false} RunAgrees(s: State, events: seq<Event>)
    requires Agrees(s)
    ensures s.outbox <= Run(s, events).outbox
    ensures !DriftsIn(s, events) ==> Agrees(Run(s, events))
    decreases |events|
  {
    if events != [] {
      StepAgrees(s, events[0]);
      hide Step, Drifts, Agrees;
      RunSendsMore(Step(s, events[0]), events[1..]);
      if !Drifts(s, events[0]) {
        RunAgrees(Step(s, events[0]), events[1..]);
      }
    }
  }

  lemma {:induction false} RunSendsMore(s: State, events: seq<Event>)
    ensures s.outbox <= Run(s, events).outbox
    decreases |events|
  {
    if events != [] {
      StepAgrees(s, events[0]);
      hide Step;
      RunSendsMore(Step(s, events[0]), events[1..]);
    }
  }

  // ---- While the maps can be read ----

  /** With readable maps and honest configurations nothing throws, and three ways to drift are left: an avoid timer that
      reactivates a talkgroup, leaving playback while online, and a toggle that changes a flag while the current call's
      system is unknown. */
  lemma SettledDrifts(s: State, e: Event)
    requires Settled(s) && HonestEvent(e) && s.mode == Online
    ensures Drifts(s, e) <==>
      match e
      case StopPlayback => true
      case AvoidOver(sys, tg) =>
        s.feeds.heldSystem.None? && s.feeds.heldTalkgroup.None? && Known(s.feeds.live, sys, tg) &&
          !s.feeds.live[sys][tg]
      case Toggle(c) =>
        s.deck.call.Some? && s.deck.call.value.system !in s.feeds.live && ScanOf(s, c).live != s.feeds.live
      case _ => false
  {
    hide C.Toggled, RebuildThrows, Readable, Fresh, Honest, AvoidedMap, RebuiltLive, ScanOf, RestrictToSystem,
         OnlyTalkgroup;
    match e {
      case Avoid(o) => AvoidReadable(s, o);
      case NewConfig(c) =>
        RebuiltReadable(s, c);
        ReadableDoesNotThrow(s.feeds.(config := c, live := RebuiltLive(s, c)));
      case Toggle(c) =>
        ScanRuns(s, c);
        ReadableDoesNotThrow(s.feeds.(live := ScanOf(s, c).live));
      case HoldSystem => HoldReadable(s);
      case HoldTalkgroup => HoldReadable(s);
      case _ =>
    }
  }

  lemma AvoidReadable(s: State, o: AvoidOptions)
    requires Settled(s)
    ensures AvoidedMap(s, o).Some? ==> !RebuildThrows(s.feeds.(live := AvoidedMap(s, o).value))
  {
    AvoidedKeys(s, o);
    hide AvoidedMap, RebuildThrows, Readable, Fresh;
    if AvoidedMap(s, o).Some? {
      var m := AvoidedMap(s, o).value;
      ReadableKeys(s.feeds.config, s.feeds.live, m);
      ReadableDoesNotThrow(s.feeds.(live := m));
    }
  }

  lemma HoldReadable(s: State)
    requires Settled(s)
    ensures !SystemReleaseThrows(s) && !TalkgroupReleaseThrows(s)
    ensures s.feeds.heldSystem.Some? ==> !RebuildThrows(s.feeds.(live := s.feeds.heldSystem.value))
    ensures s.feeds.heldTalkgroup.Some? ==> !RebuildThrows(s.feeds.(live := s.feeds.heldTalkgroup.value))
    ensures Current(s).Some? ==>
      var c := Current(s).value;
      && !RebuildThrows(s.feeds.(live := RestrictToSystem(BaseOf(s.feeds.heldTalkgroup, s.feeds.live), c.system)))
      && var base := BaseOf(s.feeds.heldSystem, s.feeds.live);
         !RebuildThrows(s.feeds.(live := OnlyTalkgroup(base, c.system, c.talkgroup)))
  {
    hide RebuildThrows, Readable, Fresh, RestrictToSystem, OnlyTalkgroup;
    ReleasedSettled(s);
    var a, b := BaseOf(s.feeds.heldTalkgroup, s.feeds.live), BaseOf(s.feeds.heldSystem, s.feeds.live);
    ReadableDoesNotThrow(s.feeds.(live := a));
    ReadableDoesNotThrow(s.feeds.(live := b));
    if Current(s).Some? {
      var c := Current(s).value;
      HeldMapsKeepKeys(a, c.system, c.talkgroup);
      HeldMapsKeepKeys(b, c.system, c.talkgroup);
      ReadableKeys(s.feeds.config, a, RestrictToSystem(a, c.system));
      ReadableKeys(s.feeds.config, b, OnlyTalkgroup(b, c.system, c.talkgroup));
      ReadableDoesNotThrow(s.feeds.(live := RestrictToSystem(a, c.system)));
      ReadableDoesNotThrow(s.feeds.(live := OnlyTalkgroup(b, c.system, c.talkgroup)));
    }
  }

  function OffExample(): FeedMap {
    map[1 := map[1 := false]]
  }

  lemma OffThrows()
    ensures C.IndexThrows(MoreExample().groups, OffExample())
    ensures AllSet(ExampleMap(), false) == OffExample() && OffExample() != ExampleMap()
  {
    var m := OffExample();
    var entry := MoreExample().groups["G"];
    assert entry[1][0] == 1 && entry[1][1] == 2 && C.ThrowsAt(entry, m, 1, 1);
    assert AllSet(ExampleMap(), false)[1] == m[1];
    assert m[1][1] != ExampleMap()[1][1];
  }

  lemma AllOffDrifts(s: State)
    requires s.mode == Online && AllSet(s.feeds.live, false) != s.feeds.live
    requires C.IndexThrows(s.feeds.config.groups, AllSet(s.feeds.live, false))
    ensures Drifts(s, Avoid(All(false)))
  {
  }

  /** After a configuration that names a new talkgroup has arrived during a hold, switching everything off is not told
      to the server, which goes on with the old map. */
  lemma StaleMapStays()
    ensures
      var s := Step(HoldExample(), NewConfig(MoreExample()));
      Agrees(HoldExample()) && Agrees(s) && Drifts(s, Avoid(All(false))) && !Agrees(Step(s, Avoid(All(false))))
  {
    ExampleAgrees();
    ExampleThrows();
    OffThrows();
    ThrownConfig(HoldExample(), MoreExample());
    assert HoldExample().mode == Online && HoldExample().feeds.live == ExampleMap();
    hide Step, HoldExample, MoreExample, C.IndexThrows, Drifts, AllSet, ExampleMap, OffExample, Agrees;
    var s := Step(HoldExample(), NewConfig(MoreExample()));
    AllOffDrifts(s);
    StepAgrees(HoldExample(), NewConfig(MoreExample()));
    StepAgrees(s, Avoid(All(false)));
  }

  lemma ExampleAgrees()
    ensures Agrees(HoldExample()) && !Drifts(HoldExample(), NewConfig(MoreExample()))
  {
    hide MoreExample, ExampleMap;
  }
}
