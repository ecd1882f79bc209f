/** The category statuses shown by the player, over every run. */
module PlayerCategories {
  import opened Feed
  import opened PlayerModel
  import opened PlayerFrames
  import opened PlayerHolds
  import C = Categories

  /** The statuses shown are those of the live map. */
  predicate Fresh(f: Feeds) {
    f.groups == C.Statuses(f.config.groups, f.live) &&
    f.tags == if f.config.tagsToggle then C.Statuses(f.config.tags, f.live) else map[]
  }

  // ---- Maps that toggling and recomputing can read ----

  /** No configured talkgroup is missing from the map, and no listed one from a system that the map has. */
  predicate Readable(c: C.Config, m: FeedMap) {
    C.Covers(m, c.systems) && !C.Lacks(c.groups, m) && (c.tagsToggle ==> !C.Lacks(c.tags, m))
  }

  /** At most one snapshot, and the live map and the snapshot can be read. */
  predicate Indexed(f: Feeds) {
    && Readable(f.config, f.live)
    && (f.heldSystem.Some? ==> Readable(f.config, f.heldSystem.value))
    && (f.heldTalkgroup.Some? ==> Readable(f.config, f.heldTalkgroup.value))
    && !(f.heldSystem.Some? && f.heldTalkgroup.Some?)
  }

  /** The indexes list configured talkgroups only, as those the server sends do. */
  predicate Honest(c: C.Config) {
    C.Sound(c.groups, c.systems, C.Group) && C.Sound(c.tags, c.systems, C.Tag)
  }

  predicate HonestEvent(e: Event) {
    e.NewConfig? ==> Honest(e.config)
  }

  /** A configuration that lists a talkgroup unknown to the live map arrives while something is held: the rebuilt map
      becomes the snapshot, and the live map goes on without the talkgroup. */
  predicate Upsets(s: State, e: Event) {
    e.NewConfig? && (s.feeds.heldSystem.Some? || s.feeds.heldTalkgroup.Some?) && !Readable(e.config, s.feeds.live)
  }

  /** Setting a hold skips the current call onto an empty page, which throws before the statuses are recomputed. */
  predicate Interrupted(s: State, e: Event) {
    && Current(s).Some?
    && ((e.HoldSystem? && s.feeds.heldSystem.None? &&
         CleaningThrows(WithSystemHeld(ReleasedTalkgroup(s), Current(s).value.system))) ||
        (e.HoldTalkgroup? && s.feeds.heldTalkgroup.None? &&
         CleaningThrows(WithTalkgroupHeld(ReleasedSystem(s), Current(s).value.system, Current(s).value.talkgroup))))
  }

  lemma ReadableKeys(c: C.Config, m: FeedMap, m': FeedMap)
    requires SameKeys(m, m')
    ensures Readable(c, m) <==> Readable(c, m')
  {
  }

  lemma ReadableDoesNotThrow(f: Feeds)
    requires Readable(f.config, f.live)
    ensures !RebuildThrows(f) && !C.IndexThrows(f.config.groups, f.live)
  {
    hide C.Lacks, C.IndexThrows;
    C.NothingLackedNothingThrown(f.config.groups, f.live);
    if f.config.tagsToggle {
      C.NothingLackedNothingThrown(f.config.tags, f.live);
    }
  }

  /** A map rebuilt for an honest configuration can be read. */
  lemma RebuiltReadable(s: State, c: C.Config)
    requires Honest(c)
    ensures Readable(c, RebuiltLive(s, c))
  {
    C.RebuildCoversConfig(c.systems, s.feeds.live, s.feeds.groups, s.feeds.tags);
    var m := RebuiltLive(s, c);
    assert C.Covers(m, c.systems);
    hide RebuiltLive, C.Covers, C.Sound, C.Lacks;
    SoundIsReadable(c.groups, c.systems, C.Group, m);
    SoundIsReadable(c.tags, c.systems, C.Tag, m);
  }

  lemma SoundIsReadable(index: C.Index, systems: seq<C.SystemConfig>, kind: C.Kind, m: FeedMap)
    requires C.Sound(index, systems, kind) && C.Covers(m, systems)
    ensures !C.Lacks(index, m)
  {
  }

  // ---- Single steps ----

  lemma AnnouncedFresh(s: State)
    requires Readable(s.feeds.config, s.feeds.live)
    ensures Fresh(Rebuilt(s).feeds) && Fresh(Announced(s).feeds)
  {
    ReadableDoesNotThrow(s.feeds);
    hide C.IndexThrows, C.Lacks;
  }

  lemma AnnouncedIndexed(s: State)
    ensures Indexed(Rebuilt(s).feeds) <==> Indexed(s.feeds)
    ensures Indexed(Announced(s).feeds) <==> Indexed(s.feeds)
  {
    hide Rebuilt, Announced, Readable;
    AnnouncedFrame(s);
  }

  ghost predicate Settled(s: State) {
    Indexed(s.feeds) && Fresh(s.feeds)
  }

  lemma ReleasedSettled(s: State)
    requires Settled(s)
    ensures Settled(ReleasedSystem(s)) && Settled(ReleasedTalkgroup(s))
    ensures !SystemReleaseThrows(s) && !TalkgroupReleaseThrows(s)
  {
    hide Readable, Rebuilt, Announced, Fresh, RebuildThrows;
    if s.feeds.heldSystem.Some? {
      var s' := s.(feeds := s.feeds.(live := s.feeds.heldSystem.value, heldSystem := None));
      AnnouncedFresh(s');
      AnnouncedIndexed(s');
      ReadableDoesNotThrow(s.feeds.(live := s.feeds.heldSystem.value));
    }
    if s.feeds.heldTalkgroup.Some? {
      var s' := s.(feeds := s.feeds.(live := s.feeds.heldTalkgroup.value, heldTalkgroup := None));
      AnnouncedFresh(s');
      AnnouncedIndexed(s');
      ReadableDoesNotThrow(s.feeds.(live := s.feeds.heldTalkgroup.value));
    }
  }

  lemma RequestedSettled(s: State, id: nat)
    requires Settled(s)
    ensures Settled(Requested(s, id))
  {
    hide Indexed, Fresh, ReleasedSystem, ReleasedTalkgroup, SystemReleaseThrows, TalkgroupReleaseThrows;
    ReleasedSettled(Freed(s, id));
    ReleasedSettled(ReleasedSystem(Freed(s, id)));
  }

  lemma CleanedIndexed(s: State)
    requires Indexed(s.feeds)
    ensures Indexed(HoldSettled(s).feeds) && (!CleaningThrows(s) ==> Fresh(HoldSettled(s).feeds))
    ensures Indexed(AfterAvoid(s).feeds) && Fresh(AfterAvoid(s).feeds)
  {
    hide Readable, Cleaned, Announced, CleaningThrows, Fresh;
    CleanedSameHold(s);
    AnnouncedIndexed(s);
    AnnouncedIndexed(Cleaned(s));
    AnnouncedFresh(s);
    AnnouncedFresh(Cleaned(s));
  }

  lemma HeldSystemSettles(s: State)
    requires Settled(s)
    ensures Indexed(HeldSystem(s).feeds) && (!Interrupted(s, HoldSystem) ==> Fresh(HeldSystem(s).feeds))
  {
    hide Readable, Fresh, HoldSettled, Announced, ReleasedTalkgroup, TalkgroupReleaseThrows, RestrictToSystem,
         CleaningThrows;
    if Current(s).Some? {
      if s.feeds.heldSystem.Some? {
        var s' := s.(feeds := s.feeds.(live := s.feeds.heldSystem.value, heldSystem := None));
        AnnouncedIndexed(s');
        AnnouncedFresh(s');
      } else {
        var sys := Current(s).value.system;
        var s1 := ReleasedTalkgroup(s);
        ReleasedSettled(s);
        ReleasedFrame(s);
        ReleasedNone(s);
        HeldMapsKeepKeys(s1.feeds.live, sys, 0);
        ReadableKeys(s.feeds.config, s1.feeds.live, RestrictToSystem(s1.feeds.live, sys));
        CleanedIndexed(WithSystemHeld(s1, sys));
      }
    }
  }

  lemma ReleasedNone(s: State)
    requires Current(s).Some?
    ensures ReleasedSystem(s).feeds.heldSystem == None && ReleasedTalkgroup(s).feeds.heldTalkgroup == None
  {
    hide C.IndexThrows, C.Statuses;
  }

  lemma HeldTalkgroupSettles(s: State)
    requires Settled(s)
    ensures Indexed(HeldTalkgroup(s).feeds) && (!Interrupted(s, HoldTalkgroup) ==> Fresh(HeldTalkgroup(s).feeds))
  {
    hide Readable, Fresh, HoldSettled, Announced, ReleasedSystem, SystemReleaseThrows, OnlyTalkgroup, CleaningThrows;
    if Current(s).Some? {
      if s.feeds.heldTalkgroup.Some? {
        var s' := s.(feeds := s.feeds.(live := s.feeds.heldTalkgroup.value, heldTalkgroup := None));
        AnnouncedIndexed(s');
        AnnouncedFresh(s');
      } else {
        var c := Current(s).value;
        var s1 := ReleasedSystem(s);
        ReleasedSettled(s);
        ReleasedFrame(s);
        ReleasedNone(s);
        HeldMapsKeepKeys(s1.feeds.live, c.system, c.talkgroup);
        ReadableKeys(s.feeds.config, s1.feeds.live, OnlyTalkgroup(s1.feeds.live, c.system, c.talkgroup));
        CleanedIndexed(WithTalkgroupHeld(s1, c.system, c.talkgroup));
      }
    }
  }

  lemma AvoidedKeys(s: State, o: AvoidOptions)
    ensures AvoidedMap(s, o).Some? ==> SameKeys(s.feeds.live, AvoidedMap(s, o).value)
  {
  }

  lemma AvoidedSettles(s: State, o: AvoidOptions)
    requires Settled(s)
    ensures Settled(Avoided(s, o))
  {
    AvoidedKeys(s, o);
    hide Readable, AfterAvoid, AvoidedMap;
    if AvoidedMap(s, o).Some? {
      var m := AvoidedMap(s, o).value;
      ReadableKeys(s.feeds.config, s.feeds.live, m);
      CleanedIndexed(WithLive(s.(feeds := s.feeds.(heldSystem := None, heldTalkgroup := None)), m));
    }
  }

  /** On a readable map a toggle runs to its end: exactly the talkgroups carrying the label are set. */
  lemma ScanRuns(s: State, c: C.Category)
    requires Readable(s.feeds.config, s.feeds.live)
    ensures
      var m := C.Toggled(s.feeds.config.systems, c.kind, c.name, c.status != C.On, s.feeds.live);
      ScanOf(s, c) == C.Scan(m, false) && SameKeys(s.feeds.live, m) && Readable(s.feeds.config, m)
  {
    var systems, live, flag := s.feeds.config.systems, s.feeds.live, c.status != C.On;
    C.CoveredIsSettable(systems, c.kind, c.name, live);
    C.ScanIsToggle(systems, c.kind, c.name, flag, live);
    var m := C.Toggled(systems, c.kind, c.name, flag, live);
    assert ScanOf(s, c) == C.Scan(m, false) && SameKeys(live, m);
    hide ScanOf, C.Toggled, C.ScanSystems, C.Settable;
    ReadableKeys(s.feeds.config, live, m);
  }

  lemma SwitchedSettles(s: State, c: C.Category)
    requires Settled(s)
    ensures Settled(Switched(s, c)) && Switched(s, c).feeds.config == s.feeds.config
    ensures Switched(s, c).feeds.live ==
              C.Toggled(s.feeds.config.systems, c.kind, c.name, c.status != C.On, s.feeds.live)
  {
    ScanRuns(s, c);
    var s1 := s.(feeds := s.feeds.(heldSystem := None, heldTalkgroup := None, live := ScanOf(s, c).live));
    hide C.Toggled, ScanOf, Readable, Cleaned, Rebuilt, Resubscribed, Fresh, RebuildThrows;
    ReadableDoesNotThrow(s1.feeds);
    AnnouncedFresh(s1);
    AnnouncedIndexed(s1);
    AnnouncedFrame(s1);
    AnnouncedFrame(Rebuilt(s1));
    CleanedSameHold(Resubscribed(Rebuilt(s1)));
  }

  /** A configuration settles unless it names what the held live map lacks. */
  lemma ConfiguredSettles(s: State, c: C.Config)
    requires Settled(s) && Honest(c)
    ensures Indexed(Configured(s, c).feeds) <==> !Upsets(s, NewConfig(c))
    ensures !Upsets(s, NewConfig(c)) ==> Fresh(Configured(s, c).feeds)
  {
    RebuiltReadable(s, c);
    hide Readable, RebuiltLive, Honest, Announced, Fresh;
    AnnouncedIndexed(WithConfig(s, c));
    if Readable(c, WithConfig(s, c).feeds.live) {
      AnnouncedFresh(WithConfig(s, c));
    }
  }

  lemma UnavoidedSettles(s: State, sys: nat, tg: nat)
    requires Settled(s)
    ensures Settled(Unavoided(s, sys, tg))
  {
    if Known(s.feeds.live, sys, tg) {
      var m := Set(s.feeds.live, sys, tg, true);
      assert SameKeys(s.feeds.live, m);
      hide Readable, Rebuilt, Fresh, Set;
      ReadableKeys(s.feeds.config, s.feeds.live, m);
      AnnouncedIndexed(WithLive(s, m));
      AnnouncedFresh(WithLive(s, m));
    }
  }

  // ---- Runs ----

  /** Every step keeps the maps readable, except for a configuration that arrives during a hold and names what the held
      live map lacks; and it keeps the shown statuses those of the live map, unless setting a hold is interrupted. */
  lemma StepSettles(s: State, e: Event)
    requires Settled(s) && HonestEvent(e)
    ensures Indexed(Step(s, e).feeds) <==> !Upsets(s, e)
    ensures !Upsets(s, e) && !Interrupted(s, e) ==> Fresh(Step(s, e).feeds)
  {
    hide Fresh, Indexed, Honest, Readable, Interrupted, Resumed, Next, Played, PlayedCall, Enqueued, WentLive, Stopped,
         LeftPlayback, HeldSystem, HeldTalkgroup, Avoided, Switched, Configured, Unavoided, Requested;
    StoppingSameHold(s);
    match e {
      case LiveCall(c) => QueueingSameHold(s, c);
      case PlayReply(c) =>
        QueueingSameHold(s, c);
        QueueingSameHold(s.(walk := s.walk.(pending := None)), c);
      case Pause(status) => PlayedSameHold(WithPause(s, false));
      case PlayCall(c) => QueueingSameHold(s, c);
      case Replay =>
        PlayedSameHold(s);
        if Current(s).Some? { QueueingSameHold(s, Current(s).value); }
      case ListReply(l) => NextSameHold(s.(walk := s.walk.(list := Some(l))));
      case DecodeFailed => ResumedSameHold(Undelayed(Halted(s)));
      case Skip => ResumedSameHold(Undelayed(Halted(s)));
      case DelayOver => ResumedSameHold(Undelayed(s));
      case LoadAndPlay(id) => RequestedSettled(s, id);
      case HoldSystem => HeldSystemSettles(s);
      case HoldTalkgroup => HeldTalkgroupSettles(s);
      case Avoid(o) => AvoidedSettles(s, o);
      case Toggle(c) => SwitchedSettles(s, c);
      case NewConfig(config) => ConfiguredSettles(s, config);
      case AvoidOver(sys, tg) => UnavoidedSettles(s, sys, tg);
      case _ =>
    }
  }

  /** A run of honest configurations in which none upsets a hold and no hold is interrupted. */
  predicate Calm(s: State, events: seq<Event>)
    decreases |events|
  {
    events == [] ||
    (HonestEvent(events[0]) && !Upsets(s, events[0]) && !Interrupted(s, events[0]) &&
     Calm(Step(s, events[0]), events[1..]))
  }

  lemma InitialSettled(s: State)
    requires Initial(s) && s.feeds.config == C.Config([], map[], map[], false, false) &&
               s.feeds.groups == s.feeds.tags == map[]
    ensures Settled(s)
  {
  }

  /** Over every calm run the statuses shown describe the live map. */
  lemma {:induction false} RunFresh(s: State, events: seq<Event>)
    requires Settled(s) && Calm(s, events)
    ensures Settled(Run(s, events))
    decreases |events|
  {
    hide Settled, Upsets, Interrupted, HonestEvent;
    if events != [] {
      StepKeepsSettled(s, events[0]);
      RunFresh(Step(s, events[0]), events[1..]);
    }
  }

  lemma StepKeepsSettled(s: State, e: Event)
    requires Settled(s) && HonestEvent(e) && !Upsets(s, e) && !Interrupted(s, e)
    ensures Settled(Step(s, e))
  {
    hide Step, Indexed, Fresh, Upsets, Interrupted, HonestEvent;
    StepSettles(s, e);
  }

  // ---- Toggling what is shown ----

  function IndexOfKind(c: C.Config, kind: C.Kind): C.Index {
    match kind
    case Group => c.groups
    case Tag => c.tags
  }

  function ShownOfKind(f: Feeds, kind: C.Kind): map<string, C.Status> {
    match kind
    case Group => f.groups
    case Tag => f.tags
  }

  /** Toggling a shown category, of either kind, turns the shown status to Off if it was On, else to On; with one entry
      per talkgroup every other category of that kind keeps the status it showed. */
  lemma ToggleShown(s: State, kind: C.Kind, name: string, other: string)
    requires Settled(s)
    requires C.Exact(IndexOfKind(s.feeds.config, kind), s.feeds.config.systems, kind)
    requires name in ShownOfKind(s.feeds, kind)
    ensures
      var was := ShownOfKind(s.feeds, kind)[name];
      var shown := ShownOfKind(Step(s, Toggle(C.Category(name, was, kind))).feeds, kind);
      && name in shown && shown[name] == (if was == C.On then C.Off else C.On)
      && (C.DistinctTalkgroups(s.feeds.config.systems) && other in ShownOfKind(s.feeds, kind) && other != name ==>
            other in shown && shown[other] == ShownOfKind(s.feeds, kind)[other])
  {
    hide Switched, C.Toggled, C.StatusOf, C.Exact, C.DistinctTalkgroups, C.Lacks;
    var was := ShownOfKind(s.feeds, kind)[name];
    var index, systems := IndexOfKind(s.feeds.config, kind), s.feeds.config.systems;
    SwitchedSettles(s, C.Category(name, was, kind));
    C.ToggleSettlesStatus(index, systems, kind, name, s.feeds.live);
    if C.DistinctTalkgroups(systems) && other in index && other != name {
      C.ToggleKeepsOtherStatus(index, systems, kind, name, other, was != C.On, s.feeds.live);
    }
  }

  // ---- A configuration that arrives during a hold ----

  /** One talkgroup, active and shown as On, while its system is held. */
  function HoldExample(): State {
    var config := C.Config([C.SystemConfig(1, [C.TalkgroupConfig(1, "G", "T")])], map["G" := map[1 := [1]]],
                           map["T" := map[1 := [1]]], false, false);
    State(Online, Deck(false, None, Some(Call(7, 1, 1, [])), [], false, false), Walk(None, false, None),
          Feeds(ExampleMap(), Some(ExampleMap()), None, config, map["G" := C.On], map[]),
          [LivefeedMap(Some(ExampleMap()))], Log([], [], [], []))
  }

  /** The same configuration with a second talkgroup. */
  function MoreExample(): C.Config {
    C.Config([C.SystemConfig(1, [C.TalkgroupConfig(1, "G", "T"), C.TalkgroupConfig(2, "G", "T")])],
             map["G" := map[1 := [1, 2]]], map["T" := map[1 := [1, 2]]], false, false)
  }

  function ExampleMap(): FeedMap {
    map[1 := map[1 := true]]
  }

  lemma ExampleThrows()
    ensures C.IndexThrows(MoreExample().groups, ExampleMap())
    ensures C.StatusOf(MoreExample().groups["G"], ExampleMap()) == C.Partial
  {
    var entry := MoreExample().groups["G"];
    assert entry[1][0] == 1 && entry[1][1] == 2 && C.ThrowsAt(entry, ExampleMap(), 1, 1);
    assert 1 in entry[1] && 2 in entry[1];
  }

  lemma ExampleSettled()
    ensures Settled(HoldExample()) && C.StatusOf(HoldExample().feeds.config.groups["G"], ExampleMap()) == C.On
  {
    var entry := HoldExample().feeds.config.groups["G"];
    assert entry[1] == [1] && 1 in entry[1];
    assert forall s, t | s in entry && t in entry[s] :: s == 1 && t == 1;
  }

  lemma ExampleHonest()
    ensures Honest(MoreExample())
  {
    var systems := MoreExample().systems;
    var a, b := systems[0].talkgroups[0], systems[0].talkgroups[1];
    assert systems[0] in systems && a in systems[0].talkgroups && b in systems[0].talkgroups;
    forall t: nat | t in [1, 2]
      ensures C.Carries(systems, C.Group, "G", 1, t) && C.Carries(systems, C.Tag, "T", 1, t)
    {
      var u := if t == 1 then a else b;
      assert u in systems[0].talkgroups && u.id == t && C.LabelOf(C.Group, u) == "G" && C.LabelOf(C.Tag, u) == "T";
    }
    PairSound("G", systems, C.Group);
    PairSound("T", systems, C.Tag);
  }

  lemma PairSound(name: string, systems: seq<C.SystemConfig>, kind: C.Kind)
    requires C.Carries(systems, kind, name, 1, 1) && C.Carries(systems, kind, name, 1, 2)
    ensures C.Sound(map[name := map[1 := [1, 2]]], systems, kind)
  {
    hide C.Carries;
    var entry: map<nat, seq<nat>> := map[1 := [1, 2]];
    assert 1 in entry && entry != map[] && C.NoDuplicates(entry[1]);
  }

  /** What an exception in recomputing leaves of a new configuration: the old statuses, and nobody is told. */
  lemma ThrownConfig(s: State, c: C.Config)
    requires s.feeds.heldSystem.Some? && C.IndexThrows(c.groups, s.feeds.live)
    ensures
      var s' := Step(s, NewConfig(c));
      && s'.feeds == s.feeds.(config := c, heldSystem := Some(RebuiltLive(s, c)))
      && s'.outbox == s.outbox && s'.mode == s.mode && s'.deck == s.deck
  {
  }

  /** The system is held, and a configuration with a new talkgroup arrives: recomputing throws, and the old status On
      stays on show, although by the live map the group is On in part only. */
  lemma StaleAfterHold()
    ensures Settled(HoldExample()) && Honest(MoreExample()) && Upsets(HoldExample(), NewConfig(MoreExample()))
    ensures
      var f := Step(HoldExample(), NewConfig(MoreExample())).feeds;
      && f.live == ExampleMap() && f.groups == map["G" := C.On]
      && "G" in f.config.groups && C.StatusOf(f.config.groups["G"], f.live) == C.Partial
      && !Fresh(f)
  {
    ExampleSettled();
    ExampleHonest();
    ExampleThrows();
    var c := MoreExample();
    assert "G" in c.groups;
    ThrownConfig(HoldExample(), c);
    ReadableOrThrows(HoldExample(), c);
    hide MoreExample, C.StatusOf, C.IndexThrows, RebuiltLive, Settled, Honest, Step, Readable;
  }

  lemma ReadableOrThrows(s: State, c: C.Config)
    requires C.IndexThrows(c.groups, s.feeds.live)
    ensures !Readable(c, s.feeds.live)
  {
    if !C.Lacks(c.groups, s.feeds.live) {
      C.NothingLackedNothingThrown(c.groups, s.feeds.live);
    }
  }
}
