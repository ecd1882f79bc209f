/** The law of the deck: for every event, which call begins, what waits afterwards, and what became of the call
    before. */
module PlayerDeck {
  import opened Feed
  import opened PlayerModel
  import opened PlayerFrames
  import opened PlayerRuns
  import C = Categories

  // ---- Terms ----

  predicate NoneBegins(s: State, s': State) {
    s'.log.started == s.log.started
  }

  /** A call begins, announced with what is still to come: results in playback, else waiting calls. */
  predicate Begins(s: State, s': State, c: Call) {
    s'.log.started == s.log.started + [Started(c.id, if s'.mode == Playback then QueueCount(s') else |s'.deck.queue|)]
  }

  /** From this deck the first of these waiting calls begins if it may, and the others wait in their order. */
  predicate HeadBegins(d: Deck, q: seq<Entry>, may: bool, s: State, s': State) {
    if may && q != [] then s'.deck == d.(queue := q[1..], call := Some(q[0].call)) && Begins(s, s', q[0].call)
    else s'.deck == d.(queue := q) && NoneBegins(s, s')
  }

  predicate Unmoved(s: State, s': State) {
    s'.deck == s.deck && NoneBegins(s, s')
  }

  predicate MayPlay(d: Deck) {
    d.call.None? && !d.paused && !d.delay
  }

  /** The deck without its call, which counts as the previous one from now on. */
  function GivenUp(s: State): Deck {
    s.deck.(audio := false, call := None, previous := Current(s))
  }

  /** In playback the walk decides what to ask for, and nothing begins by itself; leaving playback drops what waits. */
  predicate Walks(d: Deck, q: seq<Entry>, s: State, s': State) {
    NoneBegins(s, s') && (s'.deck == d.(queue := q) || (s'.deck == d.(queue := []) && s'.mode != Playback))
  }

  /** From this deck what comes next begins. */
  predicate GoesOn(d: Deck, q: seq<Entry>, s: State, s': State) {
    if s.mode == Playback then Walks(d, q, s, s') else HeadBegins(d, q, MayPlay(d), s, s')
  }

  /** Unwanted calls stop waiting, and an unwanted current call is skipped. */
  predicate Cleans(s: State, s': State) {
    var q := Kept(s.deck.queue, s'.feeds.live, true);
    if s.deck.call.Some? && !IsActive(s'.feeds.live, s.deck.call.value) then
      GoesOn(GivenUp(s).(delay := false), q, s, s')
    else s'.deck == s.deck.(queue := q) && NoneBegins(s, s')
  }

  /** When a change of the live map gets as far as cleaning the queue. */
  predicate GetsToCleaning(s: State, e: Event) {
    match e
    case Avoid(options) => s.mode != Playback && AvoidedMap(s, options).Some?
    case HoldSystem => Current(s).Some? && s.feeds.heldSystem.None? && !TalkgroupReleaseThrows(s)
    case HoldTalkgroup => Current(s).Some? && s.feeds.heldTalkgroup.None? && !SystemReleaseThrows(s)
    case Toggle(c) =>
      var m := ScanOf(s, c).live;
      && !ScanOf(s, c).stopped && !RebuildThrows(s.feeds.(live := m))
      && (s.deck.call.Some? ==> s.deck.call.value.system in m)
    case _ => false
  }

  /** A live call waits behind the others, an awaited one in front of them. */
  function Joined(s: State, e: Event): seq<Entry>
    requires e.LiveCall? || e.PlayReply?
  {
    if e.PlayReply? && s.walk.pending == Some(e.call.id) then [Entry(e.call, PRIORITY)] + s.deck.queue
    else s.deck.queue + [Entry(e.call, |s.log.arrivals|)]
  }

  /** A given call begins at once in place of the current one, unless the deck is paused or rests. */
  predicate PlaysGiven(s: State, c: Call, s': State) {
    if s.deck.paused || s.deck.delay then Unmoved(s, s')
    else
      && s'.deck == (if s.deck.call.Some? then GivenUp(s) else s.deck).(call := Some(c))
      && Begins(s, s', c)
  }

  // ---- The law, by what an event touches ----

  predicate AudioLaw(s: State, e: Event, s': State)
    requires OfAudio(e)
  {
    match e
    case LiveCall(c) => Joins(s, e, s')
    case PlayReply(c) => Joins(s, e, s')
    case Decoded => s'.deck == s.deck.(audio := s.deck.call.Some?) && NoneBegins(s, s')
    case Ended => NoneBegins(s, s') && s'.deck == if s.deck.audio then GivenUp(s).(delay := true) else s.deck
    case Pause(status) =>
      var d := s.deck.(paused := status);
      HeadBegins(d, d.queue, MayPlay(d), s, s')
    case PlayCall(c) => PlaysGiven(s, c, s')
    case Replay =>
      if Current(s).Some? then PlaysGiven(s, Current(s).value, s')
      else HeadBegins(s.deck, s.deck.queue, MayPlay(s.deck), s, s')
    case Stop => s'.deck == GivenUp(s) && NoneBegins(s, s')
  }

  /** Offline a call is passed over; else it joins the queue, whose first call begins on a free deck. */
  predicate Joins(s: State, e: Event, s': State)
    requires e.LiveCall? || e.PlayReply?
  {
    if s.mode == Offline then Unmoved(s, s') else HeadBegins(s.deck, Joined(s, e), MayPlay(s.deck), s, s')
  }

  predicate WalkLaw(s: State, e: Event, s': State)
    requires OfWalk(e)
  {
    match e
    case DecodeFailed => GoesOn(GivenUp(s).(delay := false), s.deck.queue, s, s')
    case Skip => GoesOn(GivenUp(s).(delay := false), s.deck.queue, s, s')
    case DelayOver => if s.deck.delay then GoesOn(s.deck.(delay := false), s.deck.queue, s, s') else Unmoved(s, s')
    case LoadAndPlay(id) => NoneBegins(s, s') && s'.deck == if id == 0 then s.deck else GivenUp(s).(delay := false)
    case ListReply(l) =>
      && NoneBegins(s, s') && s'.deck == s.deck.(delay := s'.deck.delay, queue := s'.deck.queue)
      && (s'.deck.queue == s.deck.queue || (s'.deck.queue == [] && s.mode == Playback && s'.mode != Playback))
    case Search(_) => Unmoved(s, s')
  }

  predicate ModeLaw(s: State, e: Event, s': State)
    requires OfMode(e)
  {
    NoneBegins(s, s') &&
    s'.deck == if e.StartLivefeed? || (e.Livefeed? && s.mode == Offline) then s.deck else GivenUp(s).(queue := [])
  }

  predicate FeedLaw(s: State, e: Event, s': State) {
    if GetsToCleaning(s, e) then Cleans(s, s') else Unmoved(s, s')
  }

  predicate DeckLaw(s: State, e: Event, s': State) {
    if OfAudio(e) then AudioLaw(s, e, s')
    else if OfWalk(e) then WalkLaw(s, e, s')
    else if OfMode(e) then ModeLaw(s, e, s')
    else FeedLaw(s, e, s')
  }

  // ---- Every step obeys it ----

  lemma PlayedLaw(s: State)
    ensures HeadBegins(s.deck, s.deck.queue, MayPlay(s.deck), s, Played(s))
    ensures Played(s).mode == s.mode
  {
    CountIgnoresLog(Played(s), s.log);
    if MayPlay(s.deck) && s.deck.queue != [] {
      var first := s.deck.queue[0];
      var s1 := s.(deck := s.deck.(queue := s.deck.queue[1..], call := Some(first.call)));
      CountIgnoresLog(s1, s.log.(taken := s.log.taken + [first]));
      CountIgnoresLog(s1, Played(s).log);
      hide QueueCount;
      assert Played(s) == s1.(log := Played(s).log);
    }
  }

  /** What is shown to come depends on the deck and the walk only. */
  lemma CountIgnoresLog(s: State, log: Log)
    ensures QueueCount(s.(log := log)) == QueueCount(s)
  {
  }

  lemma PlayedCallLaw(s: State, c: Call)
    ensures PlaysGiven(s, c, PlayedCall(s, c))
  {
    if !s.deck.paused && !s.deck.delay {
      var s1 := s.(deck := (if s.deck.call.Some? then GivenUp(s) else s.deck).(call := Some(c)));
      CountIgnoresLog(s1, PlayedCall(s, c).log);
      hide QueueCount;
      assert PlayedCall(s, c) == s1.(log := PlayedCall(s, c).log);
    }
  }

  lemma JoinsLaw(s: State, e: Event)
    requires Sane(s) && (e.LiveCall? || e.PlayReply?)
    ensures Joins(s, e, Step(s, e))
  {
    var s1 := if e.PlayReply? && s.walk.pending == Some(e.call.id) then s.(walk := s.walk.(pending := None)) else s;
    var s2 := if s1 != s then s1.(deck := s.deck.(queue := Joined(s, e)))
              else s.(deck := s.deck.(queue := Joined(s, e)), log := s.log.(arrivals := s.log.arrivals + [e.call]));
    hide QueueCount, Played;
    PlayedLaw(s2);
  }

  lemma AudioObeys(s: State, e: Event)
    requires Sane(s) && OfAudio(e)
    ensures AudioLaw(s, e, Step(s, e))
  {
    hide QueueCount, Played, PlayedCall, Enqueued, Joins;
    match e {
      case LiveCall(c) => JoinsLaw(s, e);
      case PlayReply(c) => JoinsLaw(s, e);
      case Pause(status) => PlayedLaw(WithPause(s, false));
      case PlayCall(c) => PlayedCallLaw(s, c);
      case Replay =>
        PlayedLaw(s);
        if Current(s).Some? { PlayedCallLaw(s, Current(s).value); }
      case _ =>
    }
  }

  lemma RequestedDeck(s: State, id: nat)
    ensures Requested(s, id).log == s.log
    ensures Requested(s, id).deck == if id == 0 then s.deck else GivenUp(s).(delay := false)
  {
    hide ReleasedSystem, ReleasedTalkgroup, SystemReleaseThrows, TalkgroupReleaseThrows;
    ReleasedFrame(Freed(s, id));
    ReleasedFrame(ReleasedSystem(Freed(s, id)));
  }

  lemma NextDeck(s: State)
    requires Sane(s)
    ensures Next(s).log.started == s.log.started
    ensures s.deck.call.Some? || s.mode != Playback ==> Next(s) == s
    ensures s.deck.call.None? ==>
              Next(s).deck == s.deck || Next(s).deck == s.deck.(delay := false) ||
              (Next(s).deck == s.deck.(queue := []) && Next(s).mode != Playback && s.mode == Playback)
  {
    hide Requested, IndexOf;
    forall id: nat { RequestedDeck(s, id); }
  }

  lemma ResumedLaw(s: State)
    requires Sane(s) && !s.deck.delay
    ensures GoesOn(s.deck, s.deck.queue, s, Resumed(s))
  {
    hide Next, Played, QueueCount;
    if s.mode == Playback { NextDeck(s); } else { PlayedLaw(s); }
  }

  lemma SkippedLaw(s: State)
    requires Sane(s)
    ensures GoesOn(GivenUp(s).(delay := false), s.deck.queue, s, Skipped(s))
  {
    hide Resumed, QueueCount;
    ResumedLaw(Undelayed(Halted(s)));
  }

  lemma WalkObeys(s: State, e: Event)
    requires Sane(s) && OfWalk(e)
    ensures WalkLaw(s, e, Step(s, e))
  {
    hide Next, Requested, Skipped, Resumed, GoesOn, QueueCount;
    match e {
      case DecodeFailed => SkippedLaw(s);
      case Skip => SkippedLaw(s);
      case DelayOver => DelayOverLaw(s);
      case LoadAndPlay(id) => RequestedDeck(s, id);
      case ListReply(l) => NextDeck(s.(walk := s.walk.(list := Some(l))));
      case Search(_) =>
    }
  }

  lemma DelayOverLaw(s: State)
    requires Sane(s)
    ensures s.deck.delay ==> GoesOn(s.deck.(delay := false), s.deck.queue, s, Resumed(Undelayed(s)))
  {
    hide Resumed, QueueCount;
    ResumedLaw(Undelayed(s));
  }

  lemma ModeObeys(s: State, e: Event)
    requires OfMode(e)
    ensures ModeLaw(s, e, Step(s, e))
  {
  }

  // ---- Changes of the live map ----

  lemma CleanedLaw(s: State)
    requires Sane(s)
    ensures Cleans(s, Cleaned(s)) && Cleaned(s).feeds.live == s.feeds.live
  {
    hide Skipped, GoesOn, QueueCount;
    var s1 := s.(deck := s.deck.(queue := Kept(s.deck.queue, s.feeds.live, true)),
                 log := s.log.(dropped := s.log.dropped + Kept(s.deck.queue, s.feeds.live, false)));
    SkippedLaw(s1);
    SkippedKeepsLive(s1);
    if s.deck.call.Some? { GoesOnFrom(s, s1, GivenUp(s).(delay := false), s1.deck.queue, Skipped(s1)); }
  }

  /** Where it goes on depends on mode and deck, and on what had begun before. */
  lemma GoesOnFrom(s: State, s1: State, d: Deck, q: seq<Entry>, s': State)
    requires s1.mode == s.mode && s1.log.started == s.log.started
    requires GoesOn(d.(queue := q), q, s1, s')
    ensures GoesOn(d, q, s, s')
  {
    hide QueueCount;
  }

  lemma SkippedKeepsLive(s: State)
    ensures Skipped(s).feeds == s.feeds
  {
    hide IndexOf, QueueCount, ReleasedSystem, ReleasedTalkgroup, SystemReleaseThrows, TalkgroupReleaseThrows;
  }

  /** Statuses and messages make no difference to what is cleaned. */
  lemma CleansFrom(s: State, s1: State, s2: State, s': State)
    requires s1.mode == s.mode && s1.deck == s.deck && s1.log == s.log && Cleans(s1, s2)
    requires s'.mode == s2.mode && s'.deck == s2.deck && s'.walk == s2.walk && s'.log == s2.log
    requires s'.feeds.live == s2.feeds.live
    ensures Cleans(s, s')
  {
    CountIgnoresRest(s2, s');
    hide QueueCount, IsActive, Kept;
  }

  lemma CountIgnoresRest(s: State, s': State)
    requires s'.deck == s.deck && s'.walk == s.walk
    ensures QueueCount(s') == QueueCount(s)
  {
  }

  lemma HoldSettledLaw(s: State, s1: State)
    requires Sane(s1) && s1.mode == s.mode && s1.deck == s.deck && s1.log == s.log
    ensures Cleans(s, HoldSettled(s1))
  {
    hide Cleaned, Announced, CleaningThrows, Cleans;
    CleanedLaw(s1);
    AnnouncedFrame(Cleaned(s1));
    CleansFrom(s, s1, Cleaned(s1), HoldSettled(s1));
  }

  lemma HeldSystemLaw(s: State)
    requires Sane(s)
    ensures FeedLaw(s, HoldSystem, HeldSystem(s))
  {
    hide HoldSettled, Announced, ReleasedTalkgroup, TalkgroupReleaseThrows, RestrictToSystem, Cleans;
    ReleasedFrame(s);
    if s.feeds.heldSystem.Some? {
      AnnouncedFrame(s.(feeds := s.feeds.(live := s.feeds.heldSystem.value, heldSystem := None)));
    } else if Current(s).Some? {
      HoldSettledLaw(s, WithSystemHeld(ReleasedTalkgroup(s), Current(s).value.system));
    }
  }

  lemma HeldTalkgroupLaw(s: State)
    requires Sane(s)
    ensures FeedLaw(s, HoldTalkgroup, HeldTalkgroup(s))
  {
    hide HoldSettled, Announced, ReleasedSystem, SystemReleaseThrows, OnlyTalkgroup, Cleans;
    ReleasedFrame(s);
    if s.feeds.heldTalkgroup.Some? {
      AnnouncedFrame(s.(feeds := s.feeds.(live := s.feeds.heldTalkgroup.value, heldTalkgroup := None)));
    } else if Current(s).Some? {
      HoldSettledLaw(s, WithTalkgroupHeld(ReleasedSystem(s), Current(s).value.system, Current(s).value.talkgroup));
    }
  }

  lemma AvoidedLaw(s: State, options: AvoidOptions)
    requires Sane(s)
    ensures FeedLaw(s, Avoid(options), Avoided(s, options))
  {
    hide AvoidedMap, Cleaned, Announced, Cleans;
    if AvoidedMap(s, options).Some? {
      var s1 := WithLive(s.(feeds := s.feeds.(heldSystem := None, heldTalkgroup := None)),
                         AvoidedMap(s, options).value);
      if s.mode == Playback {
        AnnouncedFrame(s1);
      } else {
        CleanedLaw(s1);
        AnnouncedFrame(Cleaned(s1));
        CleansFrom(s, s1, Cleaned(s1), Avoided(s, options));
      }
    }
  }

  lemma SwitchedLaw(s: State, c: C.Category)
    requires Sane(s)
    ensures FeedLaw(s, Toggle(c), Switched(s, c))
  {
    hide ScanOf, Cleaned, Rebuilt, Resubscribed, RebuildThrows, Cleans;
    var s1 := s.(feeds := s.feeds.(heldSystem := None, heldTalkgroup := None, live := ScanOf(s, c).live));
    SameThrows(s1.feeds, s.feeds.(live := ScanOf(s, c).live));
    AnnouncedFrame(s1);
    AnnouncedFrame(Rebuilt(s1));
    if GetsToCleaning(s, Toggle(c)) {
      var s2 := Resubscribed(Rebuilt(s1));
      CleanedLaw(s2);
      CleansFrom(s, s2, Cleaned(s2), Switched(s, c));
    }
  }

  lemma FeedObeys(s: State, e: Event)
    requires Sane(s) && !OfAudio(e) && !OfWalk(e) && !OfMode(e)
    ensures FeedLaw(s, e, Step(s, e))
  {
    hide FeedLaw, HeldSystem, HeldTalkgroup, Avoided, Switched, Configured, Unavoided;
    match e {
      case HoldSystem => HeldSystemLaw(s);
      case HoldTalkgroup => HeldTalkgroupLaw(s);
      case Avoid(options) => AvoidedLaw(s, options);
      case Toggle(category) => SwitchedLaw(s, category);
      case NewConfig(config) => QuietLaw(s, e);
      case AvoidOver(sys, tg) => QuietLaw(s, e);
    }
  }

  lemma QuietLaw(s: State, e: Event)
    requires e.NewConfig? || e.AvoidOver?
    ensures FeedLaw(s, e, Step(s, e))
  {
    hide Announced, Rebuilt, RebuiltLive;
    if e.NewConfig? {
      AnnouncedFrame(WithConfig(s, e.config));
    } else if Known(s.feeds.live, e.sys, e.tg) {
      AnnouncedFrame(WithLive(s, Set(s.feeds.live, e.sys, e.tg, true)));
    }
  }

  /** Every event moves the deck exactly as the law says. */
  lemma StepObeys(s: State, e: Event)
    requires Sane(s)
    ensures DeckLaw(s, e, Step(s, e))
  {
    hide Step, AudioLaw, WalkLaw, ModeLaw, FeedLaw;
    if OfAudio(e) {
      AudioObeys(s, e);
    } else if OfWalk(e) {
      WalkObeys(s, e);
    } else if OfMode(e) {
      ModeObeys(s, e);
    } else {
      FeedObeys(s, e);
    }
  }

  // ---- What it means for the listener ----

  /** While the deck is paused nothing begins, whatever happens, until the pause ends. */
  lemma PausedBeginsNothing(s: State, e: Event)
    requires Sane(s) && s.deck.paused && e != Pause(false)
    ensures Step(s, e).log.started == s.log.started && Step(s, e).deck.paused
  {
    hide Step, QueueCount, Kept, IsActive, GetsToCleaning;
    StepObeys(s, e);
  }

  /** While the delay after a call runs nothing begins unless the delay ends or the listener or a changed map ends it.
      */
  lemma DelayedBeginsNothing(s: State, e: Event)
    requires Sane(s) && s.deck.delay && !e.DelayOver? && !e.Skip? && !e.DecodeFailed?
    ensures Step(s, e).log.started == s.log.started
  {
    hide Step, QueueCount, Kept, IsActive, GetsToCleaning;
    StepObeys(s, e);
  }

  /** A call asked for and delivered begins at once on a free deck; on any other it is the next to begin. The calls that
      wait are left as they are. */
  lemma AwaitedComesNext(s: State, c: Call)
    requires Sane(s) && s.mode != Offline && s.walk.pending == Some(c.id)
    ensures
      var s' := Step(s, PlayReply(c));
      if MayPlay(s.deck) then s'.deck.call == Some(c) && s'.deck.queue == s.deck.queue
      else s'.deck == s.deck.(queue := [Entry(c, PRIORITY)] + s.deck.queue)
  {
    hide Step, QueueCount, AudioLaw, WalkLaw, ModeLaw, FeedLaw;
    StepObeys(s, PlayReply(c));
    JoinsOf(s, PlayReply(c), Step(s, PlayReply(c)));
  }

  lemma JoinsOf(s: State, e: Event, s': State)
    requires (e.LiveCall? || e.PlayReply?) && DeckLaw(s, e, s')
    ensures Joins(s, e, s')
  {
    hide Joins;
  }

  /** Skipping the current call, online and unpaused, begins the call that waits first. */
  lemma SkipOnline(s: State)
    requires Sane(s) && s.mode == Online && !s.deck.paused && s.deck.queue != []
    ensures Step(s, Skip).deck.call == Some(s.deck.queue[0].call) && Step(s, Skip).deck.queue == s.deck.queue[1..]
    ensures Step(s, Skip).deck.previous == Current(s)
  {
    hide Step, QueueCount, FeedLaw;
    StepObeys(s, Skip);
  }
}
