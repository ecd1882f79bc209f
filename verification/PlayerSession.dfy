/** What every event does to the mode and to what is sent and awaited, outside the walk of a playback. */
module PlayerSession {
  import opened Feed
  import opened PlayerModel
  import opened PlayerFrames
  import opened PlayerRuns
  import C = Categories

  /** The player goes into this mode, sends these messages, and awaits and lists this. */
  predicate Goes(s: State, s': State, mode: Mode, messages: seq<Message>, walk: Walk) {
    s'.mode == mode && s'.outbox == s.outbox + messages && s'.walk == walk
  }

  predicate Stays(s: State, s': State) {
    Goes(s, s', s.mode, [], s.walk)
  }

  /** Playing, pausing and arriving calls are nobody else's business; an awaited call that arrives is awaited no more.
      */
  lemma AudioStays(s: State, e: Event)
    requires OfAudio(e)
    ensures
      if e.PlayReply? && s.walk.pending == Some(e.call.id) then
        Goes(s, Step(s, e), s.mode, [], s.walk.(pending := None))
      else Stays(s, Step(s, e))
  {
    hide QueueCount;
  }

  /** Asking for a call sends the question and awaits that call; offline, playback begins, unless giving up a hold
      throws before the question is sent. */
  lemma AskingAsks(s: State, id: nat)
    requires id != 0
    ensures
      var throws := s.mode == Offline && (SystemReleaseThrows(Freed(s, id)) ||
                                          TalkgroupReleaseThrows(ReleasedSystem(Freed(s, id))));
      Goes(s, Step(s, LoadAndPlay(id)), if s.mode == Offline then Playback else s.mode,
           if throws then [] else [GetCall(id)], s.walk.(pending := Some(id)))
  {
    hide ReleasedSystem, ReleasedTalkgroup, SystemReleaseThrows, TalkgroupReleaseThrows;
    ReleasedFrame(Freed(s, id));
    ReleasedFrame(ReleasedSystem(Freed(s, id)));
  }

  /** Outside playback, skipping, the delay and a page of results ask for nothing. */
  lemma NothingAsked(s: State, e: Event)
    requires s.mode != Playback && (e.Skip? || e.DecodeFailed? || e.DelayOver? || e.ListReply?)
    ensures Goes(s, Step(s, e), s.mode, [], if e.ListReply? then s.walk.(list := Some(e.list)) else s.walk)
  {
    hide QueueCount;
  }

  lemma SearchAsks(s: State, q: Query)
    ensures Goes(s, Step(s, Search(q)), s.mode, [ListCalls(q)], s.walk)
  {
  }

  /** Going live sends the live map, leaving it sends none, and leaving playback says nothing. The one button does what
      its mode calls for. */
  lemma ModesChange(s: State)
    ensures Goes(s, Step(s, StartLivefeed), Online, [LivefeedMap(Some(s.feeds.live))], s.walk)
    ensures Goes(s, Step(s, StopLivefeed), Offline, [LivefeedMap(None)], s.walk)
    ensures Goes(s, Step(s, StopPlayback), Offline, [], s.walk.(refreshing := false))
    ensures Step(s, Livefeed) ==
            Step(s, if s.mode == Offline then StartLivefeed else if s.mode == Online then StopLivefeed
                 else StopPlayback)
  {
    ModesGo(s);
    hide WentLive, Stopped, LeftPlayback;
  }

  lemma ModesGo(s: State)
    ensures Goes(s, WentLive(s), Online, [LivefeedMap(Some(s.feeds.live))], s.walk)
    ensures Goes(s, Stopped(s), Offline, [LivefeedMap(None)], s.walk)
    ensures Goes(s, LeftPlayback(s), Offline, [], s.walk.(refreshing := false))
  {
  }

  /** In playback, for any page at all: the result asked for is the neighbour of the previous call in the direction of
      the walk, or the end of the page it begins with if the previous call is not on it; past the far end of the page
      the next one is asked for as long as there is one. */
  lemma WalkAsks(s: State, l: PlaybackList, i: int)
    requires s.mode == Playback && s.deck.call.None? && s.walk.pending.None? && l.results != []
    requires i == if s.deck.previous.Some? then IndexOf(l.results, s.deck.previous.value.id) else -1
    ensures
      var s1, s', n := s.(walk := s.walk.(list := Some(l))), Step(s, ListReply(l)), |l.results|;
      var size, offset := l.options.limit, l.options.offset;
      if l.options.descending then
        && (i == -1 ==> s' == Step(s1, LoadAndPlay(l.results[n - 1])))
        && (i > 0 ==> s' == Step(s1, LoadAndPlay(l.results[i - 1])))
        && (i == 0 && offset >= size ==> s' == Step(s1, Search(l.options.(offset := offset - size))))
        && (i == 0 && offset < size ==> Ends(s1, s', l.options))
      else
        && (i == -1 ==> s' == Step(s1, LoadAndPlay(l.results[0])))
        && (0 <= i < n - 1 ==> s' == Step(s1, LoadAndPlay(l.results[i + 1])))
        && (i == n - 1 && offset + size < l.count ==> s' == Step(s1, Search(l.options.(offset := offset + size))))
        && (i == n - 1 && offset + size >= l.count ==> Ends(s1, s', l.options))
  {
    EndsAtEnd(s.(walk := s.walk.(list := Some(l))), l.options);
    hide Requested, IndexOf, AtEnd, Ends;
  }

  lemma EndsAtEnd(s: State, q: Query)
    requires s.walk.list.Some? && q == s.walk.list.value.options
    ensures Ends(s, AtEnd(s), q)
  {
    hide WentLive, LeftPlayback;
  }

  /** At the very end the page is asked for once more, and the next time playback is left, for the live feed if the
      configuration says so. */
  predicate Ends(s: State, s': State, q: Query) {
    if !s.walk.refreshing then s' == Step(s.(walk := s.walk.(refreshing := true)), Search(q))
    else if s.feeds.config.goesLive then s' == Step(Step(s, StopPlayback), StartLivefeed)
    else s' == Step(s, StopPlayback)
  }

  /** A changed live map or configuration outside playback at most sends the new live map, and only online. */
  predicate TellsAtMost(s: State, s': State) {
    Stays(s, s') || (s.mode == Online && Goes(s, s', Online, [LivefeedMap(Some(s'.feeds.live))], s.walk))
  }

  lemma AnnouncedTells(s: State)
    ensures TellsAtMost(s, Announced(s))
  {
    hide C.IndexThrows, C.Statuses;
  }

  lemma CleanedStays(s: State)
    requires s.mode != Playback
    ensures Stays(s, Cleaned(s)) && Cleaned(s).feeds == s.feeds
  {
    hide QueueCount, Kept, IsActive;
  }

  lemma SettledTells(s: State, s1: State)
    requires s.mode != Playback && Stays(s, s1)
    ensures TellsAtMost(s, HoldSettled(s1)) && TellsAtMost(s, AfterAvoid(s1)) && TellsAtMost(s, Announced(s1))
  {
    hide Cleaned, Announced, CleaningThrows;
    CleanedStays(s1);
    AnnouncedTells(s1);
    AnnouncedTells(Cleaned(s1));
  }

  lemma ChangesTell(s: State, e: Event)
    requires s.mode != Playback && !OfAudio(e) && !OfWalk(e) && !OfMode(e)
    ensures TellsAtMost(s, Step(s, e))
  {
    hide HoldSettled, AfterAvoid, Announced, ReleasedSystem, ReleasedTalkgroup, SystemReleaseThrows,
         TalkgroupReleaseThrows, AvoidedMap, RestrictToSystem, OnlyTalkgroup, RebuiltLive, Switched, Rebuilt,
           TellsAtMost;
    ReleasedFrame(s);
    StayingTells(s);
    match e {
      case HoldSystem =>
        SettledTells(s, s.(feeds := s.feeds.(live := if s.feeds.heldSystem.Some? then s.feeds.heldSystem.value
                                                     else s.feeds.live, heldSystem := None)));
        if Current(s).Some? { SettledTells(s, WithSystemHeld(ReleasedTalkgroup(s), Current(s).value.system)); }
      case HoldTalkgroup =>
        SettledTells(s, s.(feeds := s.feeds.(live := if s.feeds.heldTalkgroup.Some? then s.feeds.heldTalkgroup.value
                                                     else s.feeds.live, heldTalkgroup := None)));
        if Current(s).Some? {
          SettledTells(s, WithTalkgroupHeld(ReleasedSystem(s), Current(s).value.system, Current(s).value.talkgroup));
        }
      case Avoid(options) =>
        if AvoidedMap(s, options).Some? {
          SettledTells(s, WithLive(s.(feeds := s.feeds.(heldSystem := None, heldTalkgroup := None)),
                                   AvoidedMap(s, options).value));
        }
      case Toggle(c) => SwitchedTells(s, c);
      case NewConfig(config) => SettledTells(s, WithConfig(s, config));
      case AvoidOver(sys, tg) =>
        if Known(s.feeds.live, sys, tg) { AnnouncedFrame(WithLive(s, Set(s.feeds.live, sys, tg, true))); }
    }
  }

  lemma StayingTells(s: State)
    ensures forall s' | Stays(s, s') :: TellsAtMost(s, s')
  {
  }

  lemma SwitchedTells(s: State, c: C.Category)
    requires s.mode != Playback
    ensures TellsAtMost(s, Switched(s, c))
  {
    hide ScanOf, Rebuilt, RebuildThrows, Cleaned;
    var s1 := s.(feeds := s.feeds.(heldSystem := None, heldTalkgroup := None, live := ScanOf(s, c).live));
    AnnouncedFrame(s1);
    CleanedStays(Resubscribed(Rebuilt(s1)));
  }
}
