/** What the statuses, their announcement and the release of a hold leave alone. */
module PlayerFrames {
  import opened Feed
  import opened PlayerModel
  import C = Categories

  /** Nothing but the shown statuses and what has been sent may differ. */
  ghost predicate SameButStatuses(s: State, s': State) {
    && s'.mode == s.mode && s'.deck == s.deck && s'.walk == s.walk && s'.log == s.log
    && s'.feeds == s.feeds.(groups := s'.feeds.groups, tags := s'.feeds.tags)
  }

  lemma AnnouncedFrame(s: State)
    ensures SameButStatuses(s, Rebuilt(s)) && Rebuilt(s).outbox == s.outbox
    ensures SameButStatuses(s, Resubscribed(s)) && Resubscribed(s).feeds == s.feeds
    ensures SameButStatuses(s, Announced(s))
  {
    hide C.IndexThrows, C.Statuses;
  }

  lemma ReleasedFrame(s: State)
    ensures
      var r := ReleasedSystem(s);
      && r.mode == s.mode && r.deck == s.deck && r.walk == s.walk && r.log == s.log && r.outbox == s.outbox
      && r.feeds.config == s.feeds.config && r.feeds.heldTalkgroup == s.feeds.heldTalkgroup
    ensures
      var r := ReleasedTalkgroup(s);
      && r.mode == s.mode && r.deck == s.deck && r.walk == s.walk && r.log == s.log && r.outbox == s.outbox
      && r.feeds.config == s.feeds.config && r.feeds.heldSystem == s.feeds.heldSystem
  {
    hide C.IndexThrows, C.Statuses;
  }

  /** Whether recomputing throws depends on the configuration and the live map only. */
  lemma SameThrows(f: Feeds, f': Feeds)
    requires f'.config == f.config && f'.live == f.live
    ensures RebuildThrows(f) == RebuildThrows(f')
  {
  }
}
