/** Where the service's own code throws: reading the status of a label, giving up a hold, and asking for a result that
    is not on the page. Which part of an operation an exception cuts off depends on these. */
module PlayerThrows {
  import opened Feed
  import opened PlayerModel
  import C = Categories

  predicate SomeThrows(index: C.Index, m: FeedMap) {
    exists l | l in index :: C.EntryThrows(index[l], m)
  }

  /** Every label of the index, and no other, is shown with its status. */
  predicate Shows(shown: map<string, C.Status>, index: C.Index, m: FeedMap) {
    shown.Keys == index.Keys && forall l | l in index :: shown[l] == C.StatusOf(index[l], m)
  }

  /** Recomputing the statuses changes nothing else. An exception among the groups leaves groups and tags as they were
      shown, one among the tags leaves the new groups and no tags; switched off, tags are neither read nor shown. */
  lemma RebuiltShows(s: State)
    ensures
      var f, f' := s.feeds, Rebuilt(s).feeds;
      var groupThrows := SomeThrows(f.config.groups, f.live);
      var tagThrows := f.config.tagsToggle && SomeThrows(f.config.tags, f.live);
      && Rebuilt(s) == s.(feeds := f.(groups := f'.groups, tags := f'.tags))
      && (RebuildThrows(f) <==> groupThrows || tagThrows)
      && (if groupThrows then f'.groups == f.groups && f'.tags == f.tags
          else Shows(f'.groups, f.config.groups, f.live) &&
               if tagThrows || !f.config.tagsToggle then f'.tags == map[]
               else Shows(f'.tags, f.config.tags, f.live))
  {
    hide C.EntryThrows, C.StatusOf;
  }

  /** Giving up a hold throws exactly when it gives a map back and the statuses cannot be read from that map. */
  lemma ReleaseThrows(s: State)
    ensures SystemReleaseThrows(s) <==>
            ReleasedSystem(s).feeds.heldSystem != s.feeds.heldSystem && RebuildThrows(ReleasedSystem(s).feeds)
    ensures TalkgroupReleaseThrows(s) <==>
            ReleasedTalkgroup(s).feeds.heldTalkgroup != s.feeds.heldTalkgroup &&
            RebuildThrows(ReleasedTalkgroup(s).feeds)
  {
    if s.feeds.heldSystem.Some? {
      RebuiltShows(s.(feeds := s.feeds.(live := s.feeds.heldSystem.value, heldSystem := None)));
    }
    if s.feeds.heldTalkgroup.Some? {
      RebuiltShows(s.(feeds := s.feeds.(live := s.feeds.heldTalkgroup.value, heldTalkgroup := None)));
    }
    hide Rebuilt, SomeThrows, Shows, C.IndexThrows;
  }

  /** The position of the page that the walk reads next; none if it turns the page instead. */
  function PositionRead(l: PlaybackList, index: int): Option<int> {
    if index == -1 then Some(if l.options.descending then |l.results| - 1 else 0)
    else if index == if l.options.descending then 0 else |l.results| - 1 then None
    else Some(if l.options.descending then index - 1 else index + 1)
  }

  /** The walk goes on from the previous call and reads beyond the page. */
  predicate ReadsBeyond(s: State) {
    s.mode == Playback && s.deck.call.None? && s.walk.list.Some? && s.walk.pending.None? &&
    var l := s.walk.list.value;
    var index := if s.deck.previous.Some? then IndexOf(l.results, s.deck.previous.value.id) else -1;
    var p := PositionRead(l, index);
    p.Some? && !(0 <= p.value < |l.results|)
  }

  /** Cleaning throws exactly when it skips an unwanted call and the walk then reads beyond the page, which happens on
      an empty page only. */
  lemma CleaningThrowsIff(s: State)
    ensures CleaningThrows(s) <==>
            s.deck.call.Some? && !IsActive(s.feeds.live, s.deck.call.value) && ReadsBeyond(Undelayed(Halted(s)))
    ensures ReadsBeyond(s) ==> s.walk.list.value.results == [] && Step(s, ListReply(s.walk.list.value)) == s
  {
    hide IsActive;
  }
}
