/** The listener's player as a state machine: one step function for every public method of the service and
    for every event its audio, timers and websocket deliver. */
module PlayerModel {
  import opened Feed
  import C = Categories

  datatype Mode = Offline | Online | Playback

  /** A queued call with its arrival number; calls put at the front of the queue by priority carry PRIORITY. */
  datatype Entry = Entry(call: Call, stamp: int)
  const PRIORITY := -1

  /** `descending` is the source's `sort === -1`. */
  datatype Query = Query(limit: nat, offset: nat, descending: bool)
  datatype PlaybackList = PlaybackList(count: nat, options: Query, results: seq<nat>)

  datatype Message = GetCall(id: nat) | ListCalls(query: Query) | LivefeedMap(feed: Option<FeedMap>)

  /** A call that began playing, with the queue count shown at that moment. */
  datatype Started = Started(id: nat, remaining: int)

  /** The audio deck and the queue in front of it. */
  datatype Deck = Deck(
    audio: bool,             // audioSource
    call: Option<Call>,
    previous: Option<Call>,  // callPrevious
    queue: seq<Entry>,       // callQueue
    paused: bool,            // livefeedPaused
    delay: bool              // skipDelay
  )

  /** The walk over search results in playback mode. */
  datatype Walk = Walk(
    pending: Option<nat>,        // playbackPending
    refreshing: bool,            // playbackRefreshing
    list: Option<PlaybackList>   // playbackList
  )

  datatype Feeds = Feeds(
    live: FeedMap,                  // livefeedMap
    heldSystem: Option<FeedMap>,    // livefeedMapPriorToHoldSystem
    heldTalkgroup: Option<FeedMap>, // livefeedMapPriorToHoldTalkgroup
    config: C.Config,
    groups: map<string, C.Status>,  // categories of type group
    tags: map<string, C.Status>     // categories of type tag
  )

  /** History only: no step reads it, except that an arrival is numbered by its position. */
  datatype Log = Log(
    arrivals: seq<Call>,    // calls appended to the queue
    taken: seq<Entry>,      // entries shifted off the queue
    dropped: seq<Entry>,    // entries removed by cleaning or clearing the queue
    started: seq<Started>   // calls that began playing
  )

  datatype State = State(mode: Mode, deck: Deck, walk: Walk, feeds: Feeds, outbox: seq<Message>, log: Log)

  datatype AvoidOptions =
    | All(flag: bool)
    | OfTalkgroup(sys: nat, tg: nat, status: Option<bool>)
    | OfSystem(sys: nat, status: Option<bool>)
    | OfCurrent(status: Option<bool>)

  datatype Event =
    // websocket
    | LiveCall(call: Call)
    | PlayReply(call: Call)
    | ListReply(list: PlaybackList)
    | NewConfig(config: C.Config)
    // audio and timers
    | Decoded
    | DecodeFailed
    | Ended
    | DelayOver
    | AvoidOver(sys: nat, tg: nat)
    // listener
    | Pause(status: bool)
    | PlayCall(call: Call)
    | Replay
    | Skip
    | Stop
    | LoadAndPlay(id: nat)
    | HoldSystem
    | HoldTalkgroup
    | Livefeed
    | StartLivefeed
    | StopLivefeed
    | StopPlayback
    | Avoid(options: AvoidOptions)
    | Toggle(category: C.Category)
    | Search(query: Query)

  // ---- Queries ----

  function IndexOf(s: seq<nat>, x: nat): (i: int)
    ensures i == -1 ==> x !in s
    ensures i != -1 ==> 0 <= i < |s| && s[i] == x && x !in s[..i]
  {
    if s == [] then -1
    else if s[0] == x then 0
    else
      var i := IndexOf(s[1..], x);
      if i == -1 then -1 else i + 1
  }

  function Current(s: State): Option<Call> {
    if s.deck.call.Some? then s.deck.call else s.deck.previous
  }

  /** getPlaybackQueueCount. Ids are compared for truth first, so id 0 counts as no call. */
  function QueueCount(s: State): int {
    var id := if s.deck.call.Some? && s.deck.call.value.id != 0 then s.deck.call.value.id
              else if s.deck.previous.Some? then s.deck.previous.value.id else 0;
    if id == 0 || s.walk.list.None? then 0
    else
      var l := s.walk.list.value;
      var index := IndexOf(l.results, id);
      if index == -1 then 0
      else if l.options.descending then l.options.offset + index
      else l.count - l.options.offset - index - 1
  }

  function ShownCount(s: State): int {
    if s.mode == Playback then QueueCount(s) else |s.deck.queue|
  }

  // ---- Internal steps ----

  function Send(s: State, m: Message): State {
    s.(outbox := s.outbox + [m])
  }

  /** Reading a flag of the live map would throw while the statuses are recomputed. */
  predicate RebuildThrows(f: Feeds) {
    C.IndexThrows(f.config.groups, f.live) || (f.config.tagsToggle && C.IndexThrows(f.config.tags, f.live))
  }

  /** rebuildCategories. An exception among the groups leaves the old statuses, one among the tags leaves the groups. */
  function Rebuilt(s: State): State {
    if C.IndexThrows(s.feeds.config.groups, s.feeds.live) then s
    else
      var tags: map<string, C.Status> :=
        if s.feeds.config.tagsToggle && !RebuildThrows(s.feeds) then C.Statuses(s.feeds.config.tags, s.feeds.live)
        else map[];
      s.(feeds := s.feeds.(groups := C.Statuses(s.feeds.config.groups, s.feeds.live), tags := tags))
  }

  function Halted(s: State): State {
    s.(deck := s.deck.(audio := false, call := None,
                       previous := if s.deck.call.Some? then s.deck.call else s.deck.previous))
  }

  function Undelayed(s: State): State {
    s.(deck := s.deck.(delay := false))
  }

  function Delayed(s: State): State {
    s.(deck := s.deck.(delay := true))
  }

  function WithPause(s: State, status: bool): State {
    s.(deck := s.deck.(paused := status))
  }

  function WithLive(s: State, m: FeedMap): State {
    s.(feeds := s.feeds.(live := m))
  }

  /** The call begins playing; the shown count is computed with the call already in place. */
  function Begun(s: State, c: Call): State {
    var s' := s.(deck := s.deck.(call := Some(c)));
    s'.(log := s.log.(started := s.log.started + [Started(c.id, ShownCount(s'))]))
  }

  /** play() */
  function Played(s: State): State {
    if s.deck.paused || s.deck.delay || s.deck.call.Some? || s.deck.queue == [] then s
    else
      var first := s.deck.queue[0];
      Begun(s.(deck := s.deck.(queue := s.deck.queue[1..]), log := s.log.(taken := s.log.taken + [first])), first.call)
  }

  /** play(call) */
  function PlayedCall(s: State, c: Call): State {
    if s.deck.paused || s.deck.delay then s
    else Begun(if s.deck.call.Some? then Halted(s) else s, c)
  }

  function Enqueued(s: State, c: Call, priority: bool): State {
    if s.mode == Offline then s
    else
      var s' := if priority then s.(deck := s.deck.(queue := [Entry(c, PRIORITY)] + s.deck.queue))
                else s.(deck := s.deck.(queue := s.deck.queue + [Entry(c, |s.log.arrivals|)]),
                     log := s.log.(arrivals := s.log.arrivals + [c]));
      if s.deck.audio || s.deck.call.Some? || s.deck.paused || s.deck.delay then s' else Played(s')
  }

  function Cleared(s: State): State {
    s.(deck := s.deck.(queue := []), log := s.log.(dropped := s.log.dropped + s.deck.queue))
  }

  function Kept(q: seq<Entry>, m: FeedMap, wanted: bool): seq<Entry> {
    if q == [] then []
    else (if IsActive(m, q[0].call) == wanted then [q[0]] else []) + Kept(q[1..], m, wanted)
  }

  function WentLive(s: State): State {
    Send(s.(mode := Online), LivefeedMap(Some(s.feeds.live)))
  }

  function Stopped(s: State): State {
    Send(Halted(Cleared(s.(mode := Offline))), LivefeedMap(None))
  }

  function LeftPlayback(s: State): State {
    Halted(Cleared(s.(mode := Offline, walk := s.walk.(refreshing := false))))
  }

  /** Holding again gives the map back. */
  function ReleasedSystem(s: State): State {
    if Current(s).None? || s.feeds.heldSystem.None? then s
    else Rebuilt(s.(feeds := s.feeds.(live := s.feeds.heldSystem.value, heldSystem := None)))
  }

  function ReleasedTalkgroup(s: State): State {
    if Current(s).None? || s.feeds.heldTalkgroup.None? then s
    else Rebuilt(s.(feeds := s.feeds.(live := s.feeds.heldTalkgroup.value, heldTalkgroup := None)))
  }

  /** A release gives the map back before it recomputes the statuses, and with an exception its caller ends as well. */
  predicate SystemReleaseThrows(s: State) {
    Current(s).Some? && s.feeds.heldSystem.Some? && RebuildThrows(s.feeds.(live := s.feeds.heldSystem.value))
  }

  predicate TalkgroupReleaseThrows(s: State) {
    Current(s).Some? && s.feeds.heldTalkgroup.Some? && RebuildThrows(s.feeds.(live := s.feeds.heldTalkgroup.value))
  }

  /** The deck is freed for a call to come; offline, playback begins. */
  function Freed(s: State, id: nat): State {
    Halted(s.(mode := if s.mode == Offline then Playback else s.mode, deck := s.deck.(delay := false),
              walk := s.walk.(pending := Some(id))))
  }

  function Requested(s: State, id: nat): State {
    if id == 0 then s
    else
      var s2 := Freed(s, id);
      if s.mode != Offline then Send(s2, GetCall(id))
      else
        var s3 := ReleasedSystem(s2);
        if SystemReleaseThrows(s2) then s3
        else if TalkgroupReleaseThrows(s3) then ReleasedTalkgroup(s3)
        else Send(ReleasedTalkgroup(s3), GetCall(id))
  }

  /** The last page has been played: refresh it once, then leave playback. */
  function AtEnd(s: State): State
    requires s.walk.list.Some?
  {
    if s.walk.refreshing then
      if s.feeds.config.goesLive then WentLive(LeftPlayback(s)) else LeftPlayback(s)
    else Send(s.(walk := s.walk.(refreshing := true)), ListCalls(s.walk.list.value.options))
  }

  /** playbackNextCall. On an empty page the source throws before changing anything. */
  function Next(s: State): State {
    if s.deck.call.Some? || s.mode != Playback || s.walk.list.None? || s.walk.pending.Some? then s
    else
      var l := s.walk.list.value;
      var index := if s.deck.previous.Some? then IndexOf(l.results, s.deck.previous.value.id) else -1;
      if l.results == [] then s
      else if l.options.descending then
        if index == -1 then Requested(s, l.results[|l.results| - 1])
        else if index == 0 then
          if l.options.offset < l.options.limit then AtEnd(s)
          else Send(s, ListCalls(l.options.(offset := l.options.offset - l.options.limit)))
        else Requested(s, l.results[index - 1])
      else
        if index == -1 then Requested(s, l.results[0])
        else if index == |l.results| - 1 then
          if l.options.offset < l.count - l.options.limit then
            Send(s, ListCalls(l.options.(offset := l.options.offset + l.options.limit)))
          else AtEnd(s)
        else Requested(s, l.results[index + 1])
  }

  function Resumed(s: State): State {
    if s.mode == Playback then Next(s) else Played(s)
  }

  /** skip() */
  function Skipped(s: State): State {
    Resumed(Undelayed(Halted(s)))
  }

  function Cleaned(s: State): State {
    var s' := s.(deck := s.deck.(queue := Kept(s.deck.queue, s.feeds.live, true)),
                  log := s.log.(dropped := s.log.dropped + Kept(s.deck.queue, s.feeds.live, false)));
    if s'.deck.call.Some? && !IsActive(s'.feeds.live, s'.deck.call.value) then Skipped(s') else s'
  }

  function Resubscribed(s: State): State {
    if s.mode == Online then WentLive(s) else s
  }

  /** rebuildCategories and then resubscribing, which an exception in the former prevents. */
  function Announced(s: State): State {
    if RebuildThrows(s.feeds) then Rebuilt(s) else Resubscribed(Rebuilt(s))
  }

  /** Cleaning skips an unwanted current call, and in playback the walk then throws on an empty page. */
  predicate CleaningThrows(s: State) {
    s.mode == Playback && s.deck.call.Some? && !IsActive(s.feeds.live, s.deck.call.value) &&
    s.walk.pending.None? && s.walk.list.Some? && s.walk.list.value.results == []
  }

  /** The queue is cleaned for a held map, and the map announced. */
  function HoldSettled(s: State): State {
    if CleaningThrows(s) then Cleaned(s) else Announced(Cleaned(s))
  }

  function WithSystemHeld(s: State, sys: nat): State {
    s.(feeds := s.feeds.(heldSystem := Some(s.feeds.live), live := RestrictToSystem(s.feeds.live, sys)))
  }

  function WithTalkgroupHeld(s: State, sys: nat, tg: nat): State {
    s.(feeds := s.feeds.(heldTalkgroup := Some(s.feeds.live), live := OnlyTalkgroup(s.feeds.live, sys, tg)))
  }

  function HeldSystem(s: State): State {
    if Current(s).None? then s
    else if s.feeds.heldSystem.Some? then
      Announced(s.(feeds := s.feeds.(live := s.feeds.heldSystem.value, heldSystem := None)))
    else if TalkgroupReleaseThrows(s) then ReleasedTalkgroup(s)
    else HoldSettled(WithSystemHeld(ReleasedTalkgroup(s), Current(s).value.system))
  }

  function HeldTalkgroup(s: State): State {
    if Current(s).None? then s
    else if s.feeds.heldTalkgroup.Some? then
      Announced(s.(feeds := s.feeds.(live := s.feeds.heldTalkgroup.value, heldTalkgroup := None)))
    else if SystemReleaseThrows(s) then ReleasedSystem(s)
    else
      var c := Current(s).value;
      HoldSettled(WithTalkgroupHeld(ReleasedSystem(s), c.system, c.talkgroup))
  }

  // ---- Changes of the live map ----

  function AllSet(m: FeedMap, flag: bool): FeedMap {
    map s | s in m :: map t | t in m[s] :: flag
  }

  function SystemSet(m: FeedMap, sys: nat, status: Option<bool>): FeedMap
    requires sys in m
  {
    var row: map<nat, bool> := map t | t in m[sys] :: if status.Some? then status.value else !m[sys][t];
    m[sys := row]
  }

  function TalkgroupSet(m: FeedMap, sys: nat, tg: nat, status: Option<bool>): FeedMap
    requires Known(m, sys, tg)
  {
    Set(m, sys, tg, if status.Some? then status.value else !m[sys][tg])
  }

  /** The live map an avoid leaves; none when the source throws on an unknown system or talkgroup. */
  function AvoidedMap(s: State, options: AvoidOptions): Option<FeedMap> {
    var live := s.feeds.live;
    match options
    case All(flag) => Some(AllSet(live, flag))
    case OfTalkgroup(sys, tg, status) =>
      if Known(live, sys, tg) then Some(TalkgroupSet(live, sys, tg, status)) else None
    case OfSystem(sys, status) => if sys in live then Some(SystemSet(live, sys, status)) else None
    case OfCurrent(status) =>
      if Current(s).None? then Some(live)
      else
        var c := Current(s).value;
        if Known(live, c.system, c.talkgroup) then Some(TalkgroupSet(live, c.system, c.talkgroup, status)) else None
  }

  function Avoided(s: State, options: AvoidOptions): State {
    var s1 := s.(feeds := s.feeds.(heldSystem := None, heldTalkgroup := None));
    match AvoidedMap(s, options)
    case None => s1
    case Some(m) => AfterAvoid(WithLive(s1, m))
  }

  function AfterAvoid(s: State): State {
    Announced(if s.mode == Playback then s else Cleaned(s))
  }

  /** The scan of a toggle, with the flag it sets. */
  function ScanOf(s: State, c: C.Category): C.Scan {
    C.ScanSystems(s.feeds.config.systems, c.kind, c.name, c.status != C.On, s.feeds.live)
  }

  /** toggleCategory ends where the scan or the recomputing throws. Its test of the current call's system can only
      throw, after the statuses are recomputed. */
  function Switched(s: State, c: C.Category): State {
    var s1 := s.(feeds := s.feeds.(heldSystem := None, heldTalkgroup := None, live := ScanOf(s, c).live));
    if ScanOf(s, c).stopped then s1
    else if RebuildThrows(s1.feeds) then Rebuilt(s1)
    else if s1.deck.call.Some? && s1.deck.call.value.system !in s1.feeds.live then Rebuilt(s1)
    else Cleaned(Resubscribed(Rebuilt(s1)))
  }

  /** The live map rebuilt for a new configuration. */
  function RebuiltLive(s: State, config: C.Config): FeedMap {
    C.RebuildMap(config.systems, s.feeds.live, s.feeds.groups, s.feeds.tags, map[])
  }

  /** While something is held the rebuilt map becomes the snapshot, and the live map stays as it is. */
  function WithConfig(s: State, config: C.Config): State {
    var m := RebuiltLive(s, config);
    var s1 := s.(feeds := s.feeds.(config := config));
    if s.feeds.heldSystem.Some? then s1.(feeds := s1.feeds.(heldSystem := Some(m)))
    else if s.feeds.heldTalkgroup.Some? then s1.(feeds := s1.feeds.(heldTalkgroup := Some(m)))
    else WithLive(s1, m)
  }

  function Configured(s: State, config: C.Config): State {
    Announced(WithConfig(s, config))
  }

  /** An avoid timer runs out. Holding cancels the timers, so none fires while a hold is set. */
  function Unavoided(s: State, sys: nat, tg: nat): State {
    if s.feeds.heldSystem.Some? || s.feeds.heldTalkgroup.Some? || !Known(s.feeds.live, sys, tg) then s
    else Rebuilt(WithLive(s, Set(s.feeds.live, sys, tg, true)))
  }

  // ---- One event ----

  function Step(s: State, e: Event): State {
    match e
    case LiveCall(c) => Enqueued(s, c, false)
    case PlayReply(c) =>
      if s.walk.pending == Some(c.id) then Enqueued(s.(walk := s.walk.(pending := None)), c, true)
      else Enqueued(s, c, false)
    case ListReply(l) =>
      var s1 := s.(walk := s.walk.(list := Some(l)));
      if s1.mode == Playback then Next(s1) else s1
    case NewConfig(config) => Configured(s, config)
    case Decoded => if s.deck.audio || s.deck.call.None? then s else s.(deck := s.deck.(audio := true))
    case DecodeFailed => Skipped(s)
    case Ended => if s.deck.audio then Delayed(Halted(s)) else s
    case DelayOver => if s.deck.delay then Resumed(Undelayed(s)) else s
    case AvoidOver(sys, tg) => Unavoided(s, sys, tg)
    case Pause(status) => if status then WithPause(s, true) else Played(WithPause(s, false))
    case PlayCall(c) => PlayedCall(s, c)
    case Replay => if Current(s).Some? then PlayedCall(s, Current(s).value) else Played(s)
    case Skip => Skipped(s)
    case Stop => Halted(s)
    case LoadAndPlay(id) => Requested(s, id)
    case HoldSystem => HeldSystem(s)
    case HoldTalkgroup => HeldTalkgroup(s)
    case Livefeed =>
      (match s.mode
       case Offline => WentLive(s)
       case Online => Stopped(s)
       case Playback => LeftPlayback(s))
    case StartLivefeed => WentLive(s)
    case StopLivefeed => Stopped(s)
    case StopPlayback => LeftPlayback(s)
    case Avoid(options) => Avoided(s, options)
    case Toggle(category) => Switched(s, category)
    case Search(query) => Send(s, ListCalls(query))
  }

  function Run(s: State, events: seq<Event>): State
    decreases |events|
  {
    if events == [] then s else Run(Step(s, events[0]), events[1..])
  }

  /** The player as constructed; the live map may come from local storage. */
  predicate Initial(s: State) {
    && !s.deck.audio && s.deck.call.None? && s.deck.previous.None? && s.deck.queue == []
    && s.mode == Offline && !s.deck.paused && !s.deck.delay
    && s.walk.pending.None? && !s.walk.refreshing && s.walk.list.None?
    && s.feeds.heldSystem.None? && s.feeds.heldTalkgroup.None?
    && s.outbox == [] && s.log.arrivals == [] && s.log.taken == [] && s.log.dropped == [] && s.log.started == []
  }
}
