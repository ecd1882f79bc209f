/** The service itself: fields updated in place, each method proved to take the step the model gives for it. */
module PlayerService {
  import opened Feed
  import opened PlayerModel
  import opened PlayerFrames
  import opened PlayerRuns
  import opened PlayerArrivals
  import opened PlayerDeck
  import C = Categories

  class Player {
    var audioSource: bool
    var call: Option<Call>
    var callPrevious: Option<Call>
    var callQueue: seq<Entry>
    var livefeedMode: Mode
    var livefeedPaused: bool
    var skipDelay: bool
    var playbackPending: Option<nat>
    var playbackRefreshing: bool
    var playbackList: Option<PlaybackList>
    var livefeedMap: FeedMap
    var priorToHoldSystem: Option<FeedMap>
    var priorToHoldTalkgroup: Option<FeedMap>
    var config: C.Config
    var groups: map<string, C.Status>
    var tags: map<string, C.Status>
    var sent: seq<Message>
    ghost var log: Log
    var arrived: nat  // number of arrivals, which numbers the next one

    /** Arrivals are numbered right. This holds at all times, also while a method runs. */
    ghost predicate Counted()
      reads this
    {
      arrived == |log.arrivals|
    }

    /** What holds between events: audio has its call, a delay has none, an offline player has nothing queued, and every
        arrival is accounted for once, in order. */
    ghost predicate Valid()
      reads this
    {
      Counted() && Sane(View()) && Traced(TraceOf(View()))
    }

    ghost function View(): State
      reads this
    {
      State(livefeedMode,
            Deck(audioSource, call, callPrevious, callQueue, livefeedPaused, skipDelay),
            Walk(playbackPending, playbackRefreshing, playbackList),
            Feeds(livefeedMap, priorToHoldSystem, priorToHoldTalkgroup, config, groups, tags),
            sent, log)
    }

    constructor (stored: FeedMap)
      ensures Valid() && Initial(View()) && View().feeds.live == stored
    {
      audioSource, call, callPrevious, callQueue := false, None, None, [];
      livefeedMode, livefeedPaused, skipDelay := Offline, false, false;
      playbackPending, playbackRefreshing, playbackList := None, false, None;
      livefeedMap, priorToHoldSystem, priorToHoldTalkgroup := stored, None, None;
      config := C.Config([], map[], map[], false, false);
      groups, tags, sent, arrived := map[], map[], [], 0;
      log := Log([], [], [], []);
    }

    method SendToWebsocket(m: Message)
      requires Counted()
      modifies this
      ensures Counted() && View() == Send(old(View()), m)
    {
      sent := sent + [m];
    }

    /** False stands for an exception; what was assigned before it stays. */
    method RebuildCategories() returns (ok: bool)
      requires Counted()
      modifies this
      ensures Counted() && View() == Rebuilt(old(View())) && ok == !RebuildThrows(View().feeds)
    {
      if C.IndexThrows(config.groups, livefeedMap) {
        return false;
      }
      groups := C.Statuses(config.groups, livefeedMap);
      tags := map[];
      if config.tagsToggle {
        if C.IndexThrows(config.tags, livefeedMap) {
          return false;
        }
        tags := C.Statuses(config.tags, livefeedMap);
      }
      ok := true;
    }

    method PlaybackQueueCount() returns (n: int)
      ensures n == QueueCount(View())
    {
      n := 0;
      var id := 0;
      if call.Some? {
        id := call.value.id;
      }
      if id == 0 && callPrevious.Some? {
        id := callPrevious.value.id;
      }
      if id != 0 && playbackList.Some? {
        var index := IndexOf(playbackList.value.results, id);
        if index != -1 {
          if playbackList.value.options.descending {
            n := playbackList.value.options.offset + index;
          } else {
            n := playbackList.value.count - playbackList.value.options.offset - index - 1;
          }
        }
      }
    }

    method HaltPlaying()
      requires Counted()
      modifies this
      ensures Counted() && View() == Halted(old(View()))
    {
      if audioSource {
        audioSource := false;
      }
      if call.Some? {
        callPrevious := call;
        call := None;
      }
    }

    /** Common tail of both forms of play: the call is in place, its queue count is computed. */
    method Begin(c: Call)
      requires Counted() && call.None?
      modifies this
      ensures Counted() && View() == Begun(old(View()), c)
    {
      call := Some(c);
      var count := |callQueue|;
      if livefeedMode == Playback {
        count := PlaybackQueueCount();
      }
      log := log.(started := log.started + [Started(c.id, count)]);
    }

    method Play()
      requires Counted()
      modifies this
      ensures Counted() && View() == Played(old(View()))
    {
      if livefeedPaused || skipDelay {
        return;
      } else if call.Some? {
        return;
      } else if callQueue != [] {
        var first := callQueue[0];
        callQueue := callQueue[1..];
        log := log.(taken := log.taken + [first]);
        Begin(first.call);
      }
    }

    method PlayGiven(c: Call)
      requires Counted()
      modifies this
      ensures Counted() && View() == PlayedCall(old(View()), c)
    {
      if livefeedPaused || skipDelay {
        return;
      }
      if call.Some? {
        HaltPlaying();
      }
      Begin(c);
    }

    method Queue(c: Call, priority: bool)
      requires Counted()
      modifies this
      ensures Counted() && View() == Enqueued(old(View()), c, priority)
    {
      if livefeedMode == Offline {
        return;
      }
      if priority {
        callQueue := [Entry(c, PRIORITY)] + callQueue;
      } else {
        callQueue := callQueue + [Entry(c, arrived)];
        arrived := arrived + 1;
        log := log.(arrivals := log.arrivals + [c]);
      }
      if !(audioSource || call.Some? || livefeedPaused || skipDelay) {
        Play();
      }
    }

    method ClearQueue()
      requires Counted()
      modifies this
      ensures Counted() && View() == Cleared(old(View()))
    {
      log := log.(dropped := log.dropped + callQueue);
      callQueue := [];
    }

    method BeginLivefeed()
      requires Counted()
      modifies this
      ensures Counted() && View() == WentLive(old(View()))
    {
      livefeedMode := Online;
      SendToWebsocket(LivefeedMap(Some(livefeedMap)));
    }

    method EndLivefeed()
      requires Counted()
      modifies this
      ensures Counted() && View() == Stopped(old(View()))
    {
      livefeedMode := Offline;
      ClearQueue();
      HaltPlaying();
      SendToWebsocket(LivefeedMap(None));
    }

    method StopPlaybackMode()
      requires Counted()
      modifies this
      ensures Counted() && View() == LeftPlayback(old(View()))
    {
      livefeedMode := Offline;
      playbackRefreshing := false;
      ClearQueue();
      HaltPlaying();
    }

    /** The releasing branch of holdSystem. */
    method ReleaseSystem() returns (ok: bool)
      requires Counted()
      modifies this
      ensures Counted() && View() == ReleasedSystem(old(View())) && ok == !SystemReleaseThrows(old(View()))
    {
      hide Rebuilt, RebuildThrows;
      ok := true;
      if (call.Some? || callPrevious.Some?) && priorToHoldSystem.Some? {
        ghost var s := View();
        livefeedMap := priorToHoldSystem.value;
        priorToHoldSystem := None;
        AnnouncedFrame(View());
        SameThrows(View().feeds, s.feeds.(live := livefeedMap));
        SameThrows(Rebuilt(View()).feeds, View().feeds);
        ok := RebuildCategories();
      }
    }

    /** The releasing branch of holdTalkgroup. */
    method ReleaseTalkgroup() returns (ok: bool)
      requires Counted()
      modifies this
      ensures Counted() && View() == ReleasedTalkgroup(old(View())) && ok == !TalkgroupReleaseThrows(old(View()))
    {
      hide Rebuilt, RebuildThrows;
      ok := true;
      if (call.Some? || callPrevious.Some?) && priorToHoldTalkgroup.Some? {
        ghost var s := View();
        livefeedMap := priorToHoldTalkgroup.value;
        priorToHoldTalkgroup := None;
        AnnouncedFrame(View());
        SameThrows(View().feeds, s.feeds.(live := livefeedMap));
        SameThrows(Rebuilt(View()).feeds, View().feeds);
        ok := RebuildCategories();
      }
    }

    method LoadAndPlayCall(id: nat)
      requires Counted()
      modifies this
      ensures Counted() && View() == Requested(old(View()), id)
    {
      hide ReleasedSystem, ReleasedTalkgroup, SystemReleaseThrows, TalkgroupReleaseThrows;
      if id == 0 {
        return;
      }
      ghost var s := View();
      if skipDelay {
        skipDelay := false;
      }
      playbackPending := Some(id);
      HaltPlaying();
      if livefeedMode == Offline {
        livefeedMode := Playback;
        assert View() == Freed(s, id);
        var ok := ReleaseSystem();
        if !ok {
          return;
        }
        ok := ReleaseTalkgroup();
        if !ok {
          return;
        }
      }
      SendToWebsocket(GetCall(id));
    }

    method FinishPlayback()
      requires Counted() && playbackList.Some?
      modifies this
      ensures Counted() && View() == AtEnd(old(View()))
    {
      if playbackRefreshing {
        StopPlaybackMode();
        if config.goesLive {
          BeginLivefeed();
        }
      } else {
        playbackRefreshing := true;
        SendToWebsocket(ListCalls(playbackList.value.options));
      }
    }

    method PlaybackNextCall()
      requires Counted()
      modifies this
      ensures Counted() && View() == Next(old(View()))
    {
      if call.Some? || livefeedMode != Playback || playbackList.None? || playbackPending.Some? {
        return;
      }
      var l := playbackList.value;
      var index := -1;
      if callPrevious.Some? {
        index := IndexOf(l.results, callPrevious.value.id);
      }
      if l.results == [] {
        return;
      }
      if l.options.descending {
        if index == -1 {
          LoadAndPlayCall(l.results[|l.results| - 1]);
        } else if index == 0 {
          if l.options.offset < l.options.limit {
            FinishPlayback();
          } else {
            SendToWebsocket(ListCalls(l.options.(offset := l.options.offset - l.options.limit)));
          }
        } else {
          LoadAndPlayCall(l.results[index - 1]);
        }
      } else {
        if index == -1 {
          LoadAndPlayCall(l.results[0]);
        } else if index == |l.results| - 1 {
          if l.options.offset < l.count - l.options.limit {
            SendToWebsocket(ListCalls(l.options.(offset := l.options.offset + l.options.limit)));
          } else {
            FinishPlayback();
          }
        } else {
          LoadAndPlayCall(l.results[index + 1]);
        }
      }
    }

    /** What a skip or an elapsed delay goes on with. */
    method Resume()
      requires Counted()
      modifies this
      ensures Counted() && View() == Resumed(old(View()))
    {
      if livefeedMode == Playback {
        PlaybackNextCall();
      } else {
        Play();
      }
    }

    method SkipCall()
      requires Counted()
      modifies this
      ensures Counted() && View() == Skipped(old(View()))
    {
      HaltPlaying();
      if skipDelay {
        skipDelay := false;
      }
      Resume();
    }

    method SkipAfterDelay()
      requires Counted()
      modifies this
      ensures Counted() && View() == Delayed(Halted(old(View())))
    {
      HaltPlaying();
      skipDelay := true;
    }

    method CleanQueue()
      requires Counted()
      modifies this
      ensures Counted() && View() == Cleaned(old(View()))
    {
      log := log.(dropped := log.dropped + Kept(callQueue, livefeedMap, false));
      callQueue := Kept(callQueue, livefeedMap, true);
      if call.Some? && !IsActive(livefeedMap, call.value) {
        SkipCall();
      }
    }

    method Resubscribe()
      requires Counted()
      modifies this
      ensures Counted() && View() == Resubscribed(old(View()))
    {
      if livefeedMode == Online {
        BeginLivefeed();
      }
    }

    /** rebuildCategories and then resubscribing. */
    method Announce()
      requires Counted()
      modifies this
      ensures Counted() && View() == Announced(old(View()))
    {
      hide Rebuilt, RebuildThrows, Resubscribed;
      ghost var s := View();
      AnnouncedFrame(s);
      SameThrows(Rebuilt(s).feeds, s.feeds);
      var ok := RebuildCategories();
      if ok {
        Resubscribe();
      }
    }

    /** The common tail of both holds: the queue is cleaned, which may throw, and the map announced. */
    method SettleHold()
      requires Counted()
      modifies this
      ensures Counted() && View() == HoldSettled(old(View()))
    {
      hide Cleaned, Announced;
      var emptyPage := livefeedMode == Playback && playbackPending.None? && playbackList.Some? &&
        playbackList.value.results == [];
      var unwanted := call.Some? && !IsActive(livefeedMap, call.value);
      CleanQueue();
      if unwanted && emptyPage {
        return;
      }
      Announce();
    }

    method ToggleHoldSystem()
      requires Counted()
      modifies this
      ensures Counted() && View() == HeldSystem(old(View()))
    {
      hide Announced, HoldSettled, ReleasedTalkgroup, TalkgroupReleaseThrows;
      var current := if call.Some? then call else callPrevious;
      if current.None? {
        return;
      }
      if priorToHoldSystem.Some? {
        livefeedMap := priorToHoldSystem.value;
        priorToHoldSystem := None;
        Announce();
      } else {
        ReleasedFrame(View());
        var ok := ReleaseTalkgroup();
        if !ok {
          return;
        }
        priorToHoldSystem := Some(livefeedMap);
        livefeedMap := RestrictToSystem(livefeedMap, current.value.system);
        SettleHold();
      }
    }

    method ToggleHoldTalkgroup()
      requires Counted()
      modifies this
      ensures Counted() && View() == HeldTalkgroup(old(View()))
    {
      hide Announced, HoldSettled, ReleasedSystem, SystemReleaseThrows;
      var current := if call.Some? then call else callPrevious;
      if current.None? {
        return;
      }
      if priorToHoldTalkgroup.Some? {
        livefeedMap := priorToHoldTalkgroup.value;
        priorToHoldTalkgroup := None;
        Announce();
      } else {
        ReleasedFrame(View());
        var ok := ReleaseSystem();
        if !ok {
          return;
        }
        priorToHoldTalkgroup := Some(livefeedMap);
        livefeedMap := OnlyTalkgroup(livefeedMap, current.value.system, current.value.talkgroup);
        SettleHold();
      }
    }

    // ---- Changes of the live map ----

    method AvoidCalls(options: AvoidOptions)
      requires Counted()
      modifies this
      ensures Counted() && View() == Avoided(old(View()), options)
    {
      hide Cleaned, Announced, AllSet, TalkgroupSet, SystemSet;
      priorToHoldSystem, priorToHoldTalkgroup := None, None;
      match options {
        case All(flag) =>
          livefeedMap := AllSet(livefeedMap, flag);
        case OfTalkgroup(sys, tg, status) =>
          if !Known(livefeedMap, sys, tg) { return; }
          livefeedMap := TalkgroupSet(livefeedMap, sys, tg, status);
        case OfSystem(sys, status) =>
          if sys !in livefeedMap { return; }
          livefeedMap := SystemSet(livefeedMap, sys, status);
        case OfCurrent(status) =>
          var current := if call.Some? then call else callPrevious;
          if current.Some? {
            var c := current.value;
            if !Known(livefeedMap, c.system, c.talkgroup) { return; }
            livefeedMap := TalkgroupSet(livefeedMap, c.system, c.talkgroup, status);
          }
      }
      ghost var s := View();
      if livefeedMode != Playback {
        CleanQueue();
      }
      Announce();
      assert View() == AfterAvoid(s);
    }

    /** The nested scan of the configured systems. For every map: it sets exactly the talkgroups that carry the label,
        or stops with an exception at the first that cannot be read. */
    method SetCategory(kind: C.Kind, name: string, flag: bool) returns (ok: bool)
      requires Counted()
      modifies this
      ensures Counted() && View() == WithLive(old(View()), livefeedMap)
      ensures C.Scan(livefeedMap, !ok) == C.ScanSystems(config.systems, kind, name, flag, old(livefeedMap))
      ensures ok == C.Settable(config.systems, kind, name, old(livefeedMap))
      ensures ok ==> livefeedMap == C.Toggled(config.systems, kind, name, flag, old(livefeedMap))
    {
      hide C.Toggled, C.Settable, C.ScanSystems, C.ScanTalkgroups, Set;
      ghost var was := View();
      ghost var whole := C.ScanSystems(config.systems, kind, name, flag, livefeedMap);
      C.ScanIsToggle(config.systems, kind, name, flag, livefeedMap);
      var i := 0;
      while i < |config.systems|
        invariant 0 <= i <= |config.systems|
        invariant Counted() && View() == WithLive(was, livefeedMap)
        invariant whole == C.ScanSystems(config.systems[i..], kind, name, flag, livefeedMap)
      {
        var s := config.systems[i];
        var j := 0;
        ghost var row := C.ScanTalkgroups(s.id, s.talkgroups, kind, name, flag, livefeedMap);
        C.ScanSystemStep(config.systems[i..], kind, name, flag, livefeedMap);
        assert config.systems[i..][1..] == config.systems[i + 1..];
        assert s.talkgroups[0..] == s.talkgroups;
        while j < |s.talkgroups|
          invariant 0 <= j <= |s.talkgroups|
          invariant Counted() && View() == WithLive(was, livefeedMap)
          invariant row == C.ScanTalkgroups(s.id, s.talkgroups[j..], kind, name, flag, livefeedMap)
        {
          var t := s.talkgroups[j];
          assert s.talkgroups[j..][1..] == s.talkgroups[j + 1..];
          C.ScanStep(s.id, s.talkgroups[j..], kind, name, flag, livefeedMap);
          if s.id !in livefeedMap {
            return false;
          }
          if C.LabelOf(kind, t) == name {
            if t.id !in livefeedMap[s.id] {
              return false;
            }
            livefeedMap := Set(livefeedMap, s.id, t.id, flag);
          }
          j := j + 1;
        }
        C.ScanStep(s.id, s.talkgroups[j..], kind, name, flag, livefeedMap);
        i := i + 1;
      }
      C.ScanSystemStep(config.systems[i..], kind, name, flag, livefeedMap);
      ok := true;
    }

    method ToggleCategory(category: C.Category)
      requires Counted()
      modifies this
      ensures Counted() && View() == Switched(old(View()), category)
    {
      hide C.ScanSystems, C.Toggled, C.Settable, Rebuilt, RebuildThrows, Resubscribed, Cleaned;
      priorToHoldSystem, priorToHoldTalkgroup := None, None;
      var ok := SetCategory(category.kind, category.name, category.status != C.On);
      if !ok {
        return;
      }
      ghost var s := View();
      AnnouncedFrame(s);
      SameThrows(Rebuilt(s).feeds, s.feeds);
      ok := RebuildCategories();
      if !ok {
        return;
      }
      if call.Some? && call.value.system !in livefeedMap {
        return;
      }
      Resubscribe();
      CleanQueue();
    }

    method ReceiveConfig(received: C.Config)
      requires Counted()
      modifies this
      ensures Counted() && View() == Configured(old(View()), received)
    {
      hide Announced, C.RebuildMap;
      config := received;
      var rebuilt := C.RebuildMap(config.systems, livefeedMap, groups, tags, map[]);
      if priorToHoldSystem.Some? {
        priorToHoldSystem := Some(rebuilt);
      } else if priorToHoldTalkgroup.Some? {
        priorToHoldTalkgroup := Some(rebuilt);
      } else {
        livefeedMap := rebuilt;
      }
      Announce();
    }

    method AvoidTimerExpires(sys: nat, tg: nat)
      requires Counted()
      modifies this
      ensures Counted() && View() == Unavoided(old(View()), sys, tg)
    {
      hide Rebuilt;
      if priorToHoldSystem.None? && priorToHoldTalkgroup.None? && Known(livefeedMap, sys, tg) {
        livefeedMap := Set(livefeedMap, sys, tg, true);
        var _ := RebuildCategories();
      }
    }

    // ---- One event ----

    method ReceivePlayReply(c: Call)
      requires Counted()
      modifies this
      ensures Counted() && View() == Step(old(View()), PlayReply(c))
    {
      if playbackPending == Some(c.id) {
        playbackPending := None;
        Queue(c, true);
      } else {
        Queue(c, false);
      }
    }

    method ReceiveList(l: PlaybackList)
      requires Counted()
      modifies this
      ensures Counted() && View() == Step(old(View()), ListReply(l))
    {
      playbackList := Some(l);
      if livefeedMode == Playback {
        PlaybackNextCall();
      }
    }

    method AudioDecoded()
      requires Counted()
      modifies this
      ensures Counted() && View() == Step(old(View()), Decoded)
    {
      if audioSource || call.None? {
        return;
      }
      audioSource := true;
    }

    method AudioEnded()
      requires Counted()
      modifies this
      ensures Counted() && View() == Step(old(View()), Ended)
    {
      hide Skipped;
      if audioSource {
        SkipAfterDelay();
      }
    }

    method DelayElapsed()
      requires Counted()
      modifies this
      ensures Counted() && View() == Step(old(View()), DelayOver)
    {
      if skipDelay {
        skipDelay := false;
        Resume();
      }
    }

    method SetPause(status: bool)
      requires Counted()
      modifies this
      ensures Counted() && View() == Step(old(View()), Pause(status))
    {
      livefeedPaused := status;
      if !status {
        Play();
      }
    }

    method ReplayCall()
      requires Counted()
      modifies this
      ensures Counted() && View() == Step(old(View()), Replay)
    {
      var current := if call.Some? then call else callPrevious;
      if current.Some? {
        PlayGiven(current.value);
      } else {
        Play();
      }
    }

    method PressLivefeed()
      requires Counted()
      modifies this
      ensures Counted() && View() == Step(old(View()), Event.Livefeed)
    {
      match livefeedMode {
        case Offline => BeginLivefeed();
        case Online => EndLivefeed();
        case Playback => StopPlaybackMode();
      }
    }

    /** Every event is one method call: the player takes the step of the model, and is safe again with every arrival
        accounted for. */
    method Handle(e: Event)
      requires Valid()
      modifies this
      ensures Valid() && View() == Step(old(View()), e) && DeckLaw(old(View()), e, View())
    {
      hide Sane, Traced, DeckLaw;
      StepObeys(View(), e);
      StepSane(View(), e);
      StepTraced(View(), e);
      Dispatch(e);
    }

    method Dispatch(e: Event)
      requires Counted()
      modifies this
      ensures Counted() && View() == Step(old(View()), e)
    {
      hide Step, Counted;
      if OfAudio(e) || OfWalk(e) {
        DispatchPlaying(e);
      } else {
        DispatchFeed(e);
      }
    }

    method DispatchPlaying(e: Event)
      requires Counted() && (OfAudio(e) || OfWalk(e))
      modifies this
      ensures Counted() && View() == Step(old(View()), e)
    {
      hide Enqueued, Played, PlayedCall, Skipped, Next, Resumed, Requested, QueueCount, Counted;
      match e {
        case LiveCall(c) => Queue(c, false);
        case PlayReply(c) => ReceivePlayReply(c);
        case ListReply(l) => ReceiveList(l);
        case Decoded => AudioDecoded();
        case DecodeFailed => SkipCall();
        case Ended => AudioEnded();
        case DelayOver => DelayElapsed();
        case Pause(status) => SetPause(status);
        case PlayCall(c) => PlayGiven(c);
        case Replay => ReplayCall();
        case Skip => SkipCall();
        case Stop => HaltPlaying();
        case LoadAndPlay(id) => LoadAndPlayCall(id);
        case Search(query) => SendToWebsocket(ListCalls(query));
      }
    }

    method DispatchFeed(e: Event)
      requires Counted() && !OfAudio(e) && !OfWalk(e)
      modifies this
      ensures Counted() && View() == Step(old(View()), e)
    {
      hide HeldSystem, HeldTalkgroup, Avoided, Configured, Unavoided, Switched, Stopped, LeftPlayback, WentLive,
           Counted;
      match e {
        case NewConfig(received) => ReceiveConfig(received);
        case AvoidOver(sys, tg) => AvoidTimerExpires(sys, tg);
        case HoldSystem => ToggleHoldSystem();
        case HoldTalkgroup => ToggleHoldTalkgroup();
        case Livefeed => PressLivefeed();
        case StartLivefeed => BeginLivefeed();
        case StopLivefeed => EndLivefeed();
        case StopPlayback => StopPlaybackMode();
        case Avoid(options) => AvoidCalls(options);
        case Toggle(category) => ToggleCategory(category);
      }
    }
  }
}
