/** Playing back search results: from any result to the end of the list, across page fetches, under every
    order in which the server, the audio and the timers may deliver their events. */
module PlaybackTour {
  import opened Feed
  import opened PlayerModel
  import opened PlayerFrames
  import C = Categories

  const SERVER_LIMIT := 500

  function Min(a: nat, b: nat): nat {
    if a < b then a else b
  }

  /** The server's answer to a search over a fixed result sequence: count, echoed options and one page. */
  function Serve(all: seq<nat>, q: Query): PlaybackList {
    var from := Min(q.offset, |all|);
    PlaybackList(|all|, q, all[from..Min(from + Min(q.limit, SERVER_LIMIT), |all|)])
  }

  /** A fixed result sequence, the first position played, and what had been started before. */
  datatype Tour = Tour(all: seq<nat>, limit: nat, descending: bool, start: nat, before: seq<Started>) {
    predicate Valid() {
      && (forall i, j | 0 <= i < j < |all| :: all[i] != all[j])
      && 0 !in all
      && 0 < limit <= SERVER_LIMIT
      && start < |all|
    }

    /** Number of calls to be played. */
    function Length(): nat
      requires Valid()
    {
      if descending then start + 1 else |all| - start
    }

    /** Position of the j-th call played. */
    function At(j: nat): nat
      requires Valid() && j < Length()
    {
      if descending then start - j else start + j
    }

    /** What must have been started once j calls have begun, each with the number of calls still to come. */
    function Expected(j: nat): seq<Started>
      requires Valid() && j <= Length()
    {
      before + seq(j, i requires 0 <= i < j => Started(all[At(i)], Length() - 1 - i))
    }

    predicate Aligned(q: Query, pos: nat) {
      q.limit == limit && q.descending == descending && limit > 0 && q.offset % limit == 0 &&
        q.offset <= pos < q.offset + limit
    }
  }

  datatype Phase =
    | Awaiting    // the call has been requested
    | Parked      // it arrived while paused
    | Playing
    | Resting     // it ended, the delay before the next call runs
    | Turning     // the next page has been requested
    | Refreshing  // the last page has been requested again

  predicate OnPage(t: Tour, s: State, pos: nat) {
    && s.walk.list.Some?
    && t.Aligned(s.walk.list.value.options, pos)
    && s.walk.list.value == Serve(t.all, s.walk.list.value.options)
  }

  predicate Quiet(s: State) {
    !s.deck.audio && s.deck.call.None? && s.deck.queue == [] && s.walk.pending.None?
  }

  predicate Asked(s: State, q: Query) {
    s.outbox != [] && s.outbox[|s.outbox| - 1] == ListCalls(q)
  }

  /** The awaited call has been asked for. */
  predicate AskedCall(s: State) {
    s.walk.pending.Some? && s.outbox != [] && s.outbox[|s.outbox| - 1] == GetCall(s.walk.pending.value)
  }

  predicate After(t: Tour, s: State, j: nat)
    requires t.Valid() && j < t.Length()
  {
    s.deck.previous.Some? && s.deck.previous.value.id == t.all[t.At(j)]
  }

  /** The offset of the page that holds the (j+1)-th call, which is that page's nearest end. */
  predicate Adjoins(t: Tour, q: Query, j: nat)
    requires t.Valid() && j + 1 < t.Length()
  {
    t.Aligned(q, t.At(j + 1)) &&
      (if t.descending then t.At(j + 1) == q.offset + t.limit - 1 else t.At(j + 1) == q.offset)
  }

  /** The tour stands at its j-th call, in the given phase. */
  predicate InPhase(t: Tour, s: State, j: nat, ph: Phase)
    requires t.Valid()
  {
    && s.mode == Playback && j < t.Length()
    && OnPage(t, s, t.At(j))
    && (ph != Resting ==> !s.deck.delay)
    && (ph != Refreshing ==> !s.walk.refreshing)
    && s.log.started == t.Expected(if ph == Awaiting || ph == Parked then j else j + 1)
    && match ph
       case Awaiting =>
         && !s.deck.audio && s.deck.call.None? && s.deck.queue == [] && s.walk.pending == Some(t.all[t.At(j)])
         && AskedCall(s) && (j > 0 ==> After(t, s, j - 1))
       case Parked =>
         && !s.deck.audio && s.deck.call.None? && s.walk.pending.None? && s.deck.paused
         && |s.deck.queue| == 1 && s.deck.queue[0].call.id == t.all[t.At(j)]
         && (j > 0 ==> After(t, s, j - 1))
       case Playing =>
         s.deck.call.Some? && s.deck.call.value.id == t.all[t.At(j)] && s.deck.queue == [] && s.walk.pending.None?
       case Resting =>
         Quiet(s) && s.deck.delay && After(t, s, j)
       case Turning =>
         Quiet(s) && After(t, s, j) && j + 1 < t.Length() && s.outbox != [] && s.outbox[|s.outbox| - 1].ListCalls? &&
         Adjoins(t, s.outbox[|s.outbox| - 1].query, j)
       case Refreshing =>
         Quiet(s) && After(t, s, j) && j + 1 == t.Length() && s.walk.refreshing && Asked(s, s.walk.list.value.options)
  }

  predicate Finished(t: Tour, s: State)
    requires t.Valid()
  {
    && Quiet(s) && !s.deck.delay && !s.walk.refreshing
    && s.mode == (if s.feeds.config.goesLive then Online else Offline)
    && s.log.started == t.Expected(t.Length())
  }

  /** What the server, the audio and the timers may deliver next. The listener may pause at any time, and skip while a
      call is awaited, sounds, is being decoded or has just ended. */
  predicate Fits(t: Tour, s: State, e: Event) {
    match e
    case PlayReply(c) => s.walk.pending == Some(c.id) && AskedCall(s)
    case Decoded => s.deck.call.Some? && !s.deck.audio
    case DecodeFailed => s.deck.call.Some? && !s.deck.audio
    case Ended => s.deck.audio
    case DelayOver => s.deck.delay
    case Pause(_) => true
    case Skip => s.deck.call.Some? || s.deck.delay || s.walk.pending.Some?
    case ListReply(l) =>
      s.mode == Playback && Quiet(s) && !s.deck.delay && s.outbox != [] && s.outbox[|s.outbox| - 1].ListCalls? &&
      l == Serve(t.all, s.outbox[|s.outbox| - 1].query)
    case _ => false
  }

  // ---- Pages ----

  lemma PageShape(t: Tour, q: Query)
    requires t.Valid() && q.limit == t.limit && q.offset < |t.all|
    ensures
      var l := Serve(t.all, q);
      && l.count == |t.all| && l.options == q
      && |l.results| == Min(q.offset + t.limit, |t.all|) - q.offset
      && (forall i | 0 <= i < |l.results| :: l.results[i] == t.all[q.offset + i])
  {
  }

  lemma PositionOnPage(t: Tour, q: Query, pos: nat)
    requires t.Valid() && pos < |t.all| && q.limit == t.limit
    ensures
      var l := Serve(t.all, q);
      IndexOf(l.results, t.all[pos]) == if q.offset <= pos < q.offset + t.limit then pos - q.offset else -1
  {
  }

  lemma MultipleIsAligned(k: int, limit: nat)
    requires limit > 0
    ensures (k * limit) % limit == 0
  {
    var x := k * limit;
    var d := k - x / limit;
    assert d * limit == x % limit by {
      assert x == (x / limit) * limit + x % limit;
      assert d * limit == k * limit - (x / limit) * limit;
    }
  }

  lemma NeighbourAligned(offset: nat, limit: nat)
    requires limit > 0 && offset % limit == 0
    ensures (offset + limit) % limit == 0
    ensures offset < limit ==> offset == 0
    ensures offset >= limit ==> (offset - limit) % limit == 0
  {
    var k := offset / limit;
    assert offset == k * limit;
    MultipleIsAligned(k + 1, limit);
    MultipleIsAligned(k - 1, limit);
    assert (k + 1) * limit == offset + limit && (k - 1) * limit == offset - limit;
  }

  // ---- One event ----

  lemma AdvanceDown(t: Tour, s: State, j: nat) returns (j': nat, ph: Phase)
    requires t.Valid() && t.descending && j < t.Length() && s.mode == Playback && OnPage(t, s, t.At(j))
    requires Quiet(s) && !s.deck.delay && !s.walk.refreshing && After(t, s, j) && s.log.started == t.Expected(j + 1)
    ensures InPhase(t, Next(s), j', ph)
    ensures (j' == j && (ph == Turning || ph == Refreshing)) || (j' == j + 1 && ph == Awaiting)
  {
    hide t.Expected, Serve, IndexOf, ReleasedSystem, ReleasedTalkgroup, SystemReleaseThrows, TalkgroupReleaseThrows;
    var l := s.walk.list.value;
    PageShape(t, l.options);
    PositionOnPage(t, l.options, t.At(j));
    NeighbourAligned(l.options.offset, t.limit);
    if t.At(j) != l.options.offset {
      j', ph := j + 1, Awaiting;
    } else if l.options.offset < l.options.limit {
      j', ph := j, Refreshing;
    } else {
      j', ph := j, Turning;
    }
  }

  lemma AdvanceUp(t: Tour, s: State, j: nat) returns (j': nat, ph: Phase)
    requires t.Valid() && !t.descending && j < t.Length() && s.mode == Playback && OnPage(t, s, t.At(j))
    requires Quiet(s) && !s.deck.delay && !s.walk.refreshing && After(t, s, j) && s.log.started == t.Expected(j + 1)
    ensures InPhase(t, Next(s), j', ph)
    ensures (j' == j && (ph == Turning || ph == Refreshing)) || (j' == j + 1 && ph == Awaiting)
  {
    hide t.Expected, Serve, IndexOf, ReleasedSystem, ReleasedTalkgroup, SystemReleaseThrows, TalkgroupReleaseThrows;
    var l := s.walk.list.value;
    PageShape(t, l.options);
    PositionOnPage(t, l.options, t.At(j));
    NeighbourAligned(l.options.offset, t.limit);
    if t.At(j) - l.options.offset != |l.results| - 1 {
      j', ph := j + 1, Awaiting;
    } else if l.options.offset < l.count - l.options.limit {
      j', ph := j, Turning;
    } else {
      j', ph := j, Refreshing;
    }
  }

  lemma PageTurned(t: Tour, s: State, j: nat, l: PlaybackList)
    requires t.Valid() && InPhase(t, s, j, Turning) && Fits(t, s, ListReply(l))
    ensures InPhase(t, Step(s, ListReply(l)), j + 1, Awaiting)
  {
    hide t.Expected, Serve, IndexOf, ReleasedSystem, ReleasedTalkgroup, SystemReleaseThrows, TalkgroupReleaseThrows;
    var q := s.outbox[|s.outbox| - 1].query;
    PageShape(t, q);
    PositionOnPage(t, q, t.At(j));
  }

  lemma PageRefreshed(t: Tour, s: State, j: nat, l: PlaybackList)
    requires t.Valid() && InPhase(t, s, j, Refreshing) && Fits(t, s, ListReply(l))
    ensures Finished(t, Step(s, ListReply(l)))
  {
    hide t.Expected, Serve, IndexOf, Requested;
    PageShape(t, l.options);
    PositionOnPage(t, l.options, t.At(j));
    NeighbourAligned(l.options.offset, t.limit);
  }

  /** The count shown when the j-th call begins is the number of calls still to come. */
  lemma CallBegins(t: Tour, s: State, j: nat, c: Call)
    requires t.Valid() && j < t.Length() && s.mode == Playback && OnPage(t, s, t.At(j))
    requires c.id == t.all[t.At(j)] && s.log.started == t.Expected(j)
    ensures Begun(s, c).log.started == t.Expected(j + 1)
  {
  }

  /** The count shown at any moment: while the j-th call plays, rests or ends its page it is the number of calls still
      to come; while a call is awaited it is that number still if the call before it is on the page at hand, and 0
      after a page turn, when the call before is not to be found. */
  lemma CountInTour(t: Tour, s: State, j: nat, ph: Phase)
    requires t.Valid() && InPhase(t, s, j, ph)
    ensures ph.Playing? || ph.Resting? || ph.Turning? || ph.Refreshing? ==> QueueCount(s) == t.Length() - 1 - j
    ensures (ph.Awaiting? || ph.Parked?) && j > 0 ==>
              QueueCount(s) == if t.Aligned(s.walk.list.value.options, t.At(j - 1)) then t.Length() - j else 0
  {
    hide t.Expected, Serve, IndexOf;
    var q := s.walk.list.value.options;
    PageShape(t, q);
    PositionOnPage(t, q, t.At(j));
    if j > 0 {
      PositionOnPage(t, q, t.At(j - 1));
    }
  }

  function Rank(s: State, ph: Phase): nat {
    match ph
    case Awaiting => 5
    case Parked => 4
    case Playing => if s.deck.audio then 2 else 3
    case Resting => 1
    case Turning => 0
    case Refreshing => 0
  }

  /** Lexicographic: calls still to begin, then the phase of the current one. */
  function Measure(t: Tour, s: State, j: nat, ph: Phase): nat
    requires t.Valid() && j < t.Length()
  {
    6 * (t.Length() - j - 1) + Rank(s, ph) + 1
  }

  /** Where a tour may stand, with what is left of its measure. */
  datatype Place = On(j: nat, ph: Phase) | Over

  predicate Stands(t: Tour, s: State, at: Place)
    requires t.Valid()
  {
    match at
    case On(j, ph) => InPhase(t, s, j, ph)
    case Over => Finished(t, s)
  }

  function Left(t: Tour, s: State, at: Place): nat
    requires t.Valid() && Stands(t, s, at)
  {
    match at
    case On(j, ph) => Measure(t, s, j, ph)
    case Over => 0
  }

  lemma RequestAnswered(t: Tour, s: State, j: nat, c: Call) returns (ph: Phase)
    requires t.Valid() && InPhase(t, s, j, Awaiting) && Fits(t, s, PlayReply(c))
    ensures InPhase(t, Step(s, PlayReply(c)), j, ph) && (ph == Parked || ph == Playing)
  {
    hide t.Expected, Serve, Begun;
    var s1 := s.(walk := s.walk.(pending := None));
    var s2 := s1.(deck := s1.deck.(queue := []), log := s1.log.(taken := s1.log.taken + [Entry(c, PRIORITY)]));
    if s.deck.paused {
      ph := Parked;
    } else {
      CallBegins(t, s2, j, c);
      BegunFrame(s2, c);
      assert [Entry(c, PRIORITY)] + [] == [Entry(c, PRIORITY)];
      assert Step(s, PlayReply(c)) == Begun(s2, c);
      ph := Playing;
    }
  }

  lemma BegunFrame(s: State, c: Call)
    ensures
      var r := Begun(s, c);
      r.deck == s.deck.(call := Some(c)) && r.mode == s.mode && r.walk == s.walk && r.feeds == s.feeds &&
        r.outbox == s.outbox
  {
  }

  lemma Unparked(t: Tour, s: State, j: nat)
    requires t.Valid() && InPhase(t, s, j, Parked)
    ensures InPhase(t, Step(s, Pause(false)), j, Playing)
  {
    hide t.Expected, Serve, Begun;
    var s1 := WithPause(s, false);
    var s2 := s1.(deck := s1.deck.(queue := s1.deck.queue[1..]),
                  log := s1.log.(taken := s1.log.taken + [s1.deck.queue[0]]));
    CallBegins(t, s2, j, s.deck.queue[0].call);
    BegunFrame(s2, s.deck.queue[0].call);
  }

  /** A call that cannot be decoded, the delay after one that ended, and a skip of either kind all lead on to the next
      call, or to the end of the page. */
  lemma CallOver(t: Tour, s: State, j: nat, ph: Phase, e: Event) returns (at: Place)
    requires t.Valid() && (e == DecodeFailed || e == DelayOver || e == Skip) && Fits(t, s, e)
    requires InPhase(t, s, j, ph) && (ph == Playing || ph == Resting)
    ensures Stands(t, Step(s, e), at) && Left(t, Step(s, e), at) < Measure(t, s, j, ph)
    ensures at == On(j + 1, Awaiting) || at == On(j, Turning) || at == On(j, Refreshing)
  {
    hide t.Expected, Serve, Next;
    var s' := Undelayed(Halted(s));
    var j', ph;
    if t.descending {
      j', ph := AdvanceDown(t, s', j);
    } else {
      j', ph := AdvanceUp(t, s', j);
    }
    assert Step(s, e) == Next(s');
    at := On(j', ph);
  }

  /** Pausing, and skipping while a call is still awaited, lead nowhere. */
  predicate Idle(s: State, e: Event) {
    e.Pause? || (e.Skip? && s.walk.pending.Some?)
  }

  lemma IdleSkip(t: Tour, s: State, j: nat)
    requires t.Valid() && InPhase(t, s, j, Awaiting)
    ensures Step(s, Skip) == s
  {
  }

  lemma ReplyStep(t: Tour, s: State, j: nat, ph: Phase, e: Event) returns (at: Place)
    requires t.Valid() && InPhase(t, s, j, ph) && Fits(t, s, e) && (e.PlayReply? || e.ListReply?)
    ensures Stands(t, Step(s, e), at) && Left(t, Step(s, e), at) < Measure(t, s, j, ph)
  {
    hide t.Expected, Serve, Next, QueueCount;
    match e {
      case PlayReply(c) =>
        var ph' := RequestAnswered(t, s, j, c);
        at := On(j, ph');
      case ListReply(l) =>
        if ph == Turning {
          PageTurned(t, s, j, l);
          at := On(j + 1, Awaiting);
        } else {
          PageRefreshed(t, s, j, l);
          at := Over;
        }
    }
  }

  lemma DeckStep(t: Tour, s: State, j: nat, ph: Phase, e: Event) returns (at: Place)
    requires t.Valid() && InPhase(t, s, j, ph) && Fits(t, s, e) && !e.PlayReply? && !e.ListReply?
    ensures Stands(t, Step(s, e), at)
    ensures Left(t, Step(s, e), at) + (if Idle(s, e) then 0 else 1) <= Measure(t, s, j, ph)
  {
    hide t.Expected, Serve, Next, QueueCount;
    match e {
      case DecodeFailed => at := CallOver(t, s, j, ph, e);
      case DelayOver => at := CallOver(t, s, j, ph, e);
      case Skip =>
        if ph == Awaiting {
          IdleSkip(t, s, j);
          at := On(j, ph);
        } else {
          at := CallOver(t, s, j, ph, e);
        }
      case Ended => at := On(j, Resting);
      case Pause(status) =>
        at := On(j, ph);
        if ph == Parked && !status {
          Unparked(t, s, j);
          at := On(j, Playing);
        }
      case Decoded => at := On(j, ph);
    }
  }

  /** Whatever is delivered next, the tour goes on to the right place, and anything but an idle event brings it closer
      to its end. */
  lemma StepOfTour(t: Tour, s: State, at: Place, e: Event) returns (at': Place)
    requires t.Valid() && Stands(t, s, at) && Fits(t, s, e)
    ensures Stands(t, Step(s, e), at')
    ensures Left(t, Step(s, e), at') + (if Idle(s, e) then 0 else 1) <= Left(t, s, at)
  {
    match at {
      case Over =>
        assert e.Pause?;
        at' := at;
      case On(j, ph) =>
        hide InPhase, Finished, Step, Fits;
        if e.PlayReply? || e.ListReply? {
          at' := ReplyStep(t, s, j, ph, e);
        } else {
          at' := DeckStep(t, s, j, ph, e);
        }
    }
  }

  /** Every event fits the state it meets. */
  predicate FitAll(t: Tour, s: State, events: seq<Event>)
    decreases |events|
  {
    events == [] || (Fits(t, s, events[0]) && FitAll(t, Step(s, events[0]), events[1..]))
  }

  /** How many of the events are not idle. */
  function Moves(s: State, events: seq<Event>): nat
    decreases |events|
  {
    if events == [] then 0 else (if Idle(s, events[0]) then 0 else 1) + Moves(Step(s, events[0]), events[1..])
  }

  lemma {:induction false} RunOfTour(t: Tour, s: State, at: Place, events: seq<Event>) returns (at': Place)
    requires t.Valid() && Stands(t, s, at) && FitAll(t, s, events)
    ensures Stands(t, Run(s, events), at')
    ensures Moves(s, events) + Left(t, Run(s, events), at') <= Left(t, s, at)
    decreases |events|
  {
    hide InPhase, Step, Fits, Idle;
    at' := at;
    if events != [] {
      var next := StepOfTour(t, s, at, events[0]);
      at' := RunOfTour(t, Step(s, events[0]), next, events[1..]);
    }
  }

  predicate MayStart(t: Tour, s: State) {
    && t.Valid() && t.before == s.log.started
    && s.mode != Online && s.deck.queue == [] && !s.walk.refreshing && OnPage(t, s, t.start)
    && (s.mode == Offline ==> !ReleaseThrows(Freed(s, t.all[t.start])))
  }

  /** Releasing a hold throws, which leaves the call unasked for. */
  predicate ReleaseThrows(s: State) {
    SystemReleaseThrows(s) || TalkgroupReleaseThrows(ReleasedSystem(s))
  }

  lemma TourStarts(t: Tour, s: State)
    requires MayStart(t, s)
    ensures InPhase(t, Step(s, LoadAndPlay(t.all[t.start])), 0, Awaiting)
  {
    hide Serve, IndexOf, ReleasedSystem, ReleasedTalkgroup, SystemReleaseThrows, TalkgroupReleaseThrows;
    var s2 := Freed(s, t.all[t.start]);
    ReleasedFrame(s2);
    ReleasedFrame(ReleasedSystem(s2));
    assert t.Expected(0) == s.log.started;
  }

  /** Playing result `start` of a fixed sequence plays it and every later one towards the end of the list, each
      once and in order across page fetches, announcing each time exactly how many are still to come, whatever the
      listener skips; it ends within six events a call, and when it has ended everything has been played. */
  lemma TourPlaysAll(t: Tour, s: State, events: seq<Event>) returns (played: nat)
    requires MayStart(t, s) && FitAll(t, Step(s, LoadAndPlay(t.all[t.start])), events)
    ensures
      var s' := Run(Step(s, LoadAndPlay(t.all[t.start])), events);
      && played <= t.Length()
      && s'.log.started == t.Expected(played)
      && Moves(Step(s, LoadAndPlay(t.all[t.start])), events) <= 6 * t.Length()
      && (s'.mode != Playback ==>
            played == t.Length() && Quiet(s') && s'.mode == (if s'.feeds.config.goesLive then Online else Offline))
  {
    hide t.Expected, Step, Run;
    TourStarts(t, s);
    var s1 := Step(s, LoadAndPlay(t.all[t.start]));
    var at := RunOfTour(t, s1, On(0, Awaiting), events);
    match at {
      case Over => played := t.Length();
      case On(j, ph) => played := if ph == Awaiting || ph == Parked then j else j + 1;
    }
  }

  /** Until it is over a tour never gets stuck: some event fits, and only a parked call needs the listener. */
  lemma TourProgresses(t: Tour, s: State, j: nat, ph: Phase) returns (e: Event)
    requires t.Valid() && InPhase(t, s, j, ph)
    ensures Fits(t, s, e) && !e.Skip? && (ph != Parked ==> !e.Pause?)
    ensures exists at :: Stands(t, Step(s, e), at) && Left(t, Step(s, e), at) < Measure(t, s, j, ph)
  {
    hide t.Expected, Serve;
    match ph {
      case Awaiting => e := PlayReply(Call(t.all[t.At(j)], 0, 0, []));
      case Parked => e := Pause(false);
      case Playing => e := if s.deck.audio then Ended else Decoded;
      case Resting => e := DelayOver;
      case Turning => e := ListReply(Serve(t.all, s.outbox[|s.outbox| - 1].query));
      case Refreshing => e := ListReply(Serve(t.all, s.outbox[|s.outbox| - 1].query));
    }
    if ph == Parked {
      Unparked(t, s, j);
      assert Stands(t, Step(s, e), On(j, Playing));
    } else {
      var at := StepOfTour(t, s, On(j, ph), e);
    }
  }
}
