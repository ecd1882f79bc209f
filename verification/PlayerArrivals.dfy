/** The fate of every call that entered the queue, over every run of the player. */
module PlayerArrivals {
  import opened Feed
  import opened PlayerModel
  import opened PlayerFrames
  import C = Categories

  datatype Trace = Trace(arrivals: seq<Call>, taken: seq<Entry>, queue: seq<Entry>, dropped: seq<Entry>)

  function TraceOf(s: State): Trace {
    Trace(s.log.arrivals, s.log.taken, s.deck.queue, s.log.dropped)
  }

  function Everywhere(t: Trace): multiset<Entry> {
    multiset(t.taken) + multiset(t.queue) + multiset(t.dropped)
  }

  predicate Genuine(t: Trace, e: Entry) {
    e.stamp == PRIORITY || (0 <= e.stamp < |t.arrivals| && e.call == t.arrivals[e.stamp])
  }

  /** Every arrival was taken, still waits or was dropped: exactly one of these, and once. */
  predicate Accounted(t: Trace) {
    (forall k | 0 <= k < |t.arrivals| :: Everywhere(t)[Entry(t.arrivals[k], k)] == 1) &&
    (forall e | e in Everywhere(t) :: Genuine(t, e))
  }

  predicate InOrder(es: seq<Entry>) {
    forall i, j | 0 <= i < j < |es| :: es[i].stamp != PRIORITY && es[j].stamp != PRIORITY ==> es[i].stamp < es[j].stamp
  }

  /** The calls taken from the queue, followed by the queue, are in order of arrival. */
  predicate Traced(t: Trace) {
    Accounted(t) && InOrder(t.taken + t.queue)
  }

  lemma TakeTraced(t: Trace)
    requires Traced(t) && t.queue != []
    ensures Traced(t.(taken := t.taken + [t.queue[0]], queue := t.queue[1..]))
  {
    var t' := t.(taken := t.taken + [t.queue[0]], queue := t.queue[1..]);
    assert t.queue == [t.queue[0]] + t.queue[1..];
    assert t'.taken + t'.queue == t.taken + t.queue;
    assert Everywhere(t') == Everywhere(t);
  }

  lemma ArriveTraced(t: Trace, c: Call)
    requires Traced(t)
    ensures Traced(t.(queue := t.queue + [Entry(c, |t.arrivals|)], arrivals := t.arrivals + [c]))
  {
    var e := Entry(c, |t.arrivals|);
    var t' := t.(queue := t.queue + [e], arrivals := t.arrivals + [c]);
    assert Everywhere(t') == Everywhere(t) + multiset{e};
    assert !Genuine(t, e);
    forall x | x in Everywhere(t') ensures Genuine(t', x) {
      if x in Everywhere(t) { assert Genuine(t, x); }
    }
    forall k | 0 <= k < |t'.arrivals| ensures Everywhere(t')[Entry(t'.arrivals[k], k)] == 1 {
      if k < |t.arrivals| { assert Entry(t.arrivals[k], k) != e; }
    }
    forall x | x in t.taken + t.queue ensures x.stamp < |t.arrivals| {
      assert x in Everywhere(t);
    }
    assert t'.taken + t'.queue == t.taken + t.queue + [e];
  }

  lemma PriorityTraced(t: Trace, c: Call)
    requires Traced(t)
    ensures Traced(t.(queue := [Entry(c, PRIORITY)] + t.queue))
  {
    var e := Entry(c, PRIORITY);
    var t' := t.(queue := [e] + t.queue);
    assert Everywhere(t') == Everywhere(t) + multiset{e};
    forall x | x in Everywhere(t') ensures Genuine(t', x) {
      if x in Everywhere(t) { assert Genuine(t, x); }
    }
    var n := |t.taken|;
    var old' := t.taken + t.queue;
    var now := t'.taken + t'.queue;
    assert forall i | 0 <= i < n :: now[i] == old'[i];
    assert forall i | n < i < |now| :: now[i] == old'[i - 1];
  }

  lemma KeptSteps(q: seq<Entry>, m: FeedMap)
    ensures q == [] ==> Kept(q, m, true) == [] && Kept(q, m, false) == []
    ensures q != [] && IsActive(m, q[0].call) ==>
              Kept(q, m, true) == [q[0]] + Kept(q[1..], m, true) && Kept(q, m, false) == Kept(q[1..], m, false)
    ensures q != [] && !IsActive(m, q[0].call) ==>
              Kept(q, m, false) == [q[0]] + Kept(q[1..], m, false) && Kept(q, m, true) == Kept(q[1..], m, true)
  {
  }

  lemma {:induction false} KeptSplits(q: seq<Entry>, m: FeedMap)
    ensures multiset(q) == multiset(Kept(q, m, true)) + multiset(Kept(q, m, false))
  {
    hide IsActive, Kept;
    KeptSteps(q, m);
    if q != [] {
      KeptSplits(q[1..], m);
      assert q == [q[0]] + q[1..];
    }
  }

  lemma {:induction false} KeptInOrder(before: seq<Entry>, q: seq<Entry>, m: FeedMap)
    requires InOrder(before + q)
    ensures InOrder(before + Kept(q, m, true))
    decreases |q|
  {
    if q != [] {
      if IsActive(m, q[0].call) {
        assert before + q == before + [q[0]] + q[1..];
        KeptInOrder(before + [q[0]], q[1..], m);
        assert before + Kept(q, m, true) == before + [q[0]] + Kept(q[1..], m, true);
      } else {
        var a, b := before + q, before + q[1..];
        var n := |before|;
        assert forall i | 0 <= i < n :: b[i] == a[i];
        assert forall i | n <= i < |b| :: b[i] == a[i + 1];
        KeptInOrder(before, q[1..], m);
        assert Kept(q, m, true) == Kept(q[1..], m, true);
      }
    }
  }

  lemma CleanTraced(t: Trace, m: FeedMap)
    requires Traced(t)
    ensures Traced(t.(queue := Kept(t.queue, m, true), dropped := t.dropped + Kept(t.queue, m, false)))
  {
    var t' := t.(queue := Kept(t.queue, m, true), dropped := t.dropped + Kept(t.queue, m, false));
    KeptSplits(t.queue, m);
    KeptInOrder(t.taken, t.queue, m);
    assert Everywhere(t') == Everywhere(t);
    forall x | x in Everywhere(t') ensures Genuine(t', x) {
      assert Genuine(t, x);
    }
  }

  lemma ClearTraced(t: Trace)
    requires Traced(t)
    ensures Traced(t.(queue := [], dropped := t.dropped + t.queue))
  {
    var t' := t.(queue := [], dropped := t.dropped + t.queue);
    assert Everywhere(t') == Everywhere(t);
    assert t'.taken + t'.queue == t.taken;
    assert forall i | 0 <= i < |t.taken| :: t.taken[i] == (t.taken + t.queue)[i];
    forall x | x in Everywhere(t') ensures Genuine(t', x) {
      assert Genuine(t, x);
    }
  }

  // ---- The same, for the steps ----

  lemma PlayedTraced(s: State)
    requires Traced(TraceOf(s))
    ensures Traced(TraceOf(Played(s)))
  {
    hide Traced, QueueCount;
    if s.deck.queue != [] { TakeTraced(TraceOf(s)); }
  }

  lemma EnqueuedTraced(s: State, c: Call, priority: bool)
    requires Traced(TraceOf(s))
    ensures Traced(TraceOf(Enqueued(s, c, priority)))
  {
    hide Traced, Played;
    PriorityTraced(TraceOf(s), c);
    ArriveTraced(TraceOf(s), c);
    var s' := if priority then s.(deck := s.deck.(queue := [Entry(c, PRIORITY)] + s.deck.queue))
              else s.(deck := s.deck.(queue := s.deck.queue + [Entry(c, |s.log.arrivals|)]),
                      log := s.log.(arrivals := s.log.arrivals + [c]));
    assert Traced(TraceOf(s'));
    PlayedTraced(s');
  }

  lemma RequestedTrace(s: State, id: nat)
    ensures TraceOf(Requested(s, id)) == TraceOf(s)
  {
    hide ReleasedSystem, ReleasedTalkgroup, SystemReleaseThrows, TalkgroupReleaseThrows;
    ReleasedFrame(Freed(s, id));
    ReleasedFrame(ReleasedSystem(Freed(s, id)));
  }

  lemma NextTraced(s: State)
    requires Traced(TraceOf(s))
    ensures Traced(TraceOf(Next(s)))
  {
    hide Traced, Requested;
    forall id: nat { RequestedTrace(s, id); }
    ClearTraced(TraceOf(s));
  }

  lemma ResumedTraced(s: State)
    requires Traced(TraceOf(s))
    ensures Traced(TraceOf(Resumed(s)))
  {
    hide Traced, Next, Played;
    NextTraced(s);
    PlayedTraced(s);
  }

  lemma CleanedTraced(s: State)
    requires Traced(TraceOf(s))
    ensures Traced(TraceOf(Cleaned(s)))
  {
    hide Traced, Resumed, Kept;
    CleanTraced(TraceOf(s), s.feeds.live);
    var s' := s.(deck := s.deck.(queue := Kept(s.deck.queue, s.feeds.live, true)),
                 log := s.log.(dropped := s.log.dropped + Kept(s.deck.queue, s.feeds.live, false)));
    ResumedTraced(Undelayed(Halted(s')));
  }

  lemma SettledTraced(s: State)
    requires Traced(TraceOf(s))
    ensures Traced(TraceOf(HoldSettled(s))) && Traced(TraceOf(AfterAvoid(s)))
  {
    hide Traced, Cleaned, Announced, CleaningThrows;
    CleanedTraced(s);
    AnnouncedFrame(s);
    AnnouncedFrame(Cleaned(s));
  }

  lemma HeldTraced(s: State)
    requires Traced(TraceOf(s))
    ensures Traced(TraceOf(HeldSystem(s))) && Traced(TraceOf(HeldTalkgroup(s)))
  {
    hide Traced, HoldSettled, Announced, ReleasedSystem, ReleasedTalkgroup, SystemReleaseThrows, TalkgroupReleaseThrows,
         RestrictToSystem, OnlyTalkgroup;
    ReleasedFrame(s);
    if Current(s).Some? {
      var c := Current(s).value;
      if s.feeds.heldSystem.Some? {
        AnnouncedFrame(s.(feeds := s.feeds.(live := s.feeds.heldSystem.value, heldSystem := None)));
      }
      if s.feeds.heldTalkgroup.Some? {
        AnnouncedFrame(s.(feeds := s.feeds.(live := s.feeds.heldTalkgroup.value, heldTalkgroup := None)));
      }
      SettledTraced(WithSystemHeld(ReleasedTalkgroup(s), c.system));
      SettledTraced(WithTalkgroupHeld(ReleasedSystem(s), c.system, c.talkgroup));
    }
  }

  lemma AvoidedTraced(s: State, o: AvoidOptions)
    requires Traced(TraceOf(s))
    ensures Traced(TraceOf(Avoided(s, o)))
  {
    hide Traced, AfterAvoid, AvoidedMap;
    if AvoidedMap(s, o).Some? {
      SettledTraced(WithLive(s.(feeds := s.feeds.(heldSystem := None, heldTalkgroup := None)), AvoidedMap(s, o).value));
    }
  }

  lemma SwitchedTraced(s: State, c: C.Category)
    requires Traced(TraceOf(s))
    ensures Traced(TraceOf(Switched(s, c)))
  {
    hide Traced, Cleaned, Rebuilt, RebuildThrows, Resubscribed, ScanOf;
    var s1 := s.(feeds := s.feeds.(heldSystem := None, heldTalkgroup := None, live := ScanOf(s, c).live));
    AnnouncedFrame(s1);
    AnnouncedFrame(Rebuilt(s1));
    CleanedTraced(Resubscribed(Rebuilt(s1)));
  }

  lemma ConfiguredTraced(s: State, config: C.Config, sys: nat, tg: nat)
    ensures TraceOf(Configured(s, config)) == TraceOf(s) && TraceOf(Unavoided(s, sys, tg)) == TraceOf(s)
  {
    hide Announced, Rebuilt, RebuiltLive, Set;
    AnnouncedFrame(WithConfig(s, config));
    if Known(s.feeds.live, sys, tg) {
      AnnouncedFrame(WithLive(s, Set(s.feeds.live, sys, tg, true)));
    }
  }

  lemma StepTraced(s: State, e: Event)
    requires Traced(TraceOf(s))
    ensures Traced(TraceOf(Step(s, e)))
  {
    hide Traced, Played, Enqueued, Resumed, Next, HeldSystem, HeldTalkgroup, Avoided, Switched, Requested, Configured,
         Unavoided, QueueCount;
    match e {
      case LiveCall(c) => EnqueuedTraced(s, c, false);
      case PlayReply(c) =>
        EnqueuedTraced(s, c, false);
        EnqueuedTraced(s.(walk := s.walk.(pending := None)), c, true);
      case ListReply(l) => NextTraced(s.(walk := s.walk.(list := Some(l))));
      case DecodeFailed => ResumedTraced(Undelayed(Halted(s)));
      case Skip => ResumedTraced(Undelayed(Halted(s)));
      case DelayOver => ResumedTraced(Undelayed(s));
      case Pause(status) => PlayedTraced(WithPause(s, false));
      case Replay => PlayedTraced(s);
      case LoadAndPlay(id) => RequestedTrace(s, id);
      case HoldSystem => HeldTraced(s);
      case HoldTalkgroup => HeldTraced(s);
      case Avoid(o) => AvoidedTraced(s, o);
      case Toggle(c) => SwitchedTraced(s, c);
      case NewConfig(config) => ConfiguredTraced(s, config, 0, 0);
      case AvoidOver(sys, tg) => ConfiguredTraced(s, s.feeds.config, sys, tg);
      case Livefeed => ClearTraced(TraceOf(s));
      case StopLivefeed => ClearTraced(TraceOf(s));
      case StopPlayback => ClearTraced(TraceOf(s));
      case _ =>
    }
  }

  lemma {:induction false} RunTraced(s: State, events: seq<Event>)
    requires Traced(TraceOf(s))
    ensures Traced(TraceOf(Run(s, events)))
    decreases |events|
  {
    if events != [] {
      StepTraced(s, events[0]);
      RunTraced(Step(s, events[0]), events[1..]);
    }
  }

  /** Over every run from the constructed player: each arrival is taken, waiting or dropped, exactly once, and
      taken calls followed by waiting ones are in order of arrival. */
  lemma EveryArrivalAccounted(s: State, events: seq<Event>)
    requires Initial(s)
    ensures
      var t := TraceOf(Run(s, events));
      Accounted(t) && InOrder(t.taken + t.queue)
  {
    RunTraced(s, events);
  }

  /** The calls of the entries that came by arrival and not by priority. */
  function Arrived(es: seq<Entry>): seq<Call>
    decreases |es|
  {
    if es == [] then []
    else
      var e := es[|es| - 1];
      Arrived(es[..|es| - 1]) + if e.stamp == PRIORITY then [] else [e.call]
  }

  /** Entries in order that are genuine, and among which the first n arrivals all occur and nothing later. */
  ghost predicate Covers(es: seq<Entry>, arrivals: seq<Call>, n: nat)
    requires n <= |arrivals|
  {
    && InOrder(es)
    && (forall i | 0 <= i < |es| && es[i].stamp != PRIORITY ::
        0 <= es[i].stamp < n && es[i].call == arrivals[es[i].stamp])
    && (forall k | 0 <= k < n :: Entry(arrivals[k], k) in es)
  }

  lemma LastCovered(most: seq<Entry>, e: Entry, arrivals: seq<Call>, n: nat)
    requires n <= |arrivals| && Covers(most + [e], arrivals, n)
    ensures e.stamp == PRIORITY ==> Covers(most, arrivals, n)
    ensures e.stamp != PRIORITY ==> n > 0 && e == Entry(arrivals[n - 1], n - 1) && Covers(most, arrivals, n - 1)
  {
    var es := most + [e];
    assert es[|most|] == e && forall i | 0 <= i < |most| :: es[i] == most[i];
    if e.stamp != PRIORITY {
      var i :| 0 <= i < |es| && es[i] == Entry(arrivals[n - 1], n - 1);
      assert e.stamp == n - 1;
    }
  }

  lemma SomethingCovered(es: seq<Entry>, arrivals: seq<Call>, n: nat)
    requires 0 < n <= |arrivals| && Covers(es, arrivals, n)
    ensures es != []
  {
    assert Entry(arrivals[0], 0) in es;
  }

  lemma ArrivedStep(most: seq<Entry>, e: Entry)
    ensures Arrived(most + [e]) == Arrived(most) + if e.stamp == PRIORITY then [] else [e.call]
  {
    assert (most + [e])[..|most|] == most;
  }

  lemma {:induction false} CoveredArrived(es: seq<Entry>, arrivals: seq<Call>, n: nat)
    requires n <= |arrivals| && Covers(es, arrivals, n)
    ensures Arrived(es) == arrivals[..n]
    decreases |es|
  {
    hide Covers;
    if n > 0 {
      SomethingCovered(es, arrivals, n);
    }
    if es != [] {
      var most, e := es[..|es| - 1], es[|es| - 1];
      assert es == most + [e];
      hide Arrived;
      LastCovered(most, e, arrivals, n);
      ArrivedStep(most, e);
      if e.stamp == PRIORITY {
        CoveredArrived(most, arrivals, n);
      } else {
        CoveredArrived(most, arrivals, n - 1);
        assert arrivals[..n] == arrivals[..n - 1] + [arrivals[n - 1]];
      }
    }
  }

  /** With nothing dropped, what was taken followed by what waits is exactly the arrivals, in order. */
  lemma NothingDroppedMeansNothingLost(s: State, events: seq<Event>)
    requires Initial(s) && Run(s, events).log.dropped == []
    ensures var t := TraceOf(Run(s, events)); Arrived(t.taken + t.queue) == t.arrivals
  {
    RunTraced(s, events);
    var t := TraceOf(Run(s, events));
    hide Run;
    var es := t.taken + t.queue;
    assert Everywhere(t) == multiset(es);
    forall k | 0 <= k < |t.arrivals| ensures Entry(t.arrivals[k], k) in es {
      assert Everywhere(t)[Entry(t.arrivals[k], k)] == 1;
    }
    forall i | 0 <= i < |es| ensures Genuine(t, es[i]) {
      assert es[i] in Everywhere(t);
    }
    CoveredArrived(es, t.arrivals, |t.arrivals|);
    assert t.arrivals[..|t.arrivals|] == t.arrivals;
  }
}
