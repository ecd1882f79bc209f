/** The queue over whole runs: calls asked for wait in front of all others. */
module PlayerQueue {
  import opened Feed
  import opened PlayerModel
  import opened PlayerRuns
  import opened PlayerDeck

  // ---- Calls asked for go in front ----

  /** Calls queued by priority precede all others. */
  predicate InFront(q: seq<Entry>) {
    forall i, j | 0 <= i < j < |q| && q[j].stamp == PRIORITY :: q[i].stamp == PRIORITY
  }

  lemma FrontSteps(q: seq<Entry>)
    requires InFront(q)
    ensures q != [] ==> InFront(q[1..])
    ensures forall c: Call :: InFront([Entry(c, PRIORITY)] + q)
    ensures forall c: Call, n: nat :: InFront(q + [Entry(c, n)])
  {
  }

  lemma KeptStep(q: seq<Entry>, m: FeedMap)
    requires q != []
    ensures Kept(q, m, true) == (if IsActive(m, q[0].call) then [q[0]] else []) + Kept(q[1..], m, true)
  {
  }

  /** Cleaning keeps exactly the wanted ones. */
  lemma {:induction false} KeptAreWanted(q: seq<Entry>, m: FeedMap)
    ensures forall x :: x in Kept(q, m, true) <==> x in q && IsActive(m, x.call)
    ensures forall x :: x in Kept(q, m, false) <==> x in q && !IsActive(m, x.call)
  {
    hide IsActive;
    if q != [] {
      KeptAreWanted(q[1..], m);
      assert q == [q[0]] + q[1..];
    }
  }

  lemma {:induction false} KeptInFront(q: seq<Entry>, m: FeedMap)
    requires InFront(q)
    ensures InFront(Kept(q, m, true))
  {
    hide IsActive, Kept;
    if q == [] {
      assert Kept(q, m, true) == [] by { EmptyKept(m); }
    } else {
      KeptStep(q, m);
      FrontSteps(q);
      KeptInFront(q[1..], m);
      KeptAreWanted(q[1..], m);
      var rest := Kept(q[1..], m, true);
      if q[0].stamp != PRIORITY {
        forall x | x in rest ensures x.stamp != PRIORITY {
          var j :| 0 <= j < |q| - 1 && q[1..][j] == x;
          assert q[j + 1] == x;
        }
      }
    }
  }

  lemma EmptyKept(m: FeedMap)
    ensures Kept([], m, true) == []
  {
  }

  /** Whatever moves the deck by its law keeps them there. */
  lemma LawKeepsFront(s: State, e: Event, s': State)
    requires InFront(s.deck.queue) && DeckLaw(s, e, s')
    ensures InFront(s'.deck.queue)
  {
    hide InFront, IsActive, Kept, QueueCount, GetsToCleaning;
    EmptyInFront();
    FrontSteps(s.deck.queue);
    if e.LiveCall? || e.PlayReply? { FrontSteps(Joined(s, e)); }
    KeptInFront(s.deck.queue, s'.feeds.live);
    FrontSteps(Kept(s.deck.queue, s'.feeds.live, true));
  }

  lemma EmptyInFront()
    ensures InFront([])
  {
  }

  /** Over every run, calls asked for precede all others in the queue, so the next one to begin is one of them if any
      waits. */
  lemma {:induction false} RunInFront(s: State, events: seq<Event>)
    requires Sane(s) && InFront(s.deck.queue)
    ensures InFront(Run(s, events).deck.queue)
    decreases |events|
  {
    if events != [] {
      hide Step, Sane, InFront, DeckLaw;
      StepSane(s, events[0]);
      StepObeys(s, events[0]);
      LawKeepsFront(s, events[0], Step(s, events[0]));
      RunInFront(Step(s, events[0]), events[1..]);
    }
  }
}
