/** A listener and its server connection over whole runs: which live calls are ever sent to the listener. */
module LivefeedRuns {
  import opened Feed
  import opened PlayerModel
  import opened LivefeedService
  import opened LivefeedAgreement
  import opened PlayerFrames
  import C = Categories

  /** A live call sent to the listener: the map message in force, and how many messages had been received. */
  datatype Emitted = Emitted(call: Call, basis: int, at: nat)

  /** The current connection begins after the first `start` messages of the player's outbox. `basis` is the last map
      message that the server took over, as an index into the outbox; -1 for none. */
  datatype Link = Link(player: State, start: nat, received: nat, matrix: FeedMap, basis: int, emitted: seq<Emitted>)

  datatype LinkEvent =
    | Player(event: Event)
    | Receive(admitted: bool)             // the next message arrives; it is not looked at before the listener is let in
    | Ingest(call: Call, granted: bool)   // a call is ingested; `granted` is the access test
    | Reconnect                           // a new connection: messages on their way are lost

  ghost predicate Received(l: Link, l': Link, admitted: bool) {
    if l.received >= |l.player.outbox| then l' == l
    else
      var m := l.player.outbox[l.received];
      if m.LivefeedMap? && admitted then
        IsMatrix(l'.matrix, Encoded(m.feed)) &&
          l' == l.(received := l.received + 1, matrix := l'.matrix, basis := l.received)
      else l' == l.(received := l.received + 1)
  }

  ghost predicate Next(l: Link, l': Link, e: LinkEvent) {
    match e
    case Player(event) => l' == l.(player := Step(l.player, event))
    case Receive(admitted) => Received(l, l', admitted)
    case Ingest(c, granted) =>
      l' == if granted && IsActive(l.matrix, c) then l.(emitted := l.emitted + [Emitted(c, l.basis, l.received)]) else l
    case Reconnect =>
      l' == l.(start := |l.player.outbox|, received := |l.player.outbox|, matrix := map[], basis := -1)
  }

  /** A run: each state follows from the one before. */
  ghost predicate IsRun(links: seq<Link>, events: seq<LinkEvent>) {
    |links| == |events| + 1 && forall i | 0 <= i < |events| :: Next(links[i], links[i + 1], events[i])
  }

  ghost predicate Fresh(l: Link) {
    Initial(l.player) && l.start == 0 && l.received == 0 && l.matrix == map[] && l.basis == -1 && l.emitted == []
  }

  ghost predicate MapsFit(outbox: seq<Message>) {
    forall m | m in outbox && m.LivefeedMap? :: Fits(Meant(m.feed))
  }

  // ---- Every live call was asked for ----

  ghost predicate AskedFor(outbox: seq<Message>, e: Emitted) {
    && 0 <= e.basis < e.at <= |outbox|
    && outbox[e.basis].LivefeedMap? && outbox[e.basis].feed.Some?
    && IsActive(outbox[e.basis].feed.value, e.call)
  }

  ghost predicate Based(l: Link) {
    && l.basis < l.received <= |l.player.outbox|
    && (l.basis < 0 ==> l.matrix == map[])
    && (l.basis >= 0 ==>
          l.player.outbox[l.basis].LivefeedMap? && IsMatrix(l.matrix, Encoded(l.player.outbox[l.basis].feed)))
    && (forall e | e in l.emitted :: AskedFor(l.player.outbox, e))
  }

  lemma IngestBased(l: Link, c: Call)
    requires Based(l) && MapsFit(l.player.outbox) && IsActive(l.matrix, c)
    ensures AskedFor(l.player.outbox, Emitted(c, l.basis, l.received))
  {
    hide IsMatrix, Encoded, IsActive, Fits, Meant;
    if l.basis < 0 {
      NothingInNoMap(c);
    } else {
      FiltersAgree(l.matrix, l.player.outbox[l.basis].feed, c);
      var feed := l.player.outbox[l.basis].feed;
      assert Meant(feed) == feed.value by { WhatIsMeant(feed); }
    }
  }

  lemma WhatIsMeant(feed: Option<FeedMap>)
    ensures feed.Some? ==> Meant(feed) == feed.value
  {
  }

  lemma NextBased(l: Link, l': Link, e: LinkEvent)
    requires Based(l) && Next(l, l', e) && MapsFit(l'.player.outbox)
    ensures Based(l')
  {
    hide Step, IsMatrix, Encoded, IsActive, Fits, Meant, Agrees, Drifts;
    match e {
      case Player(event) => StepAgrees(l.player, event);
      case Ingest(c, granted) => if granted && IsActive(l.matrix, c) { IngestBased(l, c); }
      case _ =>
    }
  }

  lemma {:induction false} OutboxGrows(links: seq<Link>, events: seq<LinkEvent>, i: nat, j: nat)
    requires IsRun(links, events) && i <= j < |links|
    ensures links[i].player.outbox <= links[j].player.outbox
    decreases j
  {
    hide Step, Agrees, Drifts;
    if i < j {
      OutboxGrows(links, events, i, j - 1);
      assert Next(links[j - 1], links[j - 1 + 1], events[j - 1]);
      if events[j - 1].Player? {
        StepAgrees(links[j - 1].player, events[j - 1].event);
      }
    }
  }

  lemma {:induction false} RunBased(links: seq<Link>, events: seq<LinkEvent>, n: nat)
    requires IsRun(links, events) && Fresh(links[0]) && n < |links| && MapsFit(links[n].player.outbox)
    ensures Based(links[n])
    decreases n
  {
    hide Based, Next;
    if n == 0 {
      FreshBased(links[0]);
    } else {
      assert Next(links[n - 1], links[n - 1 + 1], events[n - 1]);
      OutboxGrows(links, events, n - 1, n);
      assert MapsFit(links[n - 1].player.outbox);
      RunBased(links, events, n - 1);
      NextBased(links[n - 1], links[n], events[n - 1]);
    }
  }

  lemma FreshBased(l: Link)
    requires Fresh(l)
    ensures Based(l)
  {
  }

  /** Over every run, in whatever order messages, calls and reconnections come: each live call sent to the listener
      was enabled by a map that the player had sent before. */
  lemma EmittedWasAskedFor(links: seq<Link>, events: seq<LinkEvent>, e: Emitted)
    requires IsRun(links, events) && Fresh(links[0])
    requires var last := links[|events|]; MapsFit(last.player.outbox) && e in last.emitted
    ensures AskedFor(links[|events|].player.outbox, e)
  {
    hide Next, MapsFit, AskedFor;
    RunBased(links, events, |events|);
  }

  // ---- The two filters over whole runs ----

  ghost predicate Steady(e: LinkEvent) {
    e != Receive(false)
  }

  /** The matrix is what the last map message received over this connection stands for. */
  ghost predicate Follows(l: Link) {
    && l.start <= l.received <= |l.player.outbox|
    && IsMatrix(l.matrix, Encoded(LastMap(l.player.outbox[l.start..l.received])))
  }

  lemma NextFollows(l: Link, l': Link, e: LinkEvent)
    requires Follows(l) && Next(l, l', e) && Steady(e)
    ensures Follows(l')
  {
    hide Step, IsMatrix, Encoded, Agrees, Drifts, LastMap;
    match e {
      case Player(event) =>
        StepAgrees(l.player, event);
        assert l'.player.outbox[l.start..l.received] == l.player.outbox[l.start..l.received];
      case Receive(_) =>
        if l.received < |l.player.outbox| {
          LastMapStep(l.player.outbox, l.start, l.received);
        }
      case Reconnect =>
        assert l'.player.outbox[l'.start..l'.received] == [];
        NothingSent();
      case _ =>
    }
  }

  lemma NothingSent()
    ensures LastMap([]) == None && IsMatrix(map[], Encoded(None))
  {
  }

  lemma LastMapStep(outbox: seq<Message>, start: nat, n: nat)
    requires start <= n < |outbox|
    ensures LastMap(outbox[start..n + 1]) == if outbox[n].LivefeedMap? then outbox[n].feed
              else LastMap(outbox[start..n])
  {
    assert outbox[start..n + 1][..n - start] == outbox[start..n];
  }

  lemma {:induction false} RunFollows(links: seq<Link>, events: seq<LinkEvent>, n: nat)
    requires IsRun(links, events) && Fresh(links[0]) && n < |links| && forall i | 0 <= i < n :: Steady(events[i])
    ensures Follows(links[n])
    decreases n
  {
    hide Next;
    if n > 0 {
      assert Next(links[n - 1], links[n - 1 + 1], events[n - 1]);
      RunFollows(links, events, n - 1);
      NextFollows(links[n - 1], links[n], events[n - 1]);
    }
  }

  /** The player has sent a map over the current connection. */
  ghost predicate Told(l: Link)
    requires l.start <= |l.player.outbox|
  {
    exists m | m in l.player.outbox[l.start..] :: m.LivefeedMap?
  }

  lemma {:induction false} LastMapOfRest(outbox: seq<Message>, start: nat)
    requires start <= |outbox|
    ensures (exists m | m in outbox[start..] :: m.LivefeedMap?) ==> LastMap(outbox[start..]) == LastMap(outbox)
    ensures !(exists m | m in outbox[start..] :: m.LivefeedMap?) ==> LastMap(outbox[start..]) == None
    decreases |outbox|
  {
    if start < |outbox| {
      var n := |outbox| - 1;
      var most := outbox[..n];
      assert outbox[start..][..n - start] == most[start..];
      assert outbox[start..] == most[start..] + [outbox[n]];
      LastMapOfRest(most, start);
    }
  }

  /** Once everything sent has been received, and if the player has not drifted from what it sent, the server lets a
      call through exactly when the player is online and wants it, and has sent a map since it last connected. */
  lemma ServerFollowsPlayer(links: seq<Link>, events: seq<LinkEvent>, c: Call)
    requires IsRun(links, events) && Fresh(links[0]) && forall i | 0 <= i < |events| :: Steady(events[i])
    requires
      var last := links[|events|];
      MapsFit(last.player.outbox) && last.received == |last.player.outbox| && Agrees(last.player)
    ensures
      var last := links[|events|];
      && last.start <= |last.player.outbox|
      && (IsActive(last.matrix, c) <==>
            Told(last) && last.player.mode == Online && IsActive(last.player.feeds.live, c))
  {
    hide Next, IsMatrix, Encoded, Fits, IsActive;
    RunFollows(links, events, |events|);
    var last := links[|events|];
    var sent := last.player.outbox[last.start..];
    assert last.player.outbox[last.start..last.received] == sent;
    LastMapOfRest(last.player.outbox, last.start);
    assert forall m | m in sent :: m in last.player.outbox;
    LastMapFits(sent);
    FiltersAgree(last.matrix, LastMap(sent), c);
    hide LastMap;
  }

  /** The configuration a server sends on a new connection makes an online player send its map again, unless recomputing
      the statuses throws. */
  lemma ConfigurationTells(s: State, c: C.Config)
    requires s.mode == Online && !RebuildThrows(WithConfig(s, c).feeds)
    ensures
      var s' := Step(s, NewConfig(c));
      s'.outbox == s.outbox + [LivefeedMap(Some(s'.feeds.live))] && s'.mode == Online
  {
    hide RebuiltLive, RebuildThrows, Rebuilt;
    AnnouncedFrame(WithConfig(s, c));
  }

  lemma {:induction false} LastMapFits(outbox: seq<Message>)
    requires MapsFit(outbox)
    ensures Fits(Meant(LastMap(outbox)))
  {
    if outbox != [] {
      var m := outbox[|outbox| - 1];
      assert m in outbox;
      if !m.LivefeedMap? {
        LastMapFits(outbox[..|outbox| - 1]);
      }
    }
  }

  /** A run whose player never drifts leaves it in agreement with what it sent. */
  lemma {:induction false} NoDriftAgrees(links: seq<Link>, events: seq<LinkEvent>, n: nat)
    requires IsRun(links, events) && Fresh(links[0]) && n < |links|
    requires forall i | 0 <= i < n && events[i].Player? :: !Drifts(links[i].player, events[i].event)
    ensures Agrees(links[n].player)
    decreases n
  {
    hide Step, Drifts;
    if n > 0 {
      assert Next(links[n - 1], links[n - 1 + 1], events[n - 1]);
      NoDriftAgrees(links, events, n - 1);
      if events[n - 1].Player? {
        StepAgrees(links[n - 1].player, events[n - 1].event);
      }
    }
  }
}
