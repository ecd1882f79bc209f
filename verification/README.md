# rdio-scanner, modelled in Dafny

rdio-scanner receives recordings of radio calls, stores them, and plays them to listeners, live or from a search. This
project models its logic and proves what it promises. Three parts of the system hold most of the difficulty.

**The listener's player** (`PlayerModel`, `PlayerService`). A queue, a current and a previous call, pause and
skip-delay flags, three live-feed modes, two hold snapshots and a walk over pages of search results. Every public
method and every message, decode result and timer is one event of a state machine. `PlayerService.Player` is the
imperative class with the service's fields; each method is proved to take exactly the step that `PlayerModel` defines,
and the theorems are about all runs of those steps: `PlayerRuns` (safety and no stalled queue), `PlayerArrivals` (the
fate of every call), `PlayerDeck` and `PlayerQueue` (which call begins when, and what waits), `PlayerFlags` and
`PlayerSession` (flags, modes and messages), `PlayerHolds` (conservation), `PlayerCategories`, `Categories` and
`CategoryScan` (shown statuses), `PlayerThrows` (what an exception cuts off), `PlaybackTour` (the walk plays
everything, in order, and ends). `LivefeedService`, `LivefeedAgreement` and `LivefeedRuns` put the server's filter
beside the player's, over all interleavings of the two. `Paging` is the search page.

**The configuration store and ingestion** (`Rows`, `Labels`, `Store`, `StoreRoundTrip`, `Population`, `Ingest`,
`Intake`, `ControllerService`, `Import`, `CallStore`). Lists in memory are reconciled with tables by deleting what is
missing, then inserting or updating, then reading back. Tables are maps, automatic row ids a counter. `CallStore`
holds recordings and their audio files.

**Scopes and text bookkeeping** (`Scope`, `ScopeAgreement`, `LabelIndex`, `Mask`, `MaskNames`, `MaskTable`, `DsdPlus`,
`ImportTree`, `ImportConfig`). Two answers to "may this client see this talkgroup", the label indexes sent to clients,
the mask rewriter, the file name splitter and the import tree.

## Where the code falls short of what one might expect

Each is proved, most of them with the exact condition; the code is modelled as it is.

- After an avoid timer expires the player wants the talkgroup again, but the server is not told and goes on
  withholding its calls (`LivefeedAgreement.StepAgrees`, which names every way the two sides can drift apart, with its
  exact condition; `LivefeedAgreement.SettledDrifts` says which three are left while the statuses can be recomputed).
- A configuration that brings a new talkgroup while something is held makes recomputing the statuses throw: old
  statuses stay on show, and later changes of the live map go untold (`PlayerCategories.StepSettles`,
  `PlayerCategories.StaleAfterHold`, `LivefeedAgreement.StaleMapStays`).
- `Stop` while online leaves waiting calls behind that nothing starts until the next live call or button
  (`PlayerRuns.StepSane`).
- A call that changes a label or creates a talkgroup, and brings only known units, is not saved: the result of merging
  the units replaces what was noted before (`Ingest.UnsavedLoses`, `Controller.IngestCall`).
- One system without row id in the list stops all deletion of systems, so removed ones come back, and renumbered ones
  may be refused (`StoreRoundTrip.UnstoredResurrects`, `StoreRoundTrip.UnstoredRoundTrip`).
- A fractional number in a scope shows a system or talkgroup whose calls are refused
  (`ScopeAgreement.OneSystemAgreesIff`, `ScopeAgreement.ItemsAgreeIff`); unset scopes show everything and let nothing
  through (`ScopeAgreement.UnsetDisagrees`).
- A mask gives captures the wrong names as soon as the noted positions do not grow strictly from left to right
  (`MaskNames.NamesRightIff`, `MaskNames.GroupTalkgroupDate`).
- A page that runs over the end of its block of 200 results comes out empty (`Paging.Search.Turn`,
  `Paging.ThirdPageOf75`).
- Names that are not ASCII do not survive splitting (`DsdPlus.NameComesBack`).
- Two calls without file name that share talkgroup and second share an audio file, even from different systems
  (`CallStore.DefaultNamesMeet`, `CallStore.WriteGives`, `CallStore.OverwrittenRecording`).
- An imported talkgroup whose category is already present without an id gets no group id
  (`ImportConfig.ImportedResolves`).

## Model

| member | source | states |
|---|---|---|
| `PlayerService.Player.Handle` | client/src/app/components/rdio-scanner/rdio-scanner.service.ts:407-669 | one public call or incoming message takes the player exactly one step of the machine, stopping where the source throws, moves the deck by its law, and promises what the runs keep: the player is safe again and every arrival is accounted for |
| `PlayerService.Player.constructor` | client/src/app/components/rdio-scanner/rdio-scanner.service.ts:81-130 | a new player is safe and has no arrivals to account for |
| `PlayerService.Player.Play` | client/src/app/components/rdio-scanner/rdio-scanner.service.ts:477-539 | starts the head of the queue, and only when not paused, not delayed and nothing is current |
| `PlayerService.Player.PlayGiven` | client/src/app/components/rdio-scanner/rdio-scanner.service.ts:477-539 | starts the given call in place of the current one, which becomes the previous one |
| `PlayerService.Player.Queue` | client/src/app/components/rdio-scanner/rdio-scanner.service.ts:541-561 | nothing is queued offline; a priority call goes in front, any other behind; an idle deck starts at once |
| `PlayerService.Player.HaltPlaying` | client/src/app/components/rdio-scanner/rdio-scanner.service.ts:627-645 | stop: audio and current call are gone, the current call is kept as previous |
| `PlayerService.Player.ClearQueue` | client/src/app/components/rdio-scanner/rdio-scanner.service.ts:796-798 | every waiting entry is dropped, none lost from the account |
| `PlayerService.Player.SkipCall` | client/src/app/components/rdio-scanner/rdio-scanner.service.ts:581-609 | halts and undelays, then goes on with the queue or with the walk |
| `PlayerService.Player.SkipAfterDelay` | client/src/app/components/rdio-scanner/rdio-scanner.service.ts:581-609 | the delayed form of skip, used when audio ends: halts and leaves the deck waiting for the timer |
| `PlayerService.Player.Resume` | client/src/app/components/rdio-scanner/rdio-scanner.service.ts:581-609 | in playback the walk goes on, otherwise the queue |
| `PlayerService.Player.SetPause` | client/src/app/components/rdio-scanner/rdio-scanner.service.ts:462-475 | pausing only sets the flag; resuming also plays |
| `PlayerService.Player.ReplayCall` | client/src/app/components/rdio-scanner/rdio-scanner.service.ts:563-565 | plays the current or else the previous call again |
| `PlayerService.Player.LoadAndPlayCall` | client/src/app/components/rdio-scanner/rdio-scanner.service.ts:427-460 | asks for the call; from offline mode playback begins and holds are released |
| `PlayerService.Player.PlaybackQueueCount` | client/src/app/components/rdio-scanner/rdio-scanner.service.ts:885-902 | the count of results still ahead of the current or previous call |
| `PlayerService.Player.PlaybackNextCall` | client/src/app/components/rdio-scanner/rdio-scanner.service.ts:1069-1130 | next call of the page, next page, one refresh at the end, or the end of playback |
| `PlayerService.Player.FinishPlayback` | client/src/app/components/rdio-scanner/rdio-scanner.service.ts:1078-1091 | the end of playback: refresh once, then leave, going live when so configured |
| `PlayerService.Player.StopPlaybackMode` | client/src/app/components/rdio-scanner/rdio-scanner.service.ts:659-669 | leaves playback with an empty queue |
| `PlayerService.Player.BeginLivefeed` | client/src/app/components/rdio-scanner/rdio-scanner.service.ts:611-625 | goes online and sends the live map |
| `PlayerService.Player.EndLivefeed` | client/src/app/components/rdio-scanner/rdio-scanner.service.ts:647-657 | goes offline with an empty queue and sends no map |
| `PlayerService.Player.PressLivefeed` | client/src/app/components/rdio-scanner/rdio-scanner.service.ts:407-417 | starts, stops or leaves playback, by mode |
| `PlayerService.Player.CleanQueue` | client/src/app/components/rdio-scanner/rdio-scanner.service.ts:774-794 | entries whose call is not wanted are dropped, and an unwanted current call is skipped |
| `PlayerService.Player.ReleaseSystem` | client/src/app/components/rdio-scanner/rdio-scanner.service.ts:286-337 | the releasing branch of a system hold, and whether it throws |
| `PlayerService.Player.ReleaseTalkgroup` | client/src/app/components/rdio-scanner/rdio-scanner.service.ts:339-388 | the releasing branch of a talkgroup hold, and whether it throws |
| `PlayerService.Player.SettleHold` | client/src/app/components/rdio-scanner/rdio-scanner.service.ts:316-324 | the tail of setting a hold: the queue is cleaned, which may throw, then statuses and server follow |
| `PlayerService.Player.Announce` | client/src/app/components/rdio-scanner/rdio-scanner.service.ts:319-324 | the statuses are recomputed, and only if that does not throw is the server told |
| `PlayerService.Player.ToggleHoldSystem` | client/src/app/components/rdio-scanner/rdio-scanner.service.ts:286-337 | sets or releases the system hold; a throw of the scans it calls leaves what was assigned before it |
| `PlayerService.Player.ToggleHoldTalkgroup` | client/src/app/components/rdio-scanner/rdio-scanner.service.ts:339-388 | sets or releases the talkgroup hold, likewise |
| `PlayerService.Player.AvoidCalls` | client/src/app/components/rdio-scanner/rdio-scanner.service.ts:146-236 | sets or flips the addressed flags, drops holds, cleans the queue and resubscribes, unless recomputing the statuses throws first |
| `PlayerService.Player.AvoidTimerExpires` | client/src/app/components/rdio-scanner/rdio-scanner.service.ts:153-168 | reactivates the talkgroup and tells nobody |
| `PlayerService.Player.SetCategory` | client/src/app/components/rdio-scanner/rdio-scanner.service.ts:671-726 | for every map: the nested scan sets exactly the talkgroups that carry the label, and stops with an exception exactly when a configured system or such a talkgroup is not in the map |
| `PlayerService.Player.ToggleCategory` | client/src/app/components/rdio-scanner/rdio-scanner.service.ts:671-726 | holds are dropped, the label's talkgroups are set, the statuses rebuilt, the server told, the queue cleaned, up to the first exception |
| `PlayerService.Player.RebuildCategories` | client/src/app/components/rdio-scanner/rdio-scanner.service.ts:1162-1194 | statuses are recomputed from the index for the live map; the exception on a talkgroup missing from a known system leaves what was assigned before it |
| `PlayerService.Player.ReceiveConfig` | client/src/app/components/rdio-scanner/rdio-scanner.service.ts:1196-1224 | the map is rebuilt for the new configuration, into the snapshot when one is held; then statuses and server follow unless recomputing throws |
| `PlayerService.Player.ReceivePlayReply` | client/src/app/components/rdio-scanner/rdio-scanner.service.ts:943-966 | the awaited call enters the queue with priority, any other behind |
| `PlayerService.Player.ReceiveList` | client/src/app/components/rdio-scanner/rdio-scanner.service.ts:1013-1026 | the page is kept, and in playback the walk goes on from it |
| `PlayerRuns.StepSane` | client/src/app/components/rdio-scanner/rdio-scanner.service.ts:427-669 | every event keeps: audio implies a call, a delay implies none, offline implies an empty queue; and an online player not sitting on waiting calls comes to do so exactly on `Stop` and on going live from playback, under the stated condition |
| `PlayerRuns.RunSane` | client/src/app/components/rdio-scanner/rdio-scanner.service.ts:427-669 | the invariant over every run |
| `PlayerRuns.RunNeverStalls` | client/src/app/components/rdio-scanner/rdio-scanner.service.ts:541-609 | over every run without those two events waiting calls always have a current call, a pause, a delay or a request before them |
| `PlayerDeck.StepObeys` | client/src/app/components/rdio-scanner/rdio-scanner.service.ts:427-669 | for every event, which call begins and with what count, what waits afterwards and in what order, and what became of the call before; an unwanted current call is skipped and only wanted ones go on waiting |
| `PlayerDeck.PausedBeginsNothing` | client/src/app/components/rdio-scanner/rdio-scanner.service.ts:477-483 | while paused nothing begins, whatever happens |
| `PlayerDeck.DelayedBeginsNothing` | client/src/app/components/rdio-scanner/rdio-scanner.service.ts:477-483 | while the delay after a call runs nothing begins, unless the delay ends or a skip ends it |
| `PlayerDeck.AwaitedComesNext` | client/src/app/components/rdio-scanner/rdio-scanner.service.ts:541-561 | a call asked for and delivered begins at once on a free deck and is the next to begin on any other; what waits stays as it is |
| `PlayerDeck.SkipOnline` | client/src/app/components/rdio-scanner/rdio-scanner.service.ts:581-609 | online a skip begins the call that waits first |
| `PlayerQueue.KeptAreWanted` | client/src/app/components/rdio-scanner/rdio-scanner.service.ts:774-794 | cleaning keeps exactly the wanted calls |
| `PlayerQueue.RunInFront` | client/src/app/components/rdio-scanner/rdio-scanner.service.ts:541-561 | over every run calls asked for precede all others in the queue |
| `PlayerSession.AudioStays` | client/src/app/components/rdio-scanner/rdio-scanner.service.ts:943-966 | playing, pausing and arriving calls change no mode and send nothing; an awaited call is awaited no more once it arrives |
| `PlayerSession.AskingAsks` | client/src/app/components/rdio-scanner/rdio-scanner.service.ts:427-460 | asking for a call sends the question, awaits the call and turns offline into playback |
| `PlayerSession.NothingAsked` | client/src/app/components/rdio-scanner/rdio-scanner.service.ts:581-609 | outside playback skips, delays and result pages ask for nothing |
| `PlayerSession.SearchAsks` | client/src/app/components/rdio-scanner/rdio-scanner.service.ts:577-579 | a search sends its question and changes nothing |
| `PlayerSession.WalkAsks` | client/src/app/components/rdio-scanner/rdio-scanner.service.ts:1069-1130 | for any page at all: the result asked for is the neighbour of the previous call in the direction of the walk, or that end of the page where it begins; past the other end the next page is asked for while there is one |
| `PlayerSession.ModesChange` | client/src/app/components/rdio-scanner/rdio-scanner.service.ts:407-417 | mode and message of going live, leaving it and leaving playback, and which of them the one button is |
| `PlayerSession.ChangesTell` | client/src/app/components/rdio-scanner/rdio-scanner.service.ts:146-388 | outside playback a change of live map or configuration changes no mode and at most sends the new live map, only online |
| `PlayerFlags.OthersLeaveFeeds` | client/src/app/components/rdio-scanner/rdio-scanner.service.ts:427-669 | events that are not about the live map leave flags, snapshots, configuration and statuses alone |
| `PlayerFlags.AvoidSets` | client/src/app/components/rdio-scanner/rdio-scanner.service.ts:146-236 | exactly the flags an avoid is about get the flag named, else the opposite; holds are given up and no talkgroup comes or goes |
| `PlayerFlags.TimerSets` | client/src/app/components/rdio-scanner/rdio-scanner.service.ts:153-168 | the timer makes its one talkgroup active, unless something is held |
| `PlayerFlags.HoldSystemSets` | client/src/app/components/rdio-scanner/rdio-scanner.service.ts:286-337 | holding the system of the current, else the previous call leaves active what was active in it and puts aside the map it starts from; again gives that back |
| `PlayerFlags.HoldTalkgroupSets` | client/src/app/components/rdio-scanner/rdio-scanner.service.ts:339-388 | holding its talkgroup makes it the only active one, likewise |
| `PlayerFlags.RequestReleases` | client/src/app/components/rdio-scanner/rdio-scanner.service.ts:427-460 | going from offline to playback gives the held map back; any other request leaves the maps alone |
| `PlayerFlags.ConfigurationSets` | client/src/app/components/rdio-scanner/rdio-scanner.service.ts:1196-1224 | a configuration keeps known flags, makes a new talkgroup active unless its group or tag is shown as off, and forgets others; during a hold all that happens to the snapshot |
| `PlayerArrivals.StepTraced` | client/src/app/components/rdio-scanner/rdio-scanner.service.ts:477-561 | every event keeps the account of arrivals |
| `PlayerArrivals.EveryArrivalAccounted` | client/src/app/components/rdio-scanner/rdio-scanner.service.ts:477-561 | over every run each arrival was taken, waits or was dropped, exactly one of these and once; taken followed by waiting is in order of arrival |
| `PlayerArrivals.NothingDroppedMeansNothingLost` | client/src/app/components/rdio-scanner/rdio-scanner.service.ts:477-561 | over every run in which nothing was cleaned or cleared, the non-priority entries of taken followed by waiting are exactly the arrivals |
| `PlayerArrivals.KeptInOrder` | client/src/app/components/rdio-scanner/rdio-scanner.service.ts:774-794 | cleaning keeps the order of what stays |
| `PlayerHolds.StepConserves` | client/src/app/components/rdio-scanner/rdio-scanner.service.ts:286-460 | every event that changes no flags or configuration keeps the base map, at most one snapshot, and the live map as the base, one system of it or one talkgroup of it |
| `PlayerHolds.RunConserves` | client/src/app/components/rdio-scanner/rdio-scanner.service.ts:286-460 | the same over every run, whatever plays meanwhile |
| `PlayerHolds.ReleaseRestores` | client/src/app/components/rdio-scanner/rdio-scanner.service.ts:286-388 | wherever such a run ends, one press of the held button gives back the map it began with |
| `Feed.HeldMapsKeepKeys` | client/src/app/components/rdio-scanner/rdio-scanner.service.ts:302-366 | held maps have the keys of the map they come from; the active flags are those of the system, or the one talkgroup |
| `PlaybackTour.StepOfTour` | client/src/app/components/rdio-scanner/rdio-scanner.service.ts:1069-1130 | whatever is delivered or skipped next, the walk stands at the right call and phase, and its lexicographic measure drops on everything but a pause or a skip while a call is awaited |
| `PlaybackTour.CallOver` | client/src/app/components/rdio-scanner/rdio-scanner.service.ts:581-609 | a failed decoding, the end of the delay, and a skip while a call sounds, decodes or has ended bring the walk to the next call, the next page or the refresh |
| `PlaybackTour.PageTurned` | client/src/app/components/rdio-scanner/rdio-scanner.service.ts:1092-1123 | the page asked for begins with the next call in order |
| `PlaybackTour.PageRefreshed` | client/src/app/components/rdio-scanner/rdio-scanner.service.ts:1078-1091 | after the one refresh of the last page playback is over, with everything played |
| `PlaybackTour.CallBegins` | client/src/app/components/rdio-scanner/rdio-scanner.service.ts:885-902 | a call begins as the next one, and the count shown is the number of calls still to come |
| `PlaybackTour.CountInTour` | client/src/app/components/rdio-scanner/rdio-scanner.service.ts:885-902 | the count in every phase: while a call plays, rests, ends its page or the list is refreshed it is the number of calls still to come; while the next one is awaited it still counts from the call before, and is 0 once the page has turned |
| `PlaybackTour.TourPlaysAll` | client/src/app/components/rdio-scanner/rdio-scanner.service.ts:1069-1130 | from position p, over every run and across page fetches, the calls begun are p, p-1, ... or p, p+1, ..., each once and in order with exact counts, whatever the listener skips or pauses; it takes at most six moves a call, and when playback is over all have been played |
| `PlaybackTour.TourProgresses` | client/src/app/components/rdio-scanner/rdio-scanner.service.ts:1069-1130 | until it is over some event fits and brings it nearer its end; only a parked call needs the listener |
| `Categories.ToggledFlags` | client/src/app/components/rdio-scanner/rdio-scanner.service.ts:671-726 | after a toggle a flag is the new one exactly for talkgroups carrying the label; keys stay |
| `Categories.ScanIsToggle` | client/src/app/components/rdio-scanner/rdio-scanner.service.ts:671-726 | for every map: the scan stops exactly when some system or carrying talkgroup is not in the map, and otherwise it is that toggle |
| `Categories.StatusIsRead` | client/src/app/components/rdio-scanner/rdio-scanner.service.ts:1162-1194 | where no scan throws, a status Off or On is read from talkgroups that are all in the map |
| `Categories.ToggleSettlesStatus` | client/src/app/components/rdio-scanner/rdio-scanner.service.ts:1162-1194 | the status recomputed from the index is Off if it was On, and On if it was Off or Partial |
| `Categories.ToggleKeepsOtherStatus` | client/src/app/components/rdio-scanner/rdio-scanner.service.ts:1162-1194 | with one entry per talkgroup every other label of that kind keeps its status |
| `Categories.ListedIffCarries` | server/group.go:102-168 | an exact index lists a talkgroup under a label exactly when it carries it |
| `Categories.IndexPartitions` | server/group.go:102-168 | with distinct ids no talkgroup is listed under two labels |
| `Categories.RebuildCoversConfig` | client/src/app/components/rdio-scanner/rdio-scanner.service.ts:1196-1224 | after a configuration message the live map covers exactly the configured talkgroups and keeps known flags |
| `Categories.RebuildDefaults` | client/src/app/components/rdio-scanner/rdio-scanner.service.ts:1196-1207 | a talkgroup new to the live map is active exactly unless its group or its tag is shown as off |
| `Categories.StatusMeans` | client/src/app/components/rdio-scanner/rdio-scanner.service.ts:1162-1194 | Off, On and Partial, talkgroup by talkgroup |
| `CategoryScan.AnswerMeans` | client/src/app/components/rdio-scanner/rdio-scanner.service.ts:1164-1170 | one of the two scans of a label throws exactly when it gets to an unknown talkgroup of a known system, every talkgroup before it having the flag; otherwise it says yes exactly when all are known with the flag |
| `CategoryScan.StatusFromScans` | client/src/app/components/rdio-scanner/rdio-scanner.service.ts:1162-1194 | asked talkgroup by talkgroup, the status of a label throws exactly when the stated condition holds and is Off, On or Partial as stated otherwise |
| `PlayerThrows.RebuiltShows` | client/src/app/components/rdio-scanner/rdio-scanner.service.ts:1162-1194 | recomputing the statuses changes nothing else; an exception among the groups leaves all as shown, one among the tags leaves the new groups and no tags |
| `PlayerThrows.ReleaseThrows` | client/src/app/components/rdio-scanner/rdio-scanner.service.ts:286-381 | giving up a hold throws exactly when it gives a map back from which the statuses cannot be read |
| `PlayerThrows.CleaningThrowsIff` | client/src/app/components/rdio-scanner/rdio-scanner.service.ts:1069-1122 | cleaning throws exactly when it skips an unwanted call and the walk then reads beyond the page, which an empty page alone makes it do |
| `PlayerCategories.RunFresh` | client/src/app/components/rdio-scanner/rdio-scanner.service.ts:1162-1194 | over every run in which no configuration upsets a hold and no hold is interrupted, the statuses shown describe the live map |
| `PlayerCategories.StepSettles` | client/src/app/components/rdio-scanner/rdio-scanner.service.ts:1162-1224 | every step leaves maps from which the statuses can be recomputed, if and only if it is not a configuration that arrives during a hold and lists what the held live map lacks; and it keeps the statuses those of the live map unless setting a hold is cut short |
| `PlayerCategories.InitialSettled` | client/src/app/components/rdio-scanner/rdio-scanner.service.ts:81-130 | a new player meets the hypothesis |
| `PlayerCategories.StaleAfterHold` | client/src/app/components/rdio-scanner/rdio-scanner.service.ts:1162-1224 | such a configuration, as auto-population sends for a new talkgroup: recomputing throws and a status On stays on show although the group is On in part |
| `PlayerCategories.ToggleShown` | client/src/app/components/rdio-scanner/rdio-scanner.service.ts:671-726 | in the running player, for groups and tags alike, the toggled status shown flips as above, the other ones stay |
| `LivefeedService.Livefeed.FromMap` | server/livefeed.go:40-73 | for every payload the matrix holds exactly what its well-formed entries say; malformed ones are passed over, anything but an object clears it |
| `LivefeedService.KeysMean` | server/livefeed.go:40-73 | which object keys count and for which id: signs, the limit of 63 bits, and the wrap of negative numbers |
| `LivefeedService.NoOtherKeys` | server/livefeed.go:40-73 | a key that is neither digits nor a sign before digits counts for nothing |
| `LivefeedService.Livefeed.IsEnabled` | server/livefeed.go:90-110 | true exactly for a call whose talkgroup or a patch is enabled |
| `LivefeedService.SentFlags` | client/src/app/components/rdio-scanner/rdio-scanner.service.ts:611-625 | the server reads back exactly the flags the client sent |
| `LivefeedService.FiltersAgree` | server/livefeed.go:40-110 | for the map sent, both filters agree on every call, patches included; after a stop nothing passes |
| `LivefeedAgreement.StepAgrees` | client/src/app/components/rdio-scanner/rdio-scanner.service.ts:146-236 | a step takes the player out of agreement with what it last told the server exactly when it is one of the drifts listed in `Drifts`: an avoid timer reactivates a talkgroup, playback is left while online, or a changed map stays untold because recomputing the statuses, the scan of a toggle or cleaning the queue throws |
| `LivefeedAgreement.SettledDrifts` | client/src/app/components/rdio-scanner/rdio-scanner.service.ts:146-236 | while the maps can be read nothing else throws and three ways to drift are left: the timer, leaving playback, and a toggle while the system of the current call is unknown |
| `LivefeedAgreement.StaleMapStays` | client/src/app/components/rdio-scanner/rdio-scanner.service.ts:214-224 | after a configuration during a hold, switching everything off changes the map and tells the server nothing |
| `LivefeedAgreement.RunAgrees` | client/src/app/components/rdio-scanner/rdio-scanner.service.ts:611-657 | over every run without such a step the server was last told what the player plays live |
| `LivefeedRuns.EmittedWasAskedFor` | server/client.go:248-254 | over every interleaving of player, messages, ingested calls and reconnections, each live call emitted was enabled by a map the player had sent before |
| `LivefeedRuns.ServerFollowsPlayer` | server/controller.go:399-402 | once everything sent has arrived, a player in agreement gets a call exactly when it is online, wants it, and has sent a map over the present connection; reconnections included |
| `LivefeedRuns.ConfigurationTells` | client/src/app/components/rdio-scanner/rdio-scanner.service.ts:1196-1224 | the configuration that comes with a new connection makes an online player send its map again, unless recomputing throws |
| `LivefeedRuns.NoDriftAgrees` | client/src/app/components/rdio-scanner/rdio-scanner.service.ts:611-657 | a run whose player takes none of those steps ends in agreement |
| `Rows.PruneRows` | server/talkgroup.go:205-253 | the rows of one system missing from the list go; see WrittenRows for what that leaves |
| `Rows.WriteRows` | server/talkgroup.go:205-279 | tables after writing one system's list; see WrittenRows |
| `Rows.WrittenRows` | server/talkgroup.go:205-279 | for its own system exactly the listed rows remain; every other system's rows are unchanged |
| `Rows.ReadRows` | server/unit.go:121-161 | every row of the system once, decoded, sorted by order |
| `Rows.ReadBack` | server/talkgroup.go:153-203 | rows that decoding leaves alone come back as a sorted permutation of the list written |
| `Labels.ShouldRemove` | server/group.go:236-251 | a row goes only if it is not listed and no listed label is without id |
| `Labels.Write` | server/group.go:217-291 | the table as delete-missing then upsert leaves it; AddOne says what that means for an addition |
| `Labels.Read` | server/tag.go:170-211 | every stored label once; groups skip empty labels, tags do not |
| `Labels.AddOne` | server/group.go:217-291 | writing and reading back a list with one new label adds one row under a fresh id and changes no other |
| `Labels.WriteStoresLabels` | server/group.go:217-291 | after a write every stored label is in its row, every new one in a new row, and any other row is gone, or as it was if a new label was listed |
| `Labels.LabelsRoundTrip` | server/group.go:170-291 | with all ids given, write then read gives the list back, but for empty group labels |
| `Store.MustRemove` | server/system.go:424-445 | a system row goes only if neither its row id and id are listed nor some listed system is without row id |
| `Store.Write` | server/system.go:403-511 | the tables after delete-missing, then insert or update, stopping at the first row the unique id index refuses |
| `Store.Read` | server/system.go:328-401 | every stored system once with its talkgroups and units, sorted by order |
| `Store.ReadingFields` | server/talkgroup.go:181-187 | reading turns a zero frequency and an empty led into none, leaves every other alone and never touches group, tag, label or name |
| `Store.ReadRowsFields` | server/system.go:328-401 | so of every talkgroup and unit of a read system |
| `Store.BlacklistsRoundTrip` | server/system.go:365-369 | stored blacklists come back unchanged exactly when they hold no bracket |
| `StoreRoundTrip.SavedTables` | server/system.go:477-505 | saving one system leaves the other systems' talkgroups and units as they were |
| `StoreRoundTrip.WriteStoresExactly` | server/system.go:403-511 | the write succeeds, stores each listed system with exactly its rows, and nothing else |
| `StoreRoundTrip.RefusedWrite` | server/system.go:470-505 | a refused write stops at a system whose id another row has, and everything saved before it stays saved |
| `StoreRoundTrip.StoredListsRoundTrip` | server/system.go:328-511 | with all row ids given, write then read always gives the list back, sorted, with nested lists likewise and the same row ids, also for renumbered and swapped ids; every frequency but 0, every led but an empty one and every blacklist without brackets included |
| `StoreRoundTrip.WriteThenRead` | server/system.go:328-511 | the same with unstored systems listed, when every stored row is that of a listed system, none listed before it takes the id it holds, and row ids given were handed out before |
| `StoreRoundTrip.UnstoredRoundTrip` | server/system.go:328-511 | with an unstored system listed, write then read gives the list back if and only if every stored row is that of a listed system before which none takes the id it holds: the write is refused, or a stale row comes back, otherwise |
| `StoreRoundTrip.UnstoredDeletesNothing` | server/system.go:424-445 | when some row id is missing no system row is deleted |
| `StoreRoundTrip.UnstoredResurrects` | server/system.go:424-445 | then a stored system missing from the list comes back, and the round trip fails |
| `ControllerService.LabelBook.Resolve` | server/controller.go:165-221 | the id of a label, added and saved if missing; ids of other labels never change; it fails only for the empty group label |
| `ControllerService.LabelBook.Reread` | server/group.go:170-215 | memory becomes a reading of the table |
| `ControllerService.Controller.AddTalkgroup` | server/controller.go:148-231 | a missing talkgroup is created under stored group and tag ids |
| `ControllerService.Controller.Enrich` | server/controller.go:233-260 | labels and units of the call are taken in; the result of merging units overrides what was noted before |
| `ControllerService.Controller.Populate` | server/controller.go:131-260 | memory grows by exactly what the call brings; whether it is to be saved |
| `ControllerService.Controller.Save` | server/controller.go:262-273 | after a write and a read memory and tables agree, and memory holds what it held |
| `ControllerService.Controller.Reload` | server/rr.go:514-518 | memory becomes a reading of the tables |
| `ControllerService.Controller.IngestCall` | server/controller.go:99-279 | for every call: ids stay distinct, labels keep their ids, a created talkgroup refers to a stored group and tag, each outcome under its exact condition, and systems, talkgroups and units hold what the call says of them and nothing else changes (`Intake.TakenIn`); from agreement, memory and tables agree afterwards exactly unless the call changes something and brings only known units |
| `ControllerService.Controller.IngestAll` | server/controller.go:99-279 | over every run of calls memory stays well formed, talkgroups refer to stored labels, label ids never change, and each call grows memory by what it brings; memory and tables agree at the end if they agreed at first, or some call was saved, and no later call lost a change or failed on its group label |
| `ControllerService.Controller.IngestNext` | server/controller.go:99-279 | one call of such a run, by what it does to memory and to agreement |
| `Population.Merge` | server/unit.go:104-119 | merging adds each unknown unit id once and reports whether it added any |
| `Population.MergedUnits` | server/unit.go:69-119 | known units stay in front, ids stay distinct, and the list changes exactly when some unit is unknown |
| `Population.GrownChanges` | server/controller.go:123-260 | exactly when a call changes the configuration in memory |
| `Ingest.UnsavedAgreement` | server/controller.go:254-273 | unsaved, memory agrees with the tables exactly when the call changed nothing |
| `Ingest.UnsavedLoses` | server/controller.go:254-273 | a call that is not saved leaves agreement exactly when it loses nothing; one that is saved loses nothing |
| `Ingest.GrownRefersWell` | server/controller.go:148-231 | after taking a call in every talkgroup is an old one or refers to a stored group and tag |
| `Intake.GrownTakesIn` | server/controller.go:131-260 | taking a call in: its talkgroup has the given label, else the old one, else its number, and the given name, else the old one, else the label; a created system has the given label or its number; unknown units are added once with the first label given; all else stays |
| `Intake.ReloadedTakesIn` | server/controller.go:262-273 | the same after saving and reading back |
| `Intake.CreatedFirst` | server/controller.go:131-146 | what a call that fails on its group label leaves behind |
| `Intake.Conditions` | server/controller.go:123-260 | which calls are blacklisted, populate, lack their talkgroup and are saved, said of the systems listed |
| `Intake.EntriesAreSeparated` | server/blacklists.go:30-37 | the entries of a blacklist are what stands between its commas |
| `Import.ImportEntry` | server/rr.go:453-512 | one entry is inserted or updated under stored labels; led and order of an existing row stay |
| `Import.ImportTalkgroups` | server/rr.go:449-526 | `added` counts the distinct non-zero ids the system did not have, `added + updated` the non-zero entries; each row shows the last entry of its id; other systems are untouched |
| `Import.ImportedTexts` | server/rr.go:453-512 | an imported row has the entry's label, name, frequency, group and tag, with the defaults for empty texts |
| `Import.SameTextSameId` | server/rr.go:530-600 | imported rows with the same group or tag have the same text there, and entries with the same text share the id whenever that text is stored once, whatever repeats among other labels |
| `Scope.HasAccess` | server/access.go:91-129 | true exactly when the scopes grant the system and talkgroup |
| `Scope.RawSystems` | server/system.go:176-247 | the systems the scopes choose, by truncated numbers |
| `Scope.ScopeTalkgroups` | server/system.go:249-296 | the resolvable talkgroups, as often as listed, and no others, sorted by order; when sorting by label is on each order is the place in a list of them sorted by label, the last place of one listed twice |
| `Scope.LabelsInOrder` | server/system.go:249-257 | what is renumbered that way stands in the order of its labels |
| `Scope.TextLessMeans` | server/system.go:250-254 | that order is the one of the first differing character |
| `Scope.NumbersOnceEach` | server/system.go:249-257 | with distinct talkgroups that all resolve the numbers are exactly 1 to n |
| `Scope.GetScopedSystems` | server/system.go:170-326 | for every access: each chosen system once with exactly its resolvable talkgroups, sorted, and by label when that is on |
| `ScopeAgreement.ScopesAgree` | server/access.go:91-129 | for set scopes with whole numbers a talkgroup is shown exactly when it is configured, its labels resolve and calls on it are let through, sorted or not |
| `ScopeAgreement.NoAccessShowsAll` | server/system.go:176-180 | a client without an access of its own is shown everything configured |
| `ScopeAgreement.FineIsDistinct` | server/system.go:328-401 | every list that ingestion keeps in memory meets the hypothesis of these theorems: ids distinct, talkgroup ids distinct in each system |
| `ScopeAgreement.GrantedIsShown` | server/access.go:91-129 | whatever the numbers, what is let through is shown |
| `ScopeAgreement.UnsetDisagrees` | server/system.go:176-194 | unset scopes show everything and let nothing through |
| `ScopeAgreement.OneSystemAgreesIff` | server/system.go:203-215 | a scope for one system agrees on all talkgroups exactly when its number is whole |
| `ScopeAgreement.ItemsAgreeIff` | server/system.go:195-247 | any list of items agrees on all talkgroups if and only if what its truncated numbers pick is granted by some item |
| `ScopeAgreement.SendConfig` | server/client.go:180-204 | the group and tag indexes sent are exact for the systems sent, whose talkgroups are distinct |
| `LabelIndex.Contains` | server/group.go:154-163 | the scan with its `found` flag tells whether the id is in the list |
| `LabelIndex.BuildIndex` | server/group.go:102-168 | for every list: no duplicates, no empty entries, nothing listed that does not carry the label; and exact when all labels are known |
| `Mask.MetaFine` | server/dirwatch.go:393-411 | each token of the table has its only # in front, and no pattern holds a # or a parenthesis or is shorter than its token by more than the two it gains |
| `MaskTable.MetaLongestFirst` | server/dirwatch.go:393-411 | no token begins with one that is replaced before it |
| `MaskTable.LongestIsRead` | server/dirwatch.go:434-439 | so wherever tokens start the longest is read |
| `MaskTable.EveryTokenAlone` | server/dirwatch.go:393-443 | every token of the table as a mask of its own becomes its own capture, noted under itself at 0 |
| `MaskTable.NamesSpellTokens` | server/dirwatch.go:393-411 | each is named as it is spelt |
| `Mask.EveryTextReads` | server/dirwatch.go:434-439 | every mask text reads as literal text and tokens, each the earliest table entry that starts there |
| `Mask.OneTurn` | server/dirwatch.go:434-439 | for every mask and token: at its turn the token is found where a capture is made and one replacement gives the next mask, or it is found nowhere and nothing changes; no capture is ever taken apart |
| `Mask.TurnKeepsSource` | server/dirwatch.go:434-439 | captures and the text around them always spell the mask as written |
| `Mask.NothingOverlooked` | server/dirwatch.go:434-439 | a token that got no capture stands nowhere in the finished mask |
| `Mask.ReadingKept` | server/dirwatch.go:434-439 | where no token is read twice, the captures are exactly the tokens as they read, look-alikes included |
| `Mask.RecordedLaw` | server/dirwatch.go:434-439 | for every mask: a noted position, which is where the token was found at its turn, is its index in the mask as written plus the growth of the tokens to its left earlier in the table |
| `MaskNames.ParseMask` | server/dirwatch.go:434-443 | for every mask: the finished mask, and one note for each capture, sorted by position |
| `MaskNames.CapturesInOrder` | server/dirwatch.go:445-451 | without literal parentheses capture i of the finished mask is the one of the i-th token, and there are as many captures as notes |
| `MaskNames.NamesRightIff` | server/dirwatch.go:441-451 | for every mask: every order the sort may give names each capture after its own token, if and only if the noted positions grow strictly from left to right |
| `MaskNames.StraightAscends` | server/dirwatch.go:434-443 | tokens in table order, or in reverse, meet that condition |
| `MaskNames.GroupTalkgroupDate` | server/dirwatch.go:434-451 | `#GROUP_#TG_#DATE` does not: positions 0, 20 and 11 are noted |
| `DsdPlus.Split` | server/parsers.go:41-58 | for every name the pieces are the stretches between the underscores outside brackets |
| `DsdPlus.JoinGivesBack` | server/parsers.go:41-58 | the pieces joined with underscores give back the name's text |
| `DsdPlus.NameComesBack` | server/parsers.go:56 | and the name itself exactly when it is ASCII, since each byte is taken for a code point |
| `DsdPlus.KeptUnderscores` | server/parsers.go:48-57 | an underscore kept in a piece was read inside brackets |
| `CallStore.Calls.CheckDuplicate` | server/call.go:177-193 | whether a stored call of the talkgroup lies within the window, ends included |
| `CallStore.Calls.WriteCall` | server/call.go:502-562 | row and file written under a fresh id; WriteRefines says when that is safe |
| `CallStore.WrittenRow` | server/call.go:66-95 | a written call is one new row with its system, talkgroup and time, its audio in a file of its day under the given or the default name; all else stays |
| `CallStore.GivenNamesMeet` | server/call.go:66-80 | given names share a file exactly on one day under one name |
| `CallStore.Calls.GetCall` | server/call.go:195-271 | the bytes of the row's file or of its legacy blob; an unknown id gives an empty call |
| `CallStore.Calls.Prune` | server/call.go:273-293 | the files of old rows, then the rows, are removed; PruneRefines says what that keeps |
| `CallStore.Calls.Ingest` | server/controller.go:281-298 | a call is stored exactly unless detection is on and it is a duplicate |
| `CallStore.WriteRefines` | server/call.go:66-95 | rows give their own bytes and share no file, which is what a later prune needs, if and only if the file name is not that of a stored row of the day |
| `CallStore.WriteGives` | server/call.go:66-95 | a write keeps every stored call's bytes if and only if no stored call that reads the same file has other bytes |
| `CallStore.OverwrittenRecording` | server/call.go:66-95 | two unnamed calls of two systems on one talkgroup number in one second: the first gives the second's bytes from then on |
| `CallStore.PruneRefines` | server/call.go:273-293 | the calls kept still give their bytes, and no file of a pruned row stays |
| `CallStore.PruneGives` | server/call.go:273-293 | pruning keeps the bytes of the calls that stay if and only if none of them reads from a file of a call that goes |
| `CallStore.RunRefines` | server/call.go:195-293 | over every run of writes and prunes with fresh names, table and files are one map from stored calls to their audio |
| `CallStore.DefaultNamesMeet` | server/call.go:66-80 | two unnamed calls share a file exactly when talkgroup and second agree, whatever their systems |
| `CallStore.RunSeparates` | server/controller.go:286-298 | over every run of ingests and prunes with detection on no two stored calls of a talkgroup come within the window |
| `CallStore.UncheckedWrite` | server/call.go:177-193 | a write without the check keeps that exactly when the call is no duplicate |
| `Paging.Search.SearchCalls` | client/src/app/components/rdio-scanner/search/search.component.ts:272-284 | the block asked for starts at the multiple of the limit below the page; nothing is asked in playback |
| `Paging.Search.RefreshResults` | client/src/app/components/rdio-scanner/search/search.component.ts:229-250 | asks exactly when the page starts outside the block, otherwise shows the slice padded with nulls to the page size |
| `Paging.Search.OnPageChange` | client/src/app/components/rdio-scanner/search/search.component.ts:123-131 | a new page size gives that many rows; then as above |
| `Paging.Search.PlaybackListEvent` | client/src/app/components/rdio-scanner/search/search.component.ts:384-392 | a delivered block is shown and asks for nothing more |
| `Paging.Search.Turn` | client/src/app/components/rdio-scanner/search/search.component.ts:123-131 | for every page and size, over a fixed result list: one question exactly when the page starts outside the block, and the rows shown are the right ones if and only if the page lies in one block or past the end |
| `Paging.PageRight` | client/src/app/components/rdio-scanner/search/search.component.ts:229-250 | the arithmetic of that: slice by remainders against global rows, both ways |
| `Paging.DivisorsAreWhole` | client/src/app/components/rdio-scanner/search/search.component.ts:60-82 | page sizes that divide the limit are always right |
| `Paging.ThirdPageOf75` | client/src/app/components/rdio-scanner/search/search.component.ts:60-82 | 75 rows a page are not: the third page of more than 150 results comes out empty |
| `ImportTree.TwoNames` | client/src/app/components/rdio-scanner/admin/rr-import/rr-import.component.ts:411-415 | for every category, the empty one included, its names are what stands before the first separator and everything after it, with the source's defaults |
| `ImportTree.RrImport.BuildTree` | client/src/app/components/rdio-scanner/admin/rr-import/rr-import.component.ts:408-443 | for every list: each leaf holds exactly the visible talkgroups of its two names, names are distinct, none is empty, and leaf counts add up to the visible total |
| `ImportTree.OneLeaf` | client/src/app/components/rdio-scanner/admin/rr-import/rr-import.component.ts:408-443 | a talkgroup is in some leaf exactly when it is visible, under its own names, and in one leaf only |
| `ImportTree.MembersInOrder` | client/src/app/components/rdio-scanner/admin/rr-import/rr-import.component.ts:411-422 | leaves keep the input order |
| `ImportTree.PutUnderFine` | client/src/app/components/rdio-scanner/admin/rr-import/rr-import.component.ts:417-421 | filing one talkgroup adds it to its own leaf, created if need be, and leaves all others alone |
| `ImportTree.RrImport.ToggleNode` | client/src/app/components/rdio-scanner/admin/rr-import/rr-import.component.ts:461-463 | exactly the node's leaves are set; afterwards the node is not partial, and all selected if checked |
| `ImportConfig.NextId` | client/src/app/components/rdio-scanner/admin/rr-import/rr-import.component.ts:606-608 | an id larger than all given ones, from 1 |
| `ImportConfig.AdminConfig.Import` | client/src/app/components/rdio-scanner/admin/rr-import/rr-import.component.ts:569-635 | for every choice of options: groups and tags grow by exactly the missing texts under distinct ids; one system goes in front with one talkgroup for each one picked, in order, under the ids found for its labels |
| `ImportConfig.PickedExactly` | client/src/app/components/rdio-scanner/admin/rr-import/rr-import.component.ts:569-596 | picked are exactly the visible, selected talkgroups that no option leaves out, each once and in order, with only their labels changed |
| `ImportConfig.PickedMeans` | client/src/app/components/rdio-scanner/admin/rr-import/rr-import.component.ts:570-583 | which talkgroups the options leave out, said of tag, description and encryption |
| `ImportConfig.LabelMeans` | client/src/app/components/rdio-scanner/admin/rr-import/rr-import.component.ts:585-596 | which labels lose their spaces and go to capitals |
| `ImportConfig.WithoutJoined` | client/src/app/components/rdio-scanner/admin/rr-import/rr-import.component.ts:589-590 | a squeezed label is made of the characters that are no spaces, in order |
| `ImportConfig.ImportedResolves` | client/src/app/components/rdio-scanner/admin/rr-import/rr-import.component.ts:617-631 | an imported talkgroup resolves to its own group and tag exactly when the label was new or stored with an id |

## Left out

- Network, websocket, file watching, audio conversion, command line and daemon code; SQL text, schema migrations, JSON and
  regular-expression engines. Payloads are decoded values, tables are maps, captures are numbered by their opening
  parentheses.
- Faults of the database and of the file system, whose handling only logs and returns. The one modelled exception is the
  unique index on the system id.
- Admin login, tokens, PIN handling, access codes and their expiry and limits.
- Audio content: decoding ends in "done" or "failed". Whether the decoded buffer is that of the current call is not claimed.
- Display data added to calls, beeps, bulk download, local storage, locale-aware sorting and formatting.
- Playback while new calls arrive: pages then shift, so the result sequence of a tour is fixed. A tour has pages aligned to
  the limit, a limit of at most 500 (the server's cap), distinct non-zero ids, and a listener who pauses at any time and skips
  while a call is awaited, decodes, sounds or has just ended. A skip while a call lies parked or a page is on its way makes the
  source ask once more, and is not part of a tour.
- An empty page during playback, where the source throws before changing anything, changes nothing in the model.
- A new configuration while something is held overwrites the snapshot in the source, and the model has it so; the conservation
  of the base map (`PlayerHolds`) is therefore about runs without one. Avoid minutes are not kept, and holding is modelled as
  stopping the timers.
- What is emitted to the page when a handler is cut short by an exception: the model has the state that is left, and the
  statuses last computed as the statuses shown.
- A delay is never passed to `skip` by the listener; the delayed form occurs at the end of audio only.
- Every delivered call has audio, as the server always sends an audio object (server/call.go:136-149).
- Systems, talkgroups and units are values: sharing of one object by several lists, and the renumbering that sorting by label
  leaves behind in the shared objects, are not captured. Talkgroups of the import tree are positions in their list for the
  same reason, so that toggling a node does reach the list.
- Groups and tags have the same code; `Labels` and `LabelBook` stand for both, with one flag for the one difference.
- JSON numbers in scopes are not negative.
- Ids in a live map are below 2^63, so that the server can read them back; with larger ones it drops the entry.
- What the patterns of the mask tokens match: they are carried as text into the finished mask.
- Literal parentheses in a mask shift the numbering of captures and are excluded where captures are counted.
- What the DSDPlus parser reads from the pieces. With no underscore outside brackets there is one piece, and the source then
  indexes the piece before the last, which is not there.
- Page sizes above the limit of 200 (the offered ones end at 100), and a page without paginator, which does nothing.
- The expanded state of tree nodes. Case mappings and what counts as white space are parameters of the import dialog.
- `Import.SameTextSameId`: a text stored in several rows is resolved to whichever row the query returns first, and the query
  names no order; nothing is promised about which one that is.
- Plain file names only: how a name with path separators is joined into a path is not modelled. Times are compared as times,
  not as the text the queries are built from.
- A call's conversion before it is stored: the name and audio of a recording are those that are written.
- `LivefeedService.Livefeed.FromMap`: when several keys of a payload read as the same id, either may win, as map iteration has
  no order.
- `MaskNames.SortByPosition`: the library sort is modelled as any sort; equal positions may come in either order, which is why
  the condition for right names is a strict one.
