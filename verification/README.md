# A verified model of the FAST Racing NEO game server

The project models four stateful parts of the server and proves what they promise.

* **Gatherings.** Sessions that players create, join, leave, host and own (`matchmaking/`). `Gatherings` describes the
  store as a value and the seven ways of changing it; `Handlers` gives each request one effect, a list of such moves
  and a reply. `GatheringStore`, `Discovery` and `Server` are the same code with mutable sessions in a map, each method
  proved to have the effect its request has. `Invariants`, `Runs`, `Views` and `HeadCounts` prove what every run keeps,
  `Authority` who may change what, and `Memberships` in how many gatherings a player is. `AutoMatchmaking` follows
  automatic matchmaking from the filters to the final join, `Totality` says exactly when it can fail, and `CrowdedRun`
  is a run after which it does. In `WrappedRun` the gathering IDs come round. `Matching`, `Admission`, `Records` and
  `OwnerView` say in terms of the records alone what players get, who gets in, what requests write, and who is told.
* **Search.** Criteria, filters, selection methods, and the stable sort under them (`Search`, `Sorting`, `Decimal`),
  and what they mean as bounds on numbers (`Wishes`).
* **Leaderboards.** Uploads and personal bests (`Leaderboard`), ranks (`Rankings`), what clients see (`Standings`),
  which scores are kept, sorted and counted how (`Scores`), the file (`Persistence`), and the mutable store
  (`RankingStore`) of `ranking/store.go`.
* **Structure headers.** The byte parser that tells two wire formats apart (`StructureHeader`), the parser that finds
  the login data (`LoginData`), and the single decision both servers take from it (`Detection`) of
  `nexserver/structure_header.go`.

`dafny verify dfyconfig.toml` checks everything.

## How the model reads the source

* Each section under the store's mutex is one atomic step, including the events sent right after it.
* Ranging over a map yields an arbitrary permutation. On values the permutation is part of the request, so that every
  theorem about runs holds for all of them; in the methods it is a `:|` choice.
* `sort.SliceStable` is implemented by insertion and proved to give the only sorted and stable result.
* `RemoveDuplicates` keeps first occurrences. `SendNotificationEvent` appends to a ghost log.
* The three gathering flags are three Booleans: which bits they are is decided in a library.
* `CheckValidMatchmakeSession` is modelled for the fields that the record has (six attributes, progress up to 100,
  lengths of password and buffer); a Boolean of the request stands for the lengths of the others. Friend lookup is a
  fixed function of the PID, or missing. Session keys and clock readings are parameters.
* Head counts, IDs and ranks are 32-bit, join counts and limits 16-bit, and every wrap-around of the source is written
  out. PIDs are natural numbers in matchmaking and 64-bit in the leaderboard. Nothing is assumed about PID 0; where the
  source tests for it, so does the model.

## Where the code does not do what its comments promise

* Gathering IDs "must be non-zero", but the 32-bit counter comes round: `Runs.NextIDIsZero`, `Runs.ZeroIsHandedOut`.
  An ID that is handed out again may even be in use, and then somebody's gathering is gone without an event:
  `WrappedRun.LiveGatheringCanBeReplaced`.
* Automatic matchmaking forces the vacancy filter on so that it "can only ever land a player in a session they can
  join". Past 2^32 - 65536 heads the filter's sum for several vacant places can wrap where the join's sum for one does
  not. Exactly when a state lets that happen is `Totality.FailsExactly`, a run that gets there is
  `CrowdedRun.AutoCanFail`, and in no run without a cut of a limit does it happen: `AutoMatchmaking.RunAutoIsTotal`.
  The same wrap defeats the join's own test for room: `CrowdedRun.LimitCanBePassed`.
* A length prefix that accounts for the whole object is "not something the header-less layout produces by accident".
  With long trailing fields it can: `StructureHeader.LongFieldsAreMistaken`; exactly for which tokens and which
  lengths of fields: `StructureHeader.MistakenExactly`, `StructureHeader.MistakenLengthsExactly`. Login structures carry nine such bytes, far below the bound.
* "Both must agree" of the two servers' settings, which "start concurrently and neither may observe the other
  mid-construction". Forced off, the authentication server may write the setting before the secure server exists, or
  between its creation and the line that turns its headers on: `Detection.ForcedOffCanSplit`,
  `Detection.ForcedOffCanBeOverwritten`. Detection can do the same when a console logs in before the secure server has
  started: `Detection.DetectedCanSplit`. Exactly when: `Detection.ServersAgreeExactly`. The comment that the setting
  "starts off" stands above the line that turns it on.

## What else may surprise

* A creation that is refused has already dropped the caller's old memberships: `AutoMatchmaking.FailedCreationStillLeaves`.
* Telling all participants of events does not give newcomers a complete list, as the comment on the reproducible flag
  implies: `Views.JoinKeepsViewsExactly`, with a run in `Views.NewcomersCanBeMisled`.

## Model

| member | source | states |
|---|---|---|
| `Sorting.SliceStable` | matchmaking/search.go:302-337 | sorts the slice in place into the one sorted and stable rearrangement of what it held |
| `Sorting.StableSortCorrect` | matchmaking/search.go:299-338 | the rearrangement is sorted by its key, a permutation of the input, and keeps the order of equal keys |
| `Sorting.StableSortUnique` | matchmaking/search.go:299-338 | no other list is both sorted and stable, so any correct stable sort gives this one |
| `Decimal.FormatParses` | ranking/store.go:149-158 | a number printed in decimal is read back as itself by both parsers exactly when it fits their width |
| `Search.ParseConstraintReadsNumbers` | matchmaking/search.go:35-57 | "5" means exactly 5 and "1,10" means 1 to 10, for every pair of 32-bit numbers |
| `Search.HitsMembers` | matchmaking/search.go:110-144 | whatever a search returns passed every filter of some well-formed criteria and was live when that criteria was scanned |
| `Search.HitsComplete` | matchmaking/search.go:110-144 | with no offset, every live gathering that passes a well-formed criteria is among the hits before the limit is applied |
| `Search.HitsAreOrdered` | matchmaking/search.go:117-135 | one criteria's hits come nearest first, best progress first, or fullest first, as its method says; without an offset they are exactly its matches |
| `Search.FindSessionOptimal` | matchmaking/search.go:354-461 | the result is an equivalent gathering at minimum attribute-1 distance; there is none exactly when discovery is off or nothing is equivalent |
| `Search.FindSessionFirstAmongEquals` | matchmaking/search.go:454-460 | among equally near gatherings the one listed first is returned |
| `Discovery.ParseAttributes` | matchmaking/search.go:156-176 | parses every attribute constraint but index 1 and fails exactly when one of those is malformed |
| `Discovery.Survives` | matchmaking/search.go:205-266 | one candidate is kept exactly when it passes all filters |
| `Discovery.MatchCriteria` | matchmaking/search.go:148-271 | fails exactly on a malformed criteria, else returns the live gatherings that pass, in listing order, for every order of the map |
| `Discovery.SortSessions` | matchmaking/search.go:274-339 | for each selection method the slice becomes the stable sort by that method's key; without a reference session a progress sort leaves it alone |
| `Discovery.SearchOne` | matchmaking/search.go:110-135 | one criteria contributes its sorted matches with the offset dropped, nothing when malformed |
| `Discovery.SearchLocked` | matchmaking/search.go:81-145 | the early-exit loop returns the first length hits of all criteria concatenated; length 0 means 2^32-1, offset 2^32-1 means 0, discovery off means nothing |
| `Discovery.SearchedResultsPass` | matchmaking/search.go:81-145 | every result is live and passes some well-formed criteria, and there are at most length of them |
| `Discovery.FindSessionLocked` | matchmaking/search.go:354-461 | the loop and in-place sort return the head of the stably sorted equivalent gatherings, for every order of the map |
| `Discovery.IsEquivalent` | matchmaking/search.go:388-445 | the chain of early exits keeps a gathering exactly when it is equivalent to the one described |
| `Wishes.TextMeansBound` | matchmaking/search.go:15-61 | the text of a bound is never malformed and accepts exactly the numbers within it: "5" the number 5, "1,10" the numbers 1 to 10, "" any number |
| `Wishes.ExampleTexts` | matchmaking/search.go:17-19 | the texts of the bounds are the decimal ones of the source's examples |
| `Wishes.NonsenseFindsNothing` | matchmaking/search.go:110-120 | criteria with a constraint that is neither empty nor begins with a digit are skipped, and the search goes on |
| `Wishes.FiltersMeanWish` | matchmaking/search.go:205-266 | the filters over the texts a console sends keep exactly the gatherings whose game mode, limits, system type and attributes but index 1 lie within the bounds, and that the player may see, enter and fit into as asked |
| `Wishes.SearchGrantsWishes` | matchmaking/search.go:81-145 | everything a search returns is live and within the bounds of one of its criteria, and a search that stays below its limit returns every such gathering |
| `Wishes.SearchIsOrdered` | matchmaking/search.go:274-339 | of two results the earlier one is at least as near to the reference in attribute 1, in progress or in both together, or at least as full, as the selection method says |
| `Wishes.RangeCuts` | matchmaking/search.go:95-140 | the range cuts the whole result: it skips offset results, none for 2^32-1, and gives length of the rest, all for 0 |
| `GatheringStore.Session.AddParticipants` | matchmaking/store.go:196-201 | appends one copy of the PID per player and recounts |
| `GatheringStore.Session.RemoveParticipant` | matchmaking/store.go:265-273 | filters every copy of the PID out, keeping the order of the others, and recounts |
| `GatheringStore.Store.AllLocked` | matchmaking/store.go:125-132 | lists every live gathering exactly once, in an arbitrary order |
| `GatheringStore.Store.CreateLocked` | matchmaking/store.go:140-172 | stores a new record under the next ID, owned and hosted by its creator, and advances the 32-bit counter |
| `GatheringStore.Store.NotifyJoin` | matchmaking/store.go:205-247 | sends the join event to everyone, to the owner, or to nobody as the flags say, and replays earlier players to the newcomer under the reproducible flag |
| `GatheringStore.Store.JoinLocked` | matchmaking/store.go:179-250 | refuses a player already inside or a party that does not fit, changing nothing; otherwise adds the party and sends exactly the join events |
| `GatheringStore.Store.LeaveLocked` | matchmaking/store.go:260-295 | removes the player, tells those who stay, ends the gathering when the owner or the last player leaves, and falls back to the owner as host |
| `GatheringStore.Store.RemoveConnectionLocked` | matchmaking/store.go:308-314 | the loop over the map is one departure per gathering, for every order of the map |
| `GatheringStore.RemoveDuplicates` | matchmaking/store.go:208-208 | keeps the first occurrence of each element |
| `Invariants.MoveKeepsInv` | matchmaking/store.go:140-314 | each legal way of changing the store keeps every gathering under its own ID, not empty, owned and hosted by participants, and counted right |
| `Invariants.HandlersAreLegal` | matchmaking/matchmake_extension.go:51-683 | every request, from every consistent store, makes only legal moves |
| `Invariants.StepKeepsInv` | matchmaking/matchmake_extension.go:51-683 | so every request keeps the invariant |
| `Invariants.RunKeepsInv` | matchmaking/match_making.go:48-795 | in every run, with any map orders, keys and times, every live gathering is consistent |
| `Invariants.ChoiceIsLive` | matchmaking/matchmake_extension.go:247-277 | the gathering automatic matchmaking settles on is live, stored under its own ID, open to the caller, and passed a filter |
| `Runs.DisconnectClosedForm` | matchmaking/store.go:308-314 | whatever order the map yields, disconnecting has one resulting store and the same leave events, one for each gathering that held the player |
| `Runs.DisconnectForgets` | matchmaking/store.go:260-314 | afterwards the player is nobody's participant, owner or host; strangers' gatherings are exactly as before |
| `Runs.HandlersAreShaped` | matchmaking/matchmake_extension.go:51-309 | every request leaves some gatherings, then makes at most one further change, and may report it |
| `Runs.RunIDs` | matchmaking/store.go:140-162 | after n creations the counter is n+1 modulo 2^32, and before it wraps every live ID lies between 1 and n |
| `Runs.IDsAreNotReused` | matchmaking/store.go:140-162 | before the counter wraps, an ID that was live and is no longer will not be live again |
| `Runs.NextIDIsZero` | matchmaking/store.go:66-68 | the next ID is 0, which the game reads as no gathering, exactly when the number of creations is one short of a multiple of 2^32 |
| `Runs.CreationsHappen` | matchmaking/store.go:140-162 | there are runs with any number of creations |
| `Runs.ZeroIsHandedOut` | matchmaking/store.go:66-68 | so a run exists after which a live gathering has the ID 0 |
| `Runs.FewGatherings` | matchmaking/store.go:125-162 | fewer than 2^32 creations leave fewer than 2^32 live gatherings |
| `Views.ReplaysTeach` | matchmaking/store.go:235-247 | the replayed events teach the newcomer every player who was there already |
| `Views.MoveKeepsViews` | matchmaking/store.go:205-285 | a move that ends with the reproducible flag on leaves every participant with an exact view of that gathering |
| `Views.RunKeepsViews` | matchmaking/store.go:205-285 | in every run that keeps a gathering's flag, replaying what a participant received since its own join gives exactly the distinct participants |
| `Views.NotifyAllAloneMisleads` | matchmaking/store.go:209-247 | under the weaker flag alone, every newcomer knows of nobody but itself |
| `Views.JoinKeepsViewsExactly` | matchmaking/store.go:209-247 | where all participants are told of events, a join keeps all views exact exactly under the reproducible flag |
| `Views.NewcomersCanBeMisled` | matchmaking/store.go:209-247 | a run of two calls exists whose newcomer knows of itself only, in a gathering of two |
| `HeadCounts.MoveKeepsBlock` | matchmaking/store.go:179-295 | no move splits or resizes a participant's block of heads |
| `HeadCounts.RunKeepsBlocks` | matchmaking/store.go:179-295 | in every run each participant has one contiguous block, as long as the count it last joined with, 0 read as 1 |
| `HeadCounts.DetailsAddUp` | matchmaking/match_making.go:828-848 | the 16-bit numbers add up to the head count exactly when no console has 65536 players or more |
| `HeadCounts.RunDetailsAddUp` | matchmaking/match_making.go:828-848 | which holds in every run |
| `CrowdedRun.LimitCanBePassed` | matchmaking/store.go:190-193 | a run exists that goes on with an accepted join of a gathering limited to 2, which then holds 2^32 + 2 heads |
| `HeadCounts.MoveKeepsExcess` | matchmaking/store.go:190-200 | a join ends at or below a nonzero limit, and no move but a cut of the limit below the heads makes a gathering exceed it by more |
| `HeadCounts.StepKeepsExcess` | matchmaking/matchmake_extension.go:51-683 | the same for every request: a join it reports ends within the limit, and only an accepted settings request of the owner can make a gathering more overfull |
| `HeadCounts.RunStaysWithinLimits` | matchmaking/store.go:190-200 | a gathering stays within its limit throughout a run exactly when no accepted settings request of its owner cuts the limit below the heads it holds |
| `ParticipantList.ParticipantDetailsOf` | matchmaking/match_making.go:828-848 | the counting loop over 16-bit counters reports each distinct console once with its number of players |
| `Authority.RequestsAreGuarded` | matchmaking/matchmake_extension.go:51-683 | over any request that does not take the gathering's ID: ownership passes only from the owner to a named participant or to a participant where the gathering allows it; hosting only to a claiming participant or, when the host leaves, to the owner; settings change only by the owner; key and start time never; nobody is let in or put out but the caller. A request that takes the ID of somebody else's gathering leaves only the caller's own there, which breaks this |
| `Authority.EndingsAreGuarded` | matchmaking/store.go:287-290 | a gathering ends only by its owner, who leaves it or unregisters it, or because a creation takes its ID and is then refused |
| `WrappedRun.LiveGatheringCanBeReplaced` | matchmaking/store.go:140-162 | a run exists in which, after 2^32 creations, a registration replaces the live gathering of another player, who is still in it, and no event is sent |
| `Authority.LeavesDrift` | matchmaking/store.go:260-314 | departures change nothing else about a gathering that outlives them than the leaver's heads and a leaving host |
| `AutoMatchmaking.CreatesExactlyWithoutMatch` | matchmaking/matchmake_extension.go:245-282 | a new gathering is created exactly when discovery is off or no gathering surviving the caller's removal passes the filters |
| `AutoMatchmaking.ExcludingOwnerIsRedundant` | matchmaking/matchmake_extension.go:262-266 | skipping the caller's own gatherings never removes a candidate |
| `AutoMatchmaking.AutoReply` | matchmaking/matchmake_extension.go:227-309 | the whole effect and reply of an accepted request, by what was found |
| `AutoMatchmaking.AutoFailsExactly` | matchmaking/matchmake_extension.go:284-297 | an accepted request fails exactly when the chosen gathering has no room for one, and never without criteria |
| `AutoMatchmaking.AutoIsTotal` | matchmaking/matchmake_extension.go:241-297 | while limited gatherings stay 2^16 heads short of the 32-bit wrap, every accepted request gets a session |
| `AutoMatchmaking.RunAutoIsTotal` | matchmaking/matchmake_extension.go:241-297 | in every run in which no owner cuts a live gathering's limit below its heads, every accepted request gets a session |
| `Totality.OverflowingExactly` | matchmaking/search.go:260-265 | the vacancy filter can let a gathering through that has no room for one exactly when that gathering is limited, full and at most 65535 heads short of the wrap |
| `Totality.FailsExactly` | matchmaking/matchmake_extension.go:241-297 | whatever valid session a player sends, some request of theirs fails in a state exactly when discovery is on and, once they have left everything, a gathering they may enter is of that kind |
| `Totality.NeverFailsExactly` | matchmaking/matchmake_extension.go:241-297 | no accepted request can fail in a state exactly when no player may come upon such a gathering |
| `CrowdedRun.AutoCanFail` | matchmaking/matchmake_extension.go:284-297 | a run exists, of 65539 calls, in whose last state an accepted request fails |
| `AutoMatchmaking.AutoLeavesCallerInOne` | matchmaking/matchmake_extension.go:241-297 | afterwards the caller is in exactly the gathering it was told about, once; gatherings of strangers are unchanged |
| `Memberships.RunKeepsToOne` | matchmaking/matchmake_extension.go:70-73 | over every run in which a player never asks to join by gathering ID, it is a participant of at most one live gathering |
| `Matching.AutoGivesTerms` | matchmaking/matchmake_extension.go:174-309 | without criteria, an accepted request always gets a session with the described game mode, system type, participant limits and attributes but index 1: the caller's own, or one that was open, without password, with a place left, and for its friends only if the caller is one |
| `Matching.AutoTakesNearest` | matchmaking/search.go:354-461 | if any gathering the caller is not in is like that, the caller joins one, and none of them is nearer to the described attribute 1 |
| `Matching.AutoGrantsEarliestWish` | matchmaking/matchmake_extension.go:197-277 | with criteria, the joined gathering was open and is within the bounds of one of them, while no gathering the caller was not in was within those of an earlier one |
| `Matching.AutoMissesNoWish` | matchmaking/matchmake_extension.go:258-282 | nobody gets a gathering of its own while one it is not in is within the bounds of some criteria |
| `Admission.JoiningByID` | matchmaking/matchmake_extension.go:115-162 | joining by ID is refused, with nothing changed, exactly for a long message, a dead ID, a password (but not in participate), a closed or friends-only gathering, a player already inside, or a party that does not fit, in that order; otherwise the caller's heads are appended, the count follows, and the session key is handed out |
| `Admission.EntrantsAreAdmitted` | matchmaking/search.go:463-484 | over any request, whoever gets into a live gathering that the request does not create is its caller, and the gathering was open to that player; behind a password it was neither joinMatchmakeSession nor automatic matchmaking without criteria |
| `Admission.PasswordKeepsOut` | matchmaking/matchmake_extension.go:134-137 | over every run, a gathering created with a password refuses every joinMatchmakeSession until an update of its settings is accepted |
| `Admission.ClosedLetsNobodyIn` | matchmaking/matchmake_extension.go:570-590 | over every run, a gathering that its owner closed lets nobody in, by whatever request, until it is opened or its settings are updated |
| `OwnerView.RunKeepsOwnerView` | matchmaking/store.go:209-231 | over every run in which a gathering keeps its owner and has neither notification flag, replaying what the owner received gives exactly the other participants |
| `OwnerView.RegistrationIsWatched` | matchmaking/match_making.go:48-86 | every registration without the flags begins such a run |
| `Records.CreationGives` | matchmaking/matchmake_extension.go:51-100 | creating succeeds exactly for six attributes, progress up to 100, password up to 32, buffer up to 512, message up to 256 and a party within the limit; the new gathering is the described one, owned, hosted and filled by its creator, with a password exactly when one was given |
| `Records.MutationsReadBack` | matchmaking/matchmake_extension.go:546-638 | a single-field request is taken exactly from the owner and within its bounds, then that field reads back as set and nothing else changed |
| `Records.UpdatesReadBack` | matchmaking/matchmake_extension.go:645-683 | an update is taken exactly from the owner, and with checked settings only if they are sound; then the settings are the given ones and roles, key, time and count the old ones |
| `Records.HostsClaim` | matchmaking/match_making.go:484-543 | exactly a participant becomes host, and sets the URL it sends, but not an empty one in updateSessionURL |
| `Records.HostsTakeOver` | matchmaking/match_making.go:674-719 | exactly a participant becomes host and owner where the gathering allows it, and every participant is told once |
| `Records.OwnersPassOn` | matchmaking/match_making.go:750-795 | exactly from the owner and with a participating candidate, ownership goes to the first of those, and every participant is told once |
| `Records.OwnersUnregister` | matchmaking/match_making.go:132-161 | exactly the owner removes a gathering, and only that one; every participant is told once |
| `Records.JoinersAreAnnounced` | matchmaking/store.go:205-247 | a join tells all participants under either flag, and the newcomer of each player already there under the reproducible one; without them the owner alone hears of it, unless it is the joiner; each event carries the message and the new head count |
| `Records.LeaversAreAnnounced` | matchmaking/store.go:260-285 | leaving by request tells exactly those who stay, once each, with the request's kind and message and the heads left |
| `Records.DisconnectsAreAnnounced` | matchmaking/store.go:308-314 | so does a lost connection in each of the player's gatherings, as a disconnect |
| `Records.RunWithoutEndpointIsSilent` | matchmaking/store.go:322-325 | over every run without an endpoint, no participation event is sent |
| `AutoMatchmaking.FailedCreationStillLeaves` | matchmaking/matchmake_extension.go:72-86 | creating fails exactly for a party above the limit, and then the caller has left its old gatherings and an ID is spent |
| `Server.Protocol.CreateAndJoin` | matchmaking/matchmake_extension.go:77-83 | create, join, and delete again when the creator does not fit |
| `Server.Protocol.CreateMatchmakeSession` | matchmaking/matchmake_extension.go:51-100 | has the effect and reply of its request, for some order of the map |
| `Server.Protocol.RegisterGathering` | matchmaking/match_making.go:48-86 | has the effect and reply of its request, for some order of the map |
| `Server.Protocol.Join` | matchmaking/matchmake_extension.go:115-162 | joinMatchmakeSession with the password test, participate without: each refusal in the source's order, or the join |
| `Server.Protocol.LeaveGathering` | matchmaking/match_making.go:248-275 | cancelParticipation, and endParticipation with the other event |
| `Server.Protocol.ConnectionEnded` | matchmaking/protocol.go:58-60 | the disconnect hook is a departure from every gathering |
| `Server.Protocol.AutoMatchmake` | matchmaking/matchmake_extension.go:174-309 | both automatic matchmaking requests, end to end |
| `Server.Protocol.UnregisterGathering` | matchmaking/match_making.go:132-161 | only the owner destroys a gathering, and all participants are told |
| `Server.Protocol.UpdateSession` | matchmaking/matchmake_extension.go:645-683 | owner only; identity, roles, key, start time and count survive new settings |
| `Server.Protocol.MutateOwned` | matchmaking/matchmake_extension.go:546-638 | owner only; one field changes, or nothing when the value is refused |
| `Server.Protocol.BecomeHost` | matchmaking/match_making.go:484-543 | participants only; the caller becomes host and may set the URL |
| `Server.Protocol.UpdateSessionHost` | matchmaking/match_making.go:674-719 | participants only; takes ownership as well only where the gathering allows it |
| `Server.Protocol.MigrateGatheringOwnership` | matchmaking/match_making.go:750-795 | owner only; ownership goes to the first candidate that participates |
| `StructureHeader.ObjectHasStructureHeader` | nexserver/structure_header.go:199-235 | answers "headers" exactly for nonempty concatenations of frames, and answers at all exactly for those and for a nonempty leading String that fits |
| `StructureHeader.ChainExactlyWhenWalked` | nexserver/structure_header.go:206-223 | the greedy walk consumes an object exactly when some list of frames spells it: sound and complete |
| `StructureHeader.HeaderIsFrame` | nexserver/structure_header.go:206-216 | a header whose content fits is a frame, byte for byte |
| `StructureHeader.StringFirstExactly` | nexserver/structure_header.go:225-232 | the header-less reading takes exactly the objects that begin with a nonempty String, its length in two bytes before it |
| `StructureHeader.Uint32RoundTrip` | nexserver/structure_header.go:208-208 | little-endian 32-bit numbers are read back as written, at any position |
| `StructureHeader.FormatsAreToldApart` | nexserver/structure_header.go:199-235 | for every printable token and up to 8192 bytes of other fields, the bare structure is read as bare and its wrapping as framed |
| `StructureHeader.WrappedIsChain` | nexserver/structure_header_test.go:29-37 | wrapping any content gives a chain of frames |
| `StructureHeader.LongFieldsAreMistaken` | nexserver/structure_header.go:219-223 | 8193 bytes of other fields behind a one-character token are taken for a frame |
| `StructureHeader.MistakenExactly` | nexserver/structure_header.go:206-223 | some other fields get a bare structure mistaken exactly when the low byte of the token's stored length is at most 8 |
| `StructureHeader.MistakenLengthsExactly` | nexserver/structure_header.go:206-223 | and some of a given length exactly when, besides, they end with the frame that the token asks for or go at least five bytes beyond it |
| `LoginData.SkipString` | nexserver/structure_header.go:238-251 | advances past a String exactly when one fits, and never past the end |
| `LoginData.SkipStationURLList` | nexserver/structure_header.go:255-276 | advances past a list of at most 64 Strings exactly when it fits |
| `LoginData.LoginDataObject` | nexserver/structure_header.go:141-183 | finds the object exactly where the grammar of the request has it |
| `LoginData.LoginExExactly` | nexserver/structure_header.go:145-182 | a LoginEx request is accepted with an object exactly when it is a String, a DataHolder of that object, and trailing bytes |
| `LoginData.RegisterExExactly` | nexserver/structure_header.go:152-182 | a RegisterEx request is accepted with an object exactly when it is a list of at most 64 Strings, a DataHolder of that object, and trailing bytes |
| `LoginData.LoginExRoundTrip` | nexserver/structure_header_test.go:40-45 | inverts the encoders for every user name, type name and object, whatever follows |
| `LoginData.RegisterExRoundTrip` | nexserver/structure_header_test.go:40-45 | inverts the encoders for every list of up to 64 URLs, type name and object, whatever follows |
| `LoginData.TruncatedExactly` | nexserver/structure_header.go:238-276 | a cut request is still accepted exactly when the cut lies behind its object |
| `LoginData.TruncatedRequests` | nexserver/structure_header_test.go:141-144 | no strict prefix of an encoded request yields an object |
| `LoginData.LongListsAreRefused` | nexserver/structure_header.go:262-265 | more than 64 URLs are refused, however well formed |
| `Detection.LoginsDecide` | nexserver/structure_header.go:104-136 | a LoginEx request in either wire format decides what the console does |
| `Detection.RegistrationsDecide` | nexserver/structure_header.go:104-136 | and so does a RegisterEx request with any station URLs |
| `Detection.OnlyLoginsDecide` | nexserver/structure_header.go:104-136 | nothing but a LoginEx or RegisterEx request decides, and then by its object, framed or beginning with a String |
| `Detection.RunIsCoherent` | nexserver/structure_header.go:33-84 | in every interleaving of both start-ups, logins and writes, the decision, the once-guard and each server's flag are what the steps so far make them |
| `Detection.DecisionStands` | nexserver/structure_header.go:104-136 | once taken, the decision survives every later step, and so does the flag of each server that has had both its default and the write |
| `Detection.ServersAgreeExactly` | nexserver/structure_header.go:57-84 | once both servers have their defaults and the decision was written to both, they agree exactly when headers are on or each default came before the write to that server |
| `Detection.ForcedOffAgreesExactly` | nexserver/structure_header.go:46-55 | forced off, both servers end with headers off exactly when the secure server's default came before the write to it |
| `Detection.UndecidedFlags` | nexserver/secure.go:25-42 | before any decision a server uses headers exactly when its default has been assigned |
| `Detection.ForcedOffCanSplit` | nexserver/structure_header.go:74-76 | forced off, a run exists in which the secure server starts last and ends with headers on |
| `Detection.ForcedOffCanBeOverwritten` | nexserver/secure.go:25-42 | and another in which both servers exist before the decision and the secure server's default overwrites it |
| `Detection.DetectedCanSplit` | nexserver/structure_header.go:104-135 | with detection, any login without headers that is seen before the secure server starts leaves that server with headers on and the other with headers off |
| `Detection.Detector.AssignAuthenticationServer` | nexserver/authentication.go:41-41 | a new server without headers; the decision stays as it was |
| `Detection.Detector.DefaultAuthenticationHeader` | nexserver/authentication.go:46-46 | turns its headers on, whatever was decided |
| `Detection.Detector.AssignSecureServer` | nexserver/secure.go:25-25 | a new server without headers; the decision stays as it was |
| `Detection.Detector.DefaultSecureHeader` | nexserver/secure.go:42-42 | turns its headers on, whatever was decided |
| `Detection.Detector.SetStructureHeader` | nexserver/structure_header.go:62-84 | records the decision, then writes it to each server that is assigned |
| `Detection.Detector.ApplyStructureHeaderMode` | nexserver/structure_header.go:46-55 | on and off decide at once, anything else decides nothing |
| `Detection.Detector.Inspect` | nexserver/structure_header.go:104-131 | what a packet decides: nothing unless detection is armed and undecided and it is a login request whose data says something |
| `Detection.Detector.Decide` | nexserver/structure_header.go:133-135 | only the first decision gets through |
| `Leaderboard.RunKeepsFiled` | ranking/store.go:197-272 | in every run each entry sits under its own category and player and no category is empty |
| `Leaderboard.PersonalBest` | ranking/store.go:197-240 | whatever others do, normal uploads with one ordering leave a player the earliest of their best scores, with its parameter, groups and time |
| `Leaderboard.BestIsUnique` | ranking/store.go:233-240 | which is a single upload |
| `Leaderboard.UploadTouchesOneEntry` | ranking/store.go:197-230 | an upload leaves every other entry alone, stores all its fields, or is kept out only as a normal upload that is not better |
| `Leaderboard.DeletionsAreExact` | ranking/store.go:243-272 | deletions remove the named entries and nothing else |
| `Rankings.RankKeyIsTheComparison` | ranking/store.go:330-337 | the comparison given to the sort is the order of one numeric key |
| `Rankings.RunKeepsOneOrdering` | ranking/store.go:197-272 | a category that only saw uploads with one ordering has one |
| `Rankings.RankedIsBoard` | ranking/store.go:317-340 | for every order of the map, the sorted list holds each entry once, with none behind an entry it beats |
| `Rankings.RankIsStanding` | ranking/store.go:346-366 | the loop's standard rank is one more than the number of strictly better scores |
| `Rankings.RanksFindsEach` | ranking/store.go:347-366 | each player's rank in the table is the one given at its position |
| `Standings.RowsShowStandings` | ranking/store.go:346-386 | every shown row carries its entry's fields, the common data of its unique ID, and its competition rank on the whole board, whatever part is shown |
| `Standings.OrdinalRanksCount` | ranking/store.go:356-366 | ordinal ranks number the rows from 1, and better entries come first |
| `Standings.PositionCountsEarlier` | ranking/store.go:330-337 | without ties in score and time, a position is the number of entries that come before |
| `Standings.BoardIsUnique` | ranking/store.go:317-340 | then the order of the map does not show at all |
| `Standings.PagesTile` | ranking/store.go:389-404 | consecutive pages show the board without gap or overlap |
| `Standings.WindowHoldsPlayer` | ranking/store.go:438-453 | the window holds the player, stays on the board, starts half a window before the player or at the top, and is short only at the end |
| `Standings.AllowedIsBoard` | ranking/store.go:463-465 | the list of some players is the board of those players, so its ranks are standings among them |
| `Standings.ProjectedIsStanding` | ranking/store.go:521-541 | the projected rank is the standing the score would have |
| `Standings.UploadMeetsProjection` | ranking/store.go:197-240 | after an upload the standing equals the projection when the player had no entry or not a better one; a rejected upload stands strictly better; an overwrite with a worse score lands exactly one above |
| `Standings.ShownRankMeetsProjection` | ranking/store.go:521-541 | the same for the ranks as shown, for any two orders of the map, below 2^32 entries |
| `Scores.BestScoreIsKept` | ranking/store.go:192-240 | over every run in which a player only improves, the score kept is the highest put forward on a descending board and the lowest on any other |
| `Scores.UploadDecides` | ranking/store.go:197-240 | an upload in update mode 0 leaves the old entry exactly when its score is not higher, or not lower where the board is not descending; any other upload is stored |
| `Scores.BoardsAreSorted` | ranking/store.go:317-340 | for every order of the map the board is sorted by score, from high to low when descending and from low to high otherwise, and the earlier entry goes first among equals |
| `Scores.PagesShowRanks` | ranking/store.go:389-470 | a page holds the entries from its offset on, as many as asked for; with calculation 0 each row is ranked one behind the number of higher, or lower, scores on the whole board, otherwise by its position; and a page of friends in the same way among them |
| `Scores.SelectionsShowRanks` | ranking/store.go:423-515 | so are the rows around a player, of a player alone and of a list of players |
| `Scores.ProjectionCounts` | ranking/store.go:521-541 | the projected rank is one more than the number of higher scores on a descending board, and of lower ones on any other |
| `Persistence.RoundTrip` | ranking/store.go:93-158 | loading a saved store restores exactly the same scores and common data |
| `Persistence.SavedFileLoads` | ranking/store.go:93-158 | and such a load does succeed |
| `Persistence.WriteScores` | ranking/store.go:148-155 | the nested loop writes each category and player under its numeral |
| `Persistence.ReadScores` | ranking/store.go:108-124 | the nested loop reads every readable key and skips the others |
| `RankingStore.Store.constructor` | ranking/store.go:76-91 | a new store holds what its file holds, and nothing without one |
| `RankingStore.Store.Save` | ranking/store.go:142-158 | the file becomes the image of the store |
| `RankingStore.Store.InsertRanking` | ranking/store.go:197-230 | keeps the standing score without saving, or stores the upload and saves; a restart always restores the store |
| `RankingStore.Store.DeleteScore` | ranking/store.go:243-256 | removes one score, and its category when that was the last |
| `RankingStore.Store.DeleteAllScores` | ranking/store.go:259-272 | the loop removes the player everywhere and every category it empties |
| `RankingStore.Store.UploadCommonData` | ranking/store.go:292-299 | stores the blob and saves |
| `RankingStore.Store.DeleteCommonData` | ranking/store.go:302-309 | removes the blob and saves |
| `RankingStore.Store.RankedEntries` | ranking/store.go:317-340 | returns a board for some order of the map |
| `RankingStore.Store.RankData` | ranking/store.go:346-386 | the loop with its carried score and rank gives each selected entry its rank on the whole list |
| `RankingStore.Store.FriendSet` | ranking/store.go:545-557 | the player and the player's friends |
| `RankingStore.Store.GlobalRankings` | ranking/store.go:408-416 | a page of the board and its size |
| `RankingStore.Store.NearbyRankings` | ranking/store.go:420-456 | the window around the caller and the board's size, no rows without a score |
| `RankingStore.Store.FriendsRankings` | ranking/store.go:459-481 | a page of the board of the caller and friends, and its size |
| `RankingStore.Store.OwnRanking` | ranking/store.go:484-499 | the caller's row with its rank on the whole board |
| `RankingStore.Store.RankingsForPIDs` | ranking/store.go:503-516 | the rows of the listed players with their ranks on the whole board |
| `RankingStore.Store.ApproximateOrder` | ranking/store.go:521-541 | the loop gives the projected rank on a board |
| `RankingStore.ClientsSeeStandings` | ranking/store.go:346-516 | after any run in which a category saw one ordering, every row of every query carries its competition rank, on the whole board or among the friends, for every order of the map |
| `RankingStore.NearbyShowsCaller` | ranking/store.go:420-456 | a player with a score is among the rows, which are consecutive rows of the board; without one there are none |
| `RankingStore.BoardOfIsBoard` | ranking/store.go:317-340 | any board a query can see holds each entry once, best first |

## Left out

- AutoMatchmaking.AutoIsTotal: a sufficient bound, kept for runs; the exact condition on the state is `Totality.FailsExactly`.
- AutoMatchmaking.AutoFailsExactly: speaks of the gathering the search chose; as a condition on the state alone see `Totality.FailsExactly`.
- Discovery.SearchLocked: works on snapshots of the sessions, which nothing changes during a search, and asks for fewer than 2^32 live gatherings; with exactly 2^32 matches the source's 32-bit length would be 0. Getting there takes at least 2^32 creations: `Runs.FewGatherings`.
- Discovery.SearchOne: asks for fewer than 2^32 live gatherings, for the same reason.
- Discovery.FindSessionLocked: works on snapshots of the sessions.
- Server.Protocol.AutoMatchmake: asks for fewer than 2^32 live gatherings, for the same reason.
- Server.Protocol.UnregisterGathering: one gathering; `unregisterGatherings` repeats it and stops at the first refusal.
- Authority.RequestsAreGuarded: says nothing about a gathering whose ID its own owner takes again in one request; `WrappedRun.LiveGatheringCanBeReplaced` shows that a live ID of somebody else can be taken.
- Views.RunKeepsViews: about participation events only; unregistering and ownership changes are told to clients by other events.
- Standings.ShownRankMeetsProjection: asks for fewer than 2^32 entries, where ranks cannot wrap; `UploadMeetsProjection` has no bound.
- Standings.BoardIsUnique: asks for no two entries with equal score and time; with such ties the order of the map does show.
- RankingStore.Store.constructor: a file that cannot be read or parsed is not modelled.
- RankingStore.Store.Save: always succeeds; JSON, file creation, renaming and their errors are not modelled.
- RankingStore.Store.RankedEntries: nothing is proved about categories whose entries carry different orderings, where the ordering used depends on the map.
- StructureHeader.FormatsAreToldApart: fields up to 8192 bytes, a bound that `LongFieldsAreMistaken` shows to be sharp.
- Interleavings inside one locked section of a store. The decision on headers is finer: inspecting, deciding and each write to a server are steps of their own, beside both start-ups.
- PRUDP and RMC packets, decoding errors, Kerberos, accounts, NAT probes, station URLs of participants, logging, the HTTP page and configuration.
- Read-only lookups by ID, owner or participant, notification data, and the stripping of secrets from listed sessions: no property beyond their own bodies.
- `browse`: `Discovery.SearchLocked` followed by encoding.
- A second copy of the start time that a session keeps and nothing reads.
