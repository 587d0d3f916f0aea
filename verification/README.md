# CanisLink: a verified model of the control plane and the sensing chain

CanisLink connects terminals on which dogs call each other. This project models three parts of it
in Dafny and proves what they promise, for all inputs and over all runs.

**The control plane.** `Memory`, `Bond`, `Session` and `Policy` are the stores and rules;
`DeviceApi.Server` is the service over them, one method for each handler that changes these stores,
for the poll for incoming invites and for the one-second policy tick, each specified by a function
on the state. `Runs` closes these steps into arbitrary runs: any clients, any steward requests,
ticks and passing time, from empty stores. `Steps` is the case analysis of one step. On top stand
`Consent` (who may meet whom, where every session came from, and what calls undo), `Welfare` (invite
rate, lifetime, deadlines, emergency stop), `Restart` (what the SQLite mirror in `Sqlite` restores)
and `Convergence` (reordered presence reports).
`Outcomes` says exactly when a call goes out and when it is taken up, `Answers` what every request
answers and why it is refused, `Removals` what can take an invite or a session away, and `Settings`
that each policy, bond and presence is what was last asked for or reported. `StaleInvites` follows the
invite table, which handlers do not keep in step with memory, across a restart, and `Recovery` the
service from there on, through any requests, until its stores agree again. `Scenarios` holds
concrete runs that reach the corners where a promise fails. `LockRegions` takes the invite store
apart into its lock regions and interleaves any number of threads; `LockRefinement` relates every
interleaving to the atomic store the rest of the model uses, and `LockProgress` says what an expiry
achieves under interleaving and that the locks leave nobody stuck.

**The sensing chain.** `Mcu` is the UART frame format and the resynchronising stream decoder,
`Decoding` and `Corruption` are its theorems (the latter: what one wrong byte can and cannot do),
`Calls` says which frames one call returns,
`Presence` is the debouncing filter with its history specification, `Stretches` says the same of the
samples themselves, `Sense` is the pipeline, `McuEmu` the byte producer with the refinement of the
direct path, and `Reports` what the terminal reports of the world on the mat. `Edge` is the
terminal's agent, which runs a second decoder on the same bytes; `EdgeLaws` says what moves it.

**Objects.** Stores, decoder, filter, pipeline, emulator, agent and server are classes whose methods
update fields as the source does; each method's postcondition gives the whole new state as a
function of the old one, and the theorems are about those functions.

## How things are modelled

- Instants and durations are whole milliseconds, unbounded; casts the source relies on (an age cast
  to unsigned, saturating addition of the edge clock, little-endian bytes, clamping of force) are
  written out. Forces and weights are reals.
- Fresh identifiers and clock readings are parameters. A run's clock never goes back and an
  identifier drawn fresh was not drawn before. `create_invite` reads the clock twice, so it has two
  readings.
- Hash-map iteration order is arbitrary. The list of candidate peers is any list the bond graph can
  produce; rows come back from the database in any order.
- Each handler's work in memory is one atomic step. This matters: accept ignores what `close`
  returned (services/device-api/src/main.rs:583), so a racing cancel could be overtaken.
  `LockRegions` drops the assumption inside the invite store, and `LockRefinement` shows that an
  insert and a close there act at one moment, when they touch the record map, as the atomic ones do,
  but for one kind of refused insert, whose condition it gives:
  `Consent.NeverBusyInside` holds of atomic handlers, not of that refusal.
- A dog without a stored policy has the default one, so the value of the policy store keeps only
  departures from the default.
- Cloud replies to the edge agent are arbitrary inputs, including failures.

## Where the code differs from its documentation

The model follows the code. All but the smallest of these differences have a theorem that says
exactly when they show.

- The hard cap is called absolute (docs/architecture/canislink-system.md:585-604) and the first
  segment is to be cut to it. The code does neither: the tick never reads `max_end_at`, and the
  first deadline is not clamped. `Welfare.DeadlineWithinEndIff` and `Welfare.HardEndMissedIff` give
  the exact conditions, `Scenarios.HardEndMissed` a run.
- Again is to be ignored outside Active and never to bring the deadline forward
  (docs/architecture/canislink-system.md:602-607). The code does not test the state and overwrites
  the deadline: `Welfare.AgainPostponesIff`, `Restart.AgainKeepsMirror`.
- Only directed calls check that a dog does not call itself; automatic routing can answer with
  the caller exactly when the caller is bonded with itself (`Session.NeverSelfIffNoSelfBond`,
  `Scenarios.SelfInvited`).
- Session rows keep approximate media flags: `Restart.RestartAlways` says when a restart restores
  them, `Scenarios.UnreadyIsLost` and `Scenarios.AgainOverstates` are runs in which it does not.
- Invites expired by a handler keep their rows, so a restart can bring one back beside a session:
  `StaleInvites.RestartExclusiveIff`, `Scenarios.StaleRowMeetsSession`. Any dog then in
  both has an invite already due (`Recovery.OverlapIsDue`), and the first tick or request that
  expires invites puts the stores right for good (`Recovery.RecoversForGood`).
- An emergency stop is to leave the agent Halted (docs/architecture/canislink-system.md:468-472);
  ending the session overwrites that (`Edge.StopHaltsIffNoSession`).
- An emergency stop does not withdraw an invite already ringing, so a stopped caller can still be
  joined (`Outcomes.AcceptJoinsStoppedIff`, `Welfare.StoppedInSessionIff`,
  `Scenarios.StoppedCallerMeets`); the next tick ends the session (`Welfare.TickSurvivors`).
- The presence header says force strictly above the minimum (crates/presence/src/lib.rs:6); the code
  uses at least.
- The checksum does not protect the length byte: `Corruption.CorruptFrameRefused` says when a frame
  whose length was hit passes for another, `Corruption.ShortenedPing` is one.
- A complete frame of unknown type with a good checksum blocks the decoder for good
  (`Decoding.BlockedIffUnknown`, `Decoding.UnknownStalls`).

## Model

| member | source | states |
|---|---|---|
| `Policy.SleepIsArc` | crates/policy/src/lib.rs:53-64 | For every stored pair of minutes: within the day the sleep window is an arc of the day's circle; a minute past the day cuts it at midnight, down to nothing or up to the whole day |
| `Policy.SleepFollowsLocalDay` | crates/policy/src/lib.rs:46-51 | An offset east is the same window on a clock that far ahead, an offset of a day or more is none, and sleep recurs daily |
| `Policy.PastMaxIff` | crates/policy/src/lib.rs:101-103 | With a clock that has not run back, the truncating and wrapping age test equals an exact comparison in milliseconds |
| `Policy.AsleepIff` | crates/policy/src/lib.rs:46-64 | A dog is in its sleep window iff some night covers the moment, a night being an interval of local time, for every stored pair of minutes and every offset |
| `Policy.DeniedIff` | crates/policy/src/lib.rs:79-92 | Denied for an emergency stop iff stopped, for the social flag iff disabled and not stopped, for sleep iff neither and a night covers the moment, and otherwise allowed |
| `Policy.UntouchedNight` | crates/policy/src/lib.rs:29-44 | A dog whose policy nobody touched may meet others exactly from 07:00 until 22:00 UTC |
| `Bond.BondGraph.SetWeight` | crates/bond/src/lib.rs:25-27 | The edge map changes at that directed edge only, to the clamped weight |
| `Bond.BondGraph.BootstrapMutual` | crates/bond/src/lib.rs:30-34 | Both directions are set to the clamped weight, raised to the minimum bond |
| `Bond.BootstrapMakesMutual` | crates/bond/src/lib.rs:29-42 | Bootstrapping makes the pair mutually eligible whatever weight was given, and changes no other pair's eligibility |
| `Bond.WeightIsStored` | crates/bond/src/lib.rs:25-38 | A weight is stored for its direction alone, as given or cut to the nearest bound from 0 to 1 |
| `Bond.OneSideEndsIt` | crates/bond/src/lib.rs:40-56 | A weight below 0.3 in either direction ends eligibility and candidacy both ways |
| `Bond.BondGraph.Candidates` | crates/bond/src/lib.rs:45-59 | For every iteration order of the map, the result lists each mutually eligible peer exactly once with its weight, strongest first |
| `Bond.SortByWeight` | crates/bond/src/lib.rs:57 | The sort returns the same entries in order of falling weight |
| `Session.RouteOptimal` | crates/session/src/lib.rs:41-69 | Automatic routing is sound, complete and optimal: a present, mutually eligible peer of greatest outgoing weight, and failure only when there is none |
| `Session.TieCanLead` | crates/bond/src/lib.rs:45-59 | Every present, mutually eligible peer of greatest weight is what routing picks for some iteration order of the map |
| `Session.NeverSelfIffNoSelfBond` | crates/session/src/lib.rs:51-67 | Automatic routing never answers with the caller, over all candidate orders and presences, iff the caller has no mutual bond with itself |
| `Mcu.SenseRoundTrip` | crates/protocol/src/mcu.rs:55-84 | Reading a sense payload yields a value iff the bytes start with that value's encoding |
| `Mcu.ButtonRoundTrip` | crates/protocol/src/mcu.rs:96-115 | The same for button payloads |
| `Mcu.FrameDecoder.Push` | crates/protocol/src/mcu.rs:152-159 | Returned frames and final buffer are those of the specification of one call on the buffer with the new bytes; the call ends because the buffer shrinks |
| `Mcu.FrameDecoder.TryPop` | crates/protocol/src/mcu.rs:161-188 | One pop does what the head of the buffer forces, and a returned frame shortens the buffer |
| `Decoding.EmitsIffEncoded` | crates/protocol/src/mcu.rs:122-188 | A frame is emitted iff the buffer starts with exactly that frame's encoding |
| `Decoding.MovesConserve` | crates/protocol/src/mcu.rs:161-188 | Byte conservation of a run of moves: dropped bytes, encodings of emitted frames and the leftover buffer spell the input |
| `Decoding.DropsAreJustified` | crates/protocol/src/mcu.rs:163-183 | A byte is dropped only where no encoded frame begins |
| `Decoding.FeedConserves` | crates/protocol/src/mcu.rs:117-188 | Over any sequence of calls on arbitrary bytes, everything pushed is an interleaving of justified drops and exact encodings of the returned frames, followed by the buffer |
| `Decoding.FeedIsPrefixOfParse` | crates/protocol/src/mcu.rs:152-188 | However the stream is cut, the frames returned so far are a prefix of one reference parse, completed by parsing the buffer |
| `Decoding.PushProgress` | crates/protocol/src/mcu.rs:152-188 | A call that finds something to do shortens the buffer; otherwise it changes nothing |
| `Decoding.FlushCompletes` | crates/protocol/src/mcu.rs:152-188 | At most one empty call per buffered byte brings out all the buffer holds |
| `Decoding.ChunkingConfluence` | crates/protocol/src/mcu.rs:152-188 | Two cuttings of one stream, each followed by enough empty calls, return the same frames, the reference parse, and hold equal buffers |
| `Decoding.BlockedIffUnknown` | crates/protocol/src/mcu.rs:169-184 | The head of the buffer waits forever, whatever follows, iff it is a complete frame of unknown type with a good checksum |
| `Decoding.UnknownStalls` | crates/protocol/src/mcu.rs:184 | From such a head on, no call returns a frame and every byte sent stays in the buffer |
| `Decoding.CleanFeed` | crates/protocol/src/mcu.rs:152-188 | If no checksum can fail, frames come out as soon as they are complete under any cutting, with no empty calls |
| `Decoding.RoundTripThroughNoise` | crates/protocol/src/mcu.rs:122-188 | Encoded frames between noise without the magic pair, cut arbitrarily, come back exactly once and in order, leaving at most the last noise byte |
| `Calls.PushIff` | crates/protocol/src/mcu.rs:152-188 | A call returns given frames and leaves a given buffer iff forced moves lead there, up to and including the first byte dropped for a bad checksum, or else until nothing is forced |
| `Calls.BadChecksumEndsCall` | crates/protocol/src/mcu.rs:179-183 | After any frames sent through quiet noise, a bad checksum ends the call: the frames before it are returned, its first byte is dropped, and all behind it, good frames too, waits |
| `Corruption.ChecksumSeesChange` | crates/protocol/src/mcu.rs:117-119 | Changing any one byte changes the checksum |
| `Corruption.CorruptFrameRefused` | crates/protocol/src/mcu.rs:161-187 | A frame with any one wrong byte is never delivered as sent, whatever follows: skipped if the magic was hit, rejected otherwise, and a hit length delivers another frame iff the byte where the new length ends is the checksum of what it spans |
| `Corruption.ShortenedFrameEmittedIff` | crates/protocol/src/mcu.rs:172-187 | A length that reads shorter delivers a wrong frame iff the payload byte it cuts at is the checksum of what comes before, whatever follows the frame |
| `Corruption.ShortenedPing` | crates/protocol/src/mcu.rs:172-187 | A ping carrying 00 7F whose length reads 1 is delivered as a ping carrying 00 |
| `Presence.PresenceFilter.Update` | crates/presence/src/lib.rs:125-148 | Every field after the sample, and the result is true iff the debounced flag changed |
| `Presence.RemembersRun` | crates/presence/src/lib.rs:125-138 | The constant-size state holds exactly the reading and the start of the maximal run of equal raw samples, and the last sample |
| `Presence.DebounceExact` | crates/presence/src/lib.rs:95-148 | The flag is set iff in the history some present run spanned the enter time and no later absent run spanned the exit time |
| `Presence.FlipSpacing` | crates/presence/src/lib.rs:95-148 | With nondecreasing times, flips 1 and k are at least floor(k/2) exit times plus floor((k-1)/2) enter times apart, and the first is an enter time after the first sample |
| `Stretches.FlagIffStretch` | crates/presence/src/lib.rs:94-148 | For any settings and any clock: the flag is up iff some stretch of samples showing a dog lasted the enter time and none showing none that began later has lasted the exit time |
| `Stretches.DefaultPresence` | crates/presence/src/lib.rs:20-148 | With the default settings and a clock that does not run back: up iff the mat felt 25 N, with motion or a distance of 50 to 900 mm, at samples 800 ms apart and all between, and at no later samples 2500 ms apart was this so of none |
| `Sense.SensePipeline.PushSample` | edge/canis-sense/src/lib.rs:44-59 | New clock, filter and snapshot for a direct sample |
| `Sense.SensePipeline.PushBytes` | edge/canis-sense/src/lib.rs:61-82 | One snapshot per readable sense frame, in order, all at one clock value; other frames are ignored |
| `McuEmu.Emulator.PressPad` | firmware/mcu-emu/src/lib.rs:56-62 | Queues a press behind those pending |
| `McuEmu.Emulator.Tick50ms` | firmware/mcu-emu/src/lib.rs:65-82 | The bytes are one sense frame followed by every pending button in order, which are then gone |
| `McuEmu.SenseFrameSample` | firmware/mcu-emu/src/lib.rs:68-77 | The sample read off the emulator's frame is the world with force in tenths and a zero distance as none |
| `McuEmu.FrameReadsAs` | edge/canis-sense/src/lib.rs:65-79 | A frame is read as a sample iff it is a sense frame of at least eight bytes: force in tenths, no distance if zero, motion from the lowest flag bit alone |
| `McuEmu.TickRefines` | edge/canis-sense/src/lib.rs:61-82 | One tick pushed as bytes into an empty buffer equals one direct sample of the world as the wire keeps it, whatever buttons were pressed |
| `McuEmu.UartRefinesDirect` | edge/canis-sense/src/lib.rs:44-82 | Over any run of ticks the byte path gives the same snapshots, filter and clock as the direct path on wire values |
| `McuEmu.BurstRefines` | edge/canis-sense/src/lib.rs:61-82 | Several ticks read in one chunk give one snapshot each, in order, as direct samples all taken at the moment of reading |
| `McuEmu.TruncationKeepsThreshold` | firmware/mcu-emu/src/lib.rs:68 | Clamping and truncating to tenths crosses no threshold that is a whole number of tenths |
| `McuEmu.UartReportsExactWorld` | edge/canis-sense/src/lib.rs:44-82 | End to end, presence, confidence, force band and flips reported from bytes agree with those computed from the untruncated worlds |
| `Reports.UartReportsWorld` | edge/canis-sense/src/lib.rs:44-95 | From any run of worlds to the snapshots read off the bytes: present iff the dog stood on the mat for 800 ms and has not been gone 2500 ms since, flipped iff that changed, confidence and force band those of the present world |
| `Reports.UartMeasures` | edge/canis-sense/src/lib.rs:61-95 | Every snapshot carries the force of its world cut to tenths within 0 to 6553.5 N, and its distance unless zero |
| `Memory.PresenceStore.Upsert` | crates/db/src/memory.rs:35-61 | An older sequence number changes nothing; any other report replaces its dog's entry |
| `Memory.PresenceStore.Get` | crates/db/src/memory.rs:63-80 | The view of a dog, blanked when stale or absent |
| `Memory.PresenceStore.IsPresent` | crates/db/src/memory.rs:97-99 | True iff the entry is present and within its time to live |
| `Memory.PresenceStore.PresentDogIds` | crates/db/src/memory.rs:82-95 | For any iteration order, exactly the dogs whose view is present |
| `Convergence.NewestWins` | crates/db/src/memory.rs:35-61 | After any sequence of reports a dog's entry is that of its highest number, the last delivered among equals, and exists iff it was reported |
| `Convergence.DeliveryOrderIrrelevant` | crates/db/src/memory.rs:35-61 | Two deliveries of the same reports, in any order and with repetitions, leave the same store if a dog never reuses a number |
| `Convergence.DeliveriesAgreeIff` | crates/db/src/memory.rs:35-61 | Every order of the same reports leaves the same store iff, for each dog, the reports that share its greatest number have equal entries, and then repetitions do not matter either |
| `Convergence.SameNumberLastWins` | crates/db/src/memory.rs:40-48 | With a reused number the last delivery wins, so both orders agree iff the two entries are equal |
| `Convergence.SeenAsNewest` | crates/db/src/memory.rs:35-99 | After any deliveries a dog is seen, listed or asked for alone, exactly as its newest report makes it seen: whole if it says present and is at most 10 seconds old, else its number, terminal and time only; never if unreported |
| `Convergence.ListedIffNewest` | crates/db/src/memory.rs:35-95 | After any deliveries a dog is listed iff its newest report says present and is at most 10 seconds old; a report dated in the future counts as fresh |
| `Memory.InviteStore.Insert` | crates/db/src/memory.rs:114-123 | Refused iff either dog has an open invite, else recorded and indexed under both |
| `Memory.InviteStore.ForDog` | crates/db/src/memory.rs:129-133 | The record the index names, if both exist |
| `Memory.InviteStore.Close` | crates/db/src/memory.rs:140-146 | Record and both index entries go, and the record is handed out iff it was there |
| `Memory.InviteStore.ExpireDue` | crates/db/src/memory.rs:148-157 | For any order, exactly the due invites are closed and handed out |
| `Memory.InviteStore.RecordInvite` | crates/db/src/memory.rs:159-161 | Appends one time to that dog's list |
| `Memory.InviteStore.InvitesLastHour` | crates/db/src/memory.rs:163-170 | The number of times less than 3600 whole seconds old, and the list forgets the others |
| `Memory.SessionStore.Insert` | crates/db/src/memory.rs:187-203 | Refused iff either dog is indexed, else recorded, indexed and with both flags down |
| `Memory.SessionStore.ForDog` | crates/db/src/memory.rs:209-212 | The record the index names, if both exist |
| `Memory.SessionStore.UpdateDeadline` | crates/db/src/memory.rs:218-227 | Only that session's segment deadline changes |
| `Memory.SessionStore.End` | crates/db/src/memory.rs:229-236 | Record, both index entries and flags go together |
| `Memory.SessionStore.SetMediaReady` | crates/db/src/memory.rs:238-260 | Refused iff session, flags or party are missing; else one flag is set and both flags up promote to Active |
| `Memory.PolicyStore.Ensure` | crates/db/src/memory.rs:270-279 | Returns the dog's policy and changes no dog's policy |
| `Memory.PolicyStore.Set` | crates/db/src/memory.rs:281-283 | The new value of the whole store |
| `Memory.PolicyStore.SetEstop` | crates/db/src/memory.rs:290-294 | Only that dog's stop flag changes |
| `Memory.PolicyStore.SetSocialDisabled` | crates/db/src/memory.rs:296-300 | Only that dog's social flag changes |
| `Memory.PolicySetReads` | crates/db/src/memory.rs:269-283 | A written policy is read back by its dog and by no other |
| `Sqlite.TextRoundTrip` | crates/db/src/sqlite.rs:151-189 | States and modes survive their text columns |
| `Sqlite.RowRoundTrip` | crates/db/src/sqlite.rs:119-130 | A saved session row reads back as the same record, whatever flags were written |
| `Sqlite.Pool.SaveSession` | crates/db/src/sqlite.rs:323-348 | Insert or replace of one row |
| `Sqlite.Pool.DeleteSession` | crates/db/src/sqlite.rs:350-356 | Delete of one row |
| `Sqlite.Pool.SaveInvite` | crates/db/src/sqlite.rs:284-300 | Insert or replace of one invite row; sessions are not touched |
| `Sqlite.Pool.DeleteInvite` | crates/db/src/sqlite.rs:302-308 | Delete of one invite row; sessions are not touched |
| `Sqlite.LoadInto` | crates/db/src/sqlite.rs:119-145 | The loop over the rows leaves the store the fold of row loads describes, in the given order |
| `DeviceApi.Server.PostPresence` | services/device-api/src/main.rs:337-353 | Only the presence store changes |
| `DeviceApi.Server.BootstrapBond` | services/device-api/src/main.rs:791-806 | Only the bond graph changes |
| `DeviceApi.Server.CreateInvite` | services/device-api/src/main.rs:416-478 | Every refusal in its order, and the whole new state, for some candidate order the bond graph allows; a row is written iff it succeeds |
| `DeviceApi.Server.IncomingInvite` | services/device-api/src/main.rs:505-515 | The ringing invite to this dog; nothing, and no expiry, for a stopped or disabled dog |
| `DeviceApi.Server.CancelInvite` | services/device-api/src/main.rs:533-545 | Either party may cancel, others are refused; the row goes iff it succeeds |
| `DeviceApi.Server.AcceptInviteHandler` | services/device-api/src/main.rs:563-592 | Every refusal in its order, the new session with both deadlines from the callee's policy, and its row; the invite's row goes iff it succeeds |
| `DeviceApi.Server.EndSession` | services/device-api/src/main.rs:629-651 | Either party may end; session and row go |
| `DeviceApi.Server.MediaReady` | services/device-api/src/main.rs:672-690 | Flag, promotion and the approximate row written |
| `DeviceApi.Server.Again` | services/device-api/src/main.rs:715-734 | The clamped new deadline in any state, and a row with both flags up |
| `DeviceApi.Server.StewardEstop` | services/device-api/src/main.rs:753-768 | The stop flag, and the dog's session and row gone when switched on |
| `DeviceApi.Server.StewardSocial` | services/device-api/src/main.rs:779-782 | Only the social flag changes |
| `DeviceApi.Server.StewardPolicy` | services/device-api/src/main.rs:825-848 | Only the fields named in the request change |
| `DeviceApi.Server.ShouldEnd` | services/device-api/src/main.rs:174-188 | The early-exit test ends a session iff the caller is over its limit, an Active segment is over, or either dog is stopped |
| `DeviceApi.Server.EndOverdue` | services/device-api/src/main.rs:173-195 | For any order of the walk, exactly the sessions the tick ends leave store, index, flags and table |
| `DeviceApi.Server.DeleteRows` | services/device-api/src/main.rs:168-172 | The loop over the expired invites removes exactly their rows, in any order |
| `DeviceApi.Server.PolicyTick` | services/device-api/src/main.rs:166-196 | The whole state after a tick: due invites and their rows gone, sessions to be ended and their rows gone |
| `Runs.AcceptKeeps` | services/device-api/src/main.rs:583-588 | Accept keeps all stores consistent, and its session insert never reports busy |
| `Runs.StepKeeps` | services/device-api/src/main.rs:166-850 | Every step keeps indexes, records, flags, rows and the separation of invites and sessions consistent |
| `Runs.RunKeeps` | crates/db/src/memory.rs:102-261 | So they are consistent in every reachable state |
| `Steps.InviteStep` | services/device-api/src/main.rs:416-592 | An invite is in the store after a step only if it was there unchanged or the step created it |
| `Steps.SessionStep` | services/device-api/src/main.rs:548-592 | A session is in the store after a step only if it was there, same dogs and limits, or its second dog has just accepted it |
| `Steps.EstopStep` | services/device-api/src/main.rs:747-756 | A stop flag changes only by the steward's request for that dog |
| `Consent.Exclusivity` | crates/db/src/memory.rs:187-236 | In every reachable state no dog is in more than one open invite or session, and each index answers with exactly that record |
| `Consent.NeverBusyInside` | services/device-api/src/main.rs:472-477 | The two internal busy refusals after the earlier checks are unreachable |
| `Consent.ConsentProvenance` | services/device-api/src/main.rs:416-608 | Every session in every reachable state was made by its callee's own accept, while present and neither stopped, disabled nor asleep, of the one invite it names, made less than 25 seconds earlier in the same mode by the caller, when both were present, mutually bonded and neither stopped, disabled nor asleep |
| `Consent.InviteProvenance` | services/device-api/src/main.rs:416-478 | Every open invite in every reachable state is as its first dog's create asked, rings for 25 seconds from then, and was made when both dogs were present, mutually bonded and neither stopped, disabled nor asleep |
| `Consent.GoneForGood` | crates/db/src/memory.rs:140-146 | An invite that left the store never returns |
| `Consent.OneSessionPerInvite` | services/device-api/src/main.rs:567-588 | Sessions seen at any two times of a run that name one invite are the same session |
| `Consent.NoSelfBond` | services/device-api/src/main.rs:791-801 | If no bond request pairs a dog with itself, no dog is ever mutually eligible with itself |
| `Consent.SessionsJoinTwoDogs` | crates/session/src/lib.rs:120-126 | Then every session joins two different dogs, one offerer and one answerer |
| `Consent.InvitesJoinTwoDogs` | crates/session/src/lib.rs:41-69 | And every open invite rings between two different dogs |
| `Consent.ActiveNeedsBothReports` | crates/db/src/memory.rs:238-260 | In every reachable state an Active session's two dogs have each reported their own media ready |
| `Consent.FlagIsLastReport` | crates/db/src/memory.rs:238-260 | In every reachable state a live session's flag is up iff the last report of its dog was ready (a dog with itself has only the first flag) |
| `Consent.FlagStep` | crates/db/src/memory.rs:187-260 | Only a party's own report changes a flag, the state only follows both flags, and new sessions have both down |
| `Consent.OfferedIff` | services/device-api/src/main.rs:505-515 | In every reachable state a poll offers an invite iff it is open, addressed to the dog and not due, and the dog is neither stopped nor disabled |
| `Consent.CancelUndoesCreate` | services/device-api/src/main.rs:472-538 | A cancel by either dog undoes a create, but for expiries and the caller's hourly record |
| `Consent.EndUndoesAccept` | services/device-api/src/main.rs:578-651 | An end by either dog undoes an accept in memory and table, but for the invite, which is gone |
| `Welfare.PrunedAgrees` | crates/db/src/memory.rs:159-170 | The destructively pruned list and the full history of a dog's invites agree on the last hour, now and ever after |
| `Welfare.RateRefusalExact` | services/device-api/src/main.rs:435-438 | The rate check refuses iff the caller is not stopped, disabled or asleep and its full history has as many invites less than 3600 seconds old as its limit |
| `Welfare.RollingLimit` | services/device-api/src/main.rs:435-478 | While a dog's limit stays at most L, no window of 3600 s, wherever it starts, ever holds more than L of its invites |
| `Welfare.TickSurvivors` | services/device-api/src/main.rs:174-194 | A session survives a tick iff it is younger than the caller's limit, not Active past its segment, and neither dog is stopped |
| `Welfare.LifetimeBound` | services/device-api/src/main.rs:166-196 | If the caller's limit was at most M s at every tick and a tick ran within the last D ms, no session is M s + D old, whatever Again, media and steward steps occur |
| `Welfare.BirthDeadlines` | services/device-api/src/main.rs:578-582 | A session starts with its segment within its hard end iff the accepting dog's segment is within its maximum |
| `Welfare.DeadlineStep` | services/device-api/src/main.rs:724-730 | Only a party's Again moves the segment deadline, and never past the hard end |
| `Welfare.AgainPostponesIff` | crates/policy/src/lib.rs:110-121 | Again does not bring the deadline forward iff the old one is within the new segment and the hard end |
| `Welfare.DeadlineWithinEndIff` | services/device-api/src/main.rs:578-582 | In every reachable state the segment deadline is within the hard end iff it was so at the accept or a party has pressed Again since, whatever policies change |
| `Welfare.HardEndEnforced` | services/device-api/src/main.rs:174-194 | Under that condition no Active session survives a tick at or after its hard end, which the tick never reads |
| `Welfare.HardEndMissedIff` | services/device-api/src/main.rs:174-188 | In every reachable state, a tick that can still come at or after the hard end would spare an Active session iff, at the earliest such moment, its segment deadline lies ahead, the caller's limit is not used up, and neither dog is stopped |
| `Welfare.CalleeNeverStopped` | services/device-api/src/main.rs:564-588 | The second dog of a session is never under emergency stop |
| `Welfare.StoppedWhileRinging` | services/device-api/src/main.rs:747-771 | An open invite from a stopped dog was already ringing when it was stopped |
| `Welfare.StoppedOnlyAsCaller` | services/device-api/src/main.rs:747-771 | A stopped dog is in a session only as its caller, and only if its invite was ringing when it was stopped |
| `Welfare.StoppedInSessionIff` | services/device-api/src/main.rs:747-771 | In every reachable state a session's caller is stopped iff it was already stopped as the callee accepted and has not been released since |
| `Outcomes.AcceptSucceedsIff` | services/device-api/src/main.rs:563-588 | In every reachable state an accept succeeds iff the invite is open, addressed to the dog and not due, and the dog is present and neither stopped, disabled nor asleep; the caller's policy has no say |
| `Outcomes.AcceptJoinsStoppedIff` | services/device-api/src/main.rs:563-588 | An accept puts a stopped dog into a session iff it succeeds and that dog is the caller, stopped while it rang |
| `Outcomes.DirectedCreateIff` | services/device-api/src/main.rs:423-477 | In every reachable state a call to a given dog goes out iff the two are different, present and mutually bonded, neither is stopped, disabled, asleep or occupied, and the caller is under its limit by its full history |
| `Outcomes.AutomaticCreateIff` | services/device-api/src/main.rs:423-477 | In every reachable state an automatic call can go out iff such a caller has a free peer among its strongest present and bonded ones, and goes out for every iteration order of the map iff all those are free; a weaker peer is never tried |
| `Answers.CreateAnswer` | services/device-api/src/main.rs:424-471 | Why a create is refused in every reachable state, each reason with its exact condition for the caller and the route, and for the peer when one is asked for; the internal busy refusal never |
| `Answers.AcceptAnswer` | services/device-api/src/main.rs:563-588 | Why an accept is refused, each reason with its exact condition: policy, not open or due, another's, absent; never because it is not ringing, found expired or busy |
| `Answers.OutsidersRefused` | services/device-api/src/main.rs:518-730 | Cancels, ends, media reports and Agains are refused to dogs that are no party, and to nobody else, and then change nothing; all but media tell them so |
| `Answers.MediaAnswer` | services/device-api/src/main.rs:668-697 | A media report answers both ready iff the last report of each of the two dogs was ready |
| `Answers.AgainAnswer` | services/device-api/src/main.rs:711-737 | Again answers with the session as it then stands: its segment ends a segment of the presser's from now or at the hard end, and nothing else changed |
| `Removals.SessionGoneIff` | services/device-api/src/main.rs:173-195 | In every reachable state a step takes a live session away, in memory and table, iff it is an end by one of its dogs, a stop switched on for one of them, or a tick that finds the caller's limit used up, an Active session past its segment, or a dog stopped |
| `Removals.InviteGoneIff` | services/device-api/src/main.rs:424-592 | In every reachable state a step takes an open invite away iff it is a cancel by one of its dogs, its callee's timely accept while present and neither stopped, disabled nor asleep, or, once it is due, a step that expires |
| `Settings.PolicyIsLastAsked` | services/device-api/src/main.rs:747-852 | Each setting of each dog's policy, in every reachable state, is what the steward last asked for that setting, or the default if it never did |
| `Settings.BondIsLastPairing` | services/device-api/src/main.rs:791-817 | Two dogs are bonded, in every reachable state, iff the steward ever paired them, and equally strongly both ways, as last asked within 0.3 to 1 |
| `Settings.PresentIffReported` | services/device-api/src/main.rs:337-353 | In every reachable state a dog counts as present iff the newest of all its reports delivered says present and is at most 10 seconds old |
| `Restart.RestartYields` | crates/db/src/sqlite.rs:114-145 | What loading yields from the rows, in whatever order they come back |
| `Restart.MediaKeepsMirror` | services/device-api/src/main.rs:673-690 | In every reachable state, after a party's media report the session's row reads back as the live session iff the report was ready |
| `Restart.AgainKeepsMirror` | services/device-api/src/main.rs:715-734 | In every reachable state, after a party's Again the row reads back as the live session iff the live flags are all up |
| `Restart.ExactByWrite` | services/device-api/src/main.rs:589-734 | A session's row is exact iff the last step that wrote it was the accept, a ready report, or an Again while its flags were up |
| `Restart.RestartAlways` | crates/db/src/sqlite.rs:114-145 | In every run at all a restart keeps the sessions, the dog index and every record, but for promotions to Active by row flags; it restores the whole live store iff for each live session the last step that wrote its row was the accept, a ready report, or an Again while its flags were up |
| `Restart.RestartFlags` | crates/db/src/sqlite.rs:114-145 | In every run the media flags a restart gives a session are set by the last write of its row: none after the accept, all after an Again, and after a media report, ready or not, the reporter's, and the other's iff both were up |
| `Restart.RestartRefines` | crates/db/src/sqlite.rs:114-145 | In every run whose clients only report ready and press Again only on Active sessions, a restart restores records, dog index and flags exactly |
| `Scenarios.HardEndMissed` | services/device-api/src/main.rs:174-188 | A run in which an Active session outlives a tick exactly at its hard end |
| `Scenarios.StoppedCallerMeets` | services/device-api/src/main.rs:761-768 | A run in which a stopped dog is in a session |
| `Scenarios.SelfInvited` | crates/session/src/lib.rs:63-67 | A run in which a dog is invited by itself |
| `Scenarios.UnreadyIsLost` | services/device-api/src/main.rs:681-688 | A run after which a restart brings back other flags than the live ones |
| `Scenarios.AgainOverstates` | services/device-api/src/main.rs:732-734 | A run in which an Again on an Active session makes a restart bring back a flag that is down |
| `Scenarios.StaleRowMeetsSession` | services/device-api/src/main.rs:424 | A run after which a restart can leave a dog in both an open invite and a session |
| `StaleInvites.RunCovers` | services/device-api/src/main.rs:166-171 | In every reachable state each open invite has its row, and every other row is of an invite already due |
| `StaleInvites.LoadInvites` | crates/db/src/sqlite.rs:101-112 | The loop over the rows leaves the store the fold of inserts describes, refusals ignored |
| `StaleInvites.RestartExclusiveIff` | crates/db/src/sqlite.rs:95-145 | A restart keeps open invites and sessions apart, for every order of the rows, iff no invite row names a dog that is in a session |
| `StaleInvites.OpenInviteSurvivesIff` | crates/db/src/sqlite.rs:95-112 | In every reachable state an open invite survives a restart, for every order of the rows, iff no other, stale, row names one of its dogs |
| `StaleInvites.TickRestoresExclusivity` | services/device-api/src/main.rs:166-171 | A tick on the stores just loaded leaves open only invites that were open before the restart, unchanged, so no dog is in both; `Recovery.RecoversForGood` is the general statement |
| `Recovery.RestartRecovers` | crates/db/src/sqlite.rs:95-145 | A restart from any reachable state, for every order of the rows, leaves stores that would satisfy the whole store invariant if what is due had been expired |
| `Recovery.RecoverStep` | services/device-api/src/main.rs:166-771 | From such stores every step leads to such stores, and a step that expires invites first restores the whole store invariant |
| `Recovery.OverlapIsDue` | services/device-api/src/main.rs:424 | Until then a dog in both an open invite and a session is so only by an invite already due |
| `Recovery.TickRestores` | services/device-api/src/main.rs:166-196 | From such stores, whatever came between, one tick restores the store invariant |
| `Recovery.RecoversForGood` | services/device-api/src/main.rs:166-771 | After a restart and any requests, from the first step that expires invites on, the store invariant holds in every state |
| `LockRegions.StepSafe` | crates/db/src/memory.rs:114-157 | Every lock region of every thread keeps the store invariant |
| `LockRegions.StoreSafety` | crates/db/src/memory.rs:114-157 | Over all interleavings: each index entry is a live invite's or one exactly one thread holds half-way, dogs of distinct such invites are disjoint, and no invite is handed out twice |
| `LockRegions.QuiescentIsConsistent` | crates/db/src/memory.rs:114-157 | When no operation is in progress, index and records agree exactly and the lock is free |
| `LockRefinement.InterleavingRefines` | crates/db/src/memory.rs:114-157 | Over all interleavings, filing a record is an insert of two free dogs into the atomic store, removing one, or looking for one that is gone, is a close, and no other region changes it |
| `LockRefinement.LookupRefines` | crates/db/src/memory.rs:129-133 | Over all interleavings a lookup answers what the atomic store would at that moment |
| `LockRefinement.SpuriousBusyIff` | crates/db/src/memory.rs:114-146 | An insert is refused iff it finds one of its dogs indexed; it is so although the atomic store has both dogs free iff every dog it finds indexed, and there is one, belongs to an invite some thread is halfway through closing |
| `LockRefinement.MissingYetBusyIff` | crates/db/src/memory.rs:129-146 | A lookup would answer none and an insert report busy iff a thread is halfway through a close of that dog's invite; a lookup stops at the index iff the dog is not indexed |
| `LockRefinement.QuiescentIsAtomic` | crates/db/src/memory.rs:102-157 | With nothing in progress the atomic store is the concrete one |
| `LockProgress.NeverStuck` | crates/db/src/memory.rs:114-157 | While some operation is under way, one that is under way can take its next region, and that changes the state |
| `LockProgress.ExpiryCompletes` | crates/db/src/memory.rs:148-157 | Whatever other threads do, once a thread ends `expire_due` every invite live and due at its scan has left the record map for good, and it never has another to close |
| `LockProgress.NothingLost` | crates/db/src/memory.rs:114-157 | Over all interleavings each invite ever inserted is live, held halfway by a thread, or handed out by a close: exactly one of these |
| `Edge.EdgeAgent.RefreshUxFromPresence` | edge/canis-edge/src/lib.rs:72-98 | The whole new agent state after a presence refresh |
| `Edge.EdgeAgent.IngestUart` | edge/canis-edge/src/lib.rs:101-118 | State, snapshots and press intents after a chunk of bytes |
| `Edge.EdgeAgent.NextReport` | edge/canis-edge/src/lib.rs:120-134 | Strictly increasing numbers, and the filter's current values |
| `Edge.EdgeAgent.FetchConfig` | edge/canis-edge/src/lib.rs:152-176 | State after a configuration read, for every kind of reply |
| `Edge.EdgeAgent.Call` | edge/canis-edge/src/lib.rs:178-209 | State and error for every kind of reply |
| `Edge.EdgeAgent.PollIncoming` | edge/canis-edge/src/lib.rs:211-242 | An offer is taken up unless ringing out, negotiating or in session |
| `Edge.EdgeAgent.AcceptIncoming` | edge/canis-edge/src/lib.rs:244-275 | State and error for every pair of replies |
| `Edge.EdgeAgent.ReportMediaReady` | edge/canis-edge/src/lib.rs:277-310 | In session iff the reply's session is Active or both are ready |
| `Edge.EdgeAgent.Again` | edge/canis-edge/src/lib.rs:312-340 | The stored session is replaced by the reply's |
| `Edge.EdgeAgent.EndSession` | edge/canis-edge/src/lib.rs:342-371 | Back to idle by presence, if there was a session |
| `Edge.EdgeAgent.SyncActive` | edge/canis-edge/src/lib.rs:373-400 | The agent follows the session the cloud reports |
| `Edge.EdgeAgent.HandleIntent` | edge/canis-edge/src/lib.rs:402-423 | Which call each press makes in each state |
| `Edge.AgentAlwaysOk` | edge/canis-edge/src/lib.rs:72-423 | After any run of calls both decoders hold the same bytes, ringing in implies an offer, negotiating or in session implies a session |
| `Edge.TwinDecoders` | edge/canis-edge/src/lib.rs:101-118 | Snapshots and press intents of the next chunk come from one and the same frame list |
| `Edge.PressesArrive` | edge/canis-edge/src/lib.rs:104-116 | A tick of the emulator fed to an empty decoder gives exactly the intents of the queued buttons, in order, with nothing left over |
| `Edge.PressNeverLacks` | edge/canis-edge/src/lib.rs:402-423 | No press can fail for want of an offer or a session |
| `Edge.StopHaltsIffNoSession` | edge/canis-edge/src/lib.rs:167-175 | A stop in the configuration disarms and ends the session, and leaves the agent Halted iff there was no session |
| `Edge.ArmedMeaningful` | edge/canis-edge/src/lib.rs:86-99 | Every call keeps armed implying present, not stopped and not disabled; every chunk and configuration read establishes it; only a new agent lacks it |
| `EdgeLaws.DoneHangsUp` | edge/canis-edge/src/lib.rs:418-420 | After any run, Done while negotiating or in session leaves no session and an idle state that matches presence |
| `EdgeLaws.AgainKeepsSession` | edge/canis-edge/src/lib.rs:415-417 | After any run, Again in session keeps that state and the session, or takes the one the reply carries |
| `EdgeLaws.AnyPressAnswers` | edge/canis-edge/src/lib.rs:410-414 | After any run, any press while ringing in answers: if the accept goes through, the offer is used up and the terminal negotiates or is in session with the latest session carried; otherwise nothing changes |
| `EdgeLaws.CallAndPlayDial` | edge/canis-edge/src/lib.rs:404-408 | After any run, Call and Play while idle, present and armed call: ringing out on success, idle if turned down, else waiting |
| `EdgeLaws.OtherPressesIgnored` | edge/canis-edge/src/lib.rs:402-423 | After any run, every other press changes nothing and reports no error |
| `EdgeLaws.PressFailsIff` | edge/canis-edge/src/lib.rs:402-423 | After any run, a press fails iff a reply it needs is not a good one |
| `EdgeLaws.RingingOutIff` | edge/canis-edge/src/lib.rs:178-209 | Ringing out is entered iff an armed terminal calls and the call goes through |
| `EdgeLaws.InvitingIff` | edge/canis-edge/src/lib.rs:178-209 | Inviting is entered iff an armed terminal calls and gets no answer or an unreadable one |
| `EdgeLaws.RingingInIff` | edge/canis-edge/src/lib.rs:211-242 | Ringing in is entered iff a poll brings an offer to an armed terminal that is not engaged |
| `EdgeLaws.NegotiatingIff` | edge/canis-edge/src/lib.rs:244-400 | Negotiating is entered iff an accept or a synchronisation brings a session and not both dogs are up |
| `EdgeLaws.InSessionIff` | edge/canis-edge/src/lib.rs:244-400 | In session is entered iff an accept, a synchronisation or a media report shows both dogs up |
| `EdgeLaws.HaltedIff` | edge/canis-edge/src/lib.rs:167-172 | Halted is entered iff a configuration with the emergency stop is read while there is no session |
| `EdgeLaws.IdlePresentIff` | edge/canis-edge/src/lib.rs:72-371 | Idle with a dog present is entered iff a dog arrives on an idle terminal, a call is turned down, or a session ends with the dog there |
| `EdgeLaws.IdleEmptyIff` | edge/canis-edge/src/lib.rs:72-371 | Idle and empty is entered iff the dog leaves a terminal that is idle or ringing in, or a session ends with no dog there |
| `EdgeLaws.SessionHeld` | edge/canis-edge/src/lib.rs:244-400 | The session held is dropped exactly when the terminal hangs up, and otherwise is the last one a reply carried |
| `EdgeLaws.OfferHeld` | edge/canis-edge/src/lib.rs:86-263 | The offer held is the last that rang, until an accept uses it up or the dog leaves |
| `EdgeLaws.ArmedExact` | edge/canis-edge/src/lib.rs:86-99 | Every chunk of bytes and every configuration read arms the terminal iff a dog is present, the last configuration neither stops nor disables it, and it is not halted; nothing else changes that |

## Left out

- HTTP, JSON, routing, WebSocket channels and the event hub: inputs are parsed values, and nothing modelled reads what is published.
- Device and steward authentication and the terminal-to-dog map: callers are taken to be who they say.
- SQL execution and date parsing: tables are maps by primary key, writes succeed, and instants survive their text form.
- The tables for policies, bonds, presence and invite events: not every handler keeps them in step with memory, and no restart theorem is claimed for them.
- Enrolment, and the reads of configuration, presence and the active session: they change nothing modelled here.
- The order in which hash maps list their entries: listings are sets, or lists in any order.
- Rounding of floats and not-a-number in forces, confidences and weights: reals instead.
- Overflow of instants and of the 32-bit and 64-bit policy fields, and sub-millisecond time.
- Interleaving inside handlers, between a handler and its database write, and between session-store regions: each handler is one step.
- Threads in `LockRegions` do not carry return values other than the invites handed out by close.
- `edge/canis-media`, signalling, the browser portal and the Android client: code over libraries not part of this model.
- Architecture features that are not in the code, such as glare resolution, cool-downs and bond learning.
