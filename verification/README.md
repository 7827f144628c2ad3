# What the satellites, their links and the rules keep: a model in Dafny

A hub has cameras and rules; satellites around the house send it sensor readings and sound. This
project models that exchange and the rules it feeds, and proves what holds over whole runs of it.

- **The event protocol.** A node numbers its readings, spools them and publishes them under a grant that
  runs out; the broker may lose, repeat, delay and reorder; the hub lets in only what comes on the current
  connection, in the current epoch, under a live grant, classifies it against a mark it keeps per source,
  journals it, acknowledges it and queues it for the rules. `Agent`, `Spool`, `Seen`, `Numbering` are the
  node, `AgentProofs` what its process keeps over its life and `SendingProofs` what goes out of it; `Registry`, `Sessions`, `Journal`, `Ingress`, `RateLimiter`, `Service` are the hub; `System` puts
  both and the network in one step machine, and `SystemProofs` proves what every run of it keeps. `IngressProofs`,
  `SessionProofs`, `HubProofs`, `DoorProofs` and `GrantProofs` tell what the hub does from what it heard alone: what is
  written down, where each source stands, who may come in, what reaches the rules, and that a node that hears its
  renewals may publish throughout.
- **Two readers of byte streams.** `Link` finds frames in what a serial cable delivers; `Blocks` puts
  numbered blocks of sound back together. `LinkProofs`, `BlockProofs` and `Crc32` prove that the cutting
  does not matter, that nothing is lost uncounted, and that damage is noticed.
- **The rule that waits for a camera** (`Correlation`, and `CorrelationProofs`, which tells when it opens and fires from
  events and samples alone), **what a node reads** (`SourceList`,
  `Reconfiguration`), **the sound a listener is given** (`Subscription`), and **the rules document in its
  two versions** (`RuleIds`, `Migration`).

How it is written: what a component does is a function from state to state, and where the component
changes itself in place a class does the same step by step, proved equal to the function, loops included.
The theorems are about those functions, over all inputs, histories and interleavings.

How the world is seen:

- In `System` the network is the set of everything ever published, any of which may arrive at any time,
  again or never. Each lock-protected operation and each handled message is one step. Boot ids,
  connection ids and event ids are never drawn twice, and a node runs one process at a time. A step may fail
  or break off where the journal, the disk or a handler may. The event budget is not asked there: an event it
  refuses is one more that was lost.
- Clocks are real numbers read by the caller and passed in. Nothing is assumed of the wall clock; the
  monotonic clock does not go back where a theorem says so.
- A JSON message is modelled as what each handler finds in it where it looks. The journal's SHA-256
  fingerprint is modelled by the contents it stands for.
- A method that Python would leave by an exception reports it (`raised`, `Failure`, `None`), with the
  effects it had before.

Where the code does less than its words say:

- `service.py` says a message is left unacknowledged only for an event that could not be written
  (`EachMessageIsSettledOnce` is the exact condition). Some never are acknowledged, however often they are
  delivered: a payload nested too deep for the decoder, on any channel (`TooDeepIsNeverAcknowledged`); an event
  whose moment has no form in UTC or whose number does not fit a signed 64-bit integer (`NoUtcIsNeverAcknowledged`,
  `TooWideIsNeverAcknowledged`); a state with a kind that is a list or an object, or a camera whose frame rate
  is no number (`SomeStatesAreNeverAcknowledged`, `ABadFrameRateIsNeverAcknowledged`). Others wait for the
  world: none is acknowledged while the registry's file cannot be read (`UnreadableRegistryAnswersNobody`), and
  a state broken off by an epoch that could not be written is acknowledged when it comes again and the disk
  works (`AcknowledgedOnceTheDiskWorks`).
- `identity.py` says the epoch only counts up. It does exactly while nobody puts a registry file in place whose
  epoch is lower than the last one handed out, or deletes it, which the code does not notice
  (`NumbersRiseExactly`, `AnEditIsSafeExactly`, `NeverSetBackExactly`, `ASetBackFileRepeatsANumber`).
- `migration.py` says rules keep the identifiers they already had. They do exactly when no new rule takes the
  identifier of one behind it (`KeptUnlessTaken`, `OneNewRule`, `ANewRuleCanTakeAnId`).
- Reconfiguration is all or nothing except after a restore that failed (`AllOrNothing`,
  `AFailedRestoreCanComeBack`); a reboot whose builder accepts brings back the last revision put in force
  (`ABootRunsTheLastInForce`), unless the board is found with an overlay nested past the decoder, over which no
  process ever starts (`ATooDeepOverlayNeverStarts`).
- An overlay reads back as it was only with a driver for the board itself, which this agent has
  (`ReloadIsTheIdentity`, `NoBoardDriverNoReload`).
- A reading that waited for its link may go out as news: the clock is read once to tell how long it waited and
  again to tell history, so what passes between the two, and the part of a millisecond left out, is what a
  wait must exceed (`HistoryIsWhatWaitedForTheLink`, `ASlowSecondReadingMissesIt`).
- A failed batch goes back reversed, and a requeue may leave the spool over its byte limit
  (`FailedBatchGoesBackReversed`, `ByteLimitAfterRequeue`).

`dafny verify dfyconfig.toml` checks the whole project.

## Model

| member | source | states |
|---|---|---|
| `Link.Reader.constructor` | src/sentry_mode/satellites/link.py:146-169 | a reader starts with nothing pending, no counter and every count at zero |
| `Link.Reader.FeedBytes` | src/sentry_mode/satellites/link.py:171-178 | one `feed`: the frames, counts, pending bytes or refusal the byte-at-a-time specification gives, where a refusal discards the frames the same call had collected |
| `Link.Reader.TakeOne` | src/sentry_mode/satellites/link.py:180-206 | one `_take`: the search for the magic and the four-byte skip after a bad candidate give exactly what giving up one byte at a time gives |
| `Link.Reader.Examine` | src/sentry_mode/satellites/link.py:191-204 | a candidate is judged by version, flags and length before the trailer is there, and by its checksum after |
| `Link.Reader.AcceptRaw` | src/sentry_mode/satellites/link.py:212-225 | kind and direction are checked first; then `missed` grows by the counter gap modulo 2^32 |
| `Link.Reader.Discard` | src/sentry_mode/satellites/link.py:208-210 | bytes given up are counted and gone |
| `Link.FindMagic` | src/sentry_mode/satellites/link.py:182-188 | the first occurrence of the magic, or none anywhere |
| `Link.NoMagicIsJunk` | src/sentry_mode/satellites/link.py:182-190 | bytes in front of the first magic are exactly the bytes given up one at a time |
| `Link.MagicStandsAlone` | src/sentry_mode/satellites/link.py:197-204 | the magic does not overlap itself, so dropping its four bytes skips no frame start |
| `LinkProofs.CuttingDoesNotMatter` | src/sentry_mode/satellites/link.py:171-210 | any cutting of a stream gives the frames, counts and pending bytes, or the refusal, of a single feed |
| `LinkProofs.EveryByteIsAccountedFor` | src/sentry_mode/satellites/link.py:171-225 | frame bytes + discarded + pending = bytes fed; `missed` is the sum of counter gaps; every frame is of a kind that side may send |
| `LinkProofs.RoundTrip` | src/sentry_mode/satellites/link.py:111-121 | frames a side may send, packed, joined and cut anywhere, read back exactly with nothing discarded |
| `LinkProofs.MissedIsWhatWasLost` | scripts/pico_bridge.py:233-244 | with a writer that counts by one and wraps, `missed` is the number of frames lost between those that arrived |
| `LinkProofs.NothingMissedWhenNothingLost` | scripts/pico_bridge.py:233-244 | such a writer's frames, all arriving, leave `missed` at zero |
| `LinkProofs.NoiseCostsItself` | src/sentry_mode/satellites/link.py:180-210 | in front of a frame, noise costs exactly its own length if and only if no position in it holds a candidate that passes or is still incomplete |
| `LinkProofs.NoMagicHoldsNothing` | src/sentry_mode/satellites/link.py:182-190 | noise with no magic in it, or straddling its end, is such noise |
| `LinkProofs.NoiseThenFrames` | src/sentry_mode/satellites/link.py:171-210 | after such noise every frame is read back, over any cutting, and exactly the noise is discarded |
| `LinkProofs.DamageIsRefused` | src/sentry_mode/satellites/link.py:111-121 | changing up to four consecutive bytes of a packed frame, outside the magic and the length, makes its own position fail the checksum, whatever follows |
| `Crc32.BurstIsNoticed` | src/sentry_mode/satellites/link.py:111-112 | the CRC-32 of section 8 of RFC 1952 tells apart two texts that differ in a run of at most four bytes |
| `Crc32.AbsorbAllInjective` | src/sentry_mode/satellites/link.py:111-112 | absorbing the same bytes keeps two different registers different |
| `Crc32.StepLinear` | src/sentry_mode/satellites/link.py:111-112 | one bit step is linear over exclusive or |
| `Crc32.CheckValue` | src/sentry_mode/satellites/link.py:111-112 | the published check value of the polynomial, 0xCBF43926 for the nine ASCII digits |
| `Blocks.Reassembler.constructor` | src/sentry_mode/audio/blocks.py:105-119 | nothing pending, nothing numbered, every count at zero |
| `Blocks.Reassembler.FeedBytes` | src/sentry_mode/audio/blocks.py:121-139 | one `feed`: the sound, counts and pending bytes, or the refusal, of the specification |
| `Blocks.Reassembler.Examine` | src/sentry_mode/audio/blocks.py:124-136 | the header is judged when it is there, before the samples are |
| `Blocks.Reassembler.AcceptBlock` | src/sentry_mode/audio/blocks.py:141-165 | an old number is a duplicate, an overlap is refused and changes nothing, a gap of at most a second is filled with silence |
| `BlockProofs.CuttingDoesNotMatter` | src/sentry_mode/audio/blocks.py:121-139 | any cutting gives the sound, counts and pending bytes, or the refusal, of a single feed |
| `BlockProofs.StoryOfAStream` | src/sentry_mode/audio/blocks.py:121-165 | over any cutting, nothing is raised if and only if the stream is all blocks and those that count do not overlap; then state, sound and pending bytes are told from the blocks alone |
| `BlockProofs.StoryOfBlocks` | src/sentry_mode/audio/blocks.py:141-165 | the blocks that count are exactly those numbered higher than every block before them |
| `BlockProofs.KeptRises` | src/sentry_mode/audio/blocks.py:142-152 | accepted sequence numbers rise strictly |
| `BlockProofs.TimelineOfAStream` | src/sentry_mode/audio/blocks.py:141-165 | next sample = first accepted + samples accepted + lost; samples emitted = accepted + filled; while no gap is over a second every block sounds where it was captured and the rest is silence |
| `BlockProofs.SamplesAddUp` | src/sentry_mode/audio/blocks.py:150-164 | the sample arithmetic of a list of blocks; filled equals lost while no gap is over a second |
| `BlockProofs.CountsCount` | src/sentry_mode/audio/blocks.py:150-162 | `gaps` counts the late starts, `node_gaps` the flagged blocks, and the last capture time is the last block's |
| `BlockProofs.ParsePacked` | src/sentry_mode/audio/blocks.py:68-82 | packed blocks are read back one by one with nothing left over |
| `BlockProofs.HeardAsSent` | src/sentry_mode/audio/blocks.py:68-165 | what a node packs, cut anywhere, all plays out unless a newer block overlaps the one before it |
| `Subscription.Reader.PutChunk` | src/sentry_mode/audio/remote.py:69-79 | a chunk is queued and the oldest are dropped and counted while the queue is over its limit, the newest always staying |
| `Subscription.Reader.ReadAll` | src/sentry_mode/audio/remote.py:81-91 | everything queued, in order; nothing queued is an empty chunk, or no chunk once closed |
| `Subscription.Reader.Close` | src/sentry_mode/audio/remote.py:93-97 | once closed nothing more is taken, what is queued can still be read, and the lease is given back |
| `Subscription.EveryByteIsReadDroppedOrQueued` | src/sentry_mode/audio/remote.py:69-97 | over any run, bytes put = read + dropped + queued, and what is queued is a suffix of the chunks put since the last read |
| `Subscription.TrimDropsWhatItMust` | src/sentry_mode/audio/remote.py:69-79 | a put drops the oldest only, and only while what is queued from there on is over the limit |
| `Subscription.ReadsTheNewestStretch` | src/sentry_mode/audio/remote.py:81-91 | after any run a read hands over the newest unbroken stretch of what was put since the last one, in order |
| `Subscription.NothingToRead` | src/sentry_mode/audio/remote.py:81-97 | after any run, a reader that finds nothing queued is handed an empty chunk, or none exactly if it was closed |
| `Correlation.RuleState.ExpireBy` | src/sentry_mode/sentry/correlation.py:46-59 | a candidate past its deadline goes |
| `Correlation.RuleState.DropCandidate` | src/sentry_mode/sentry/correlation.py:62-67 | a candidate that can no longer be trusted goes |
| `Correlation.RuleState.SequenceEvent` | src/sentry_mode/sentry/correlation.py:70-119 | a sensor event through a rule: expiry, doubt, edge, order, open window, zone and latch, in that order |
| `Correlation.RuleState.SequenceSample` | src/sentry_mode/sentry/correlation.py:122-158 | a camera sample through a rule: absence, rearming, hits, confirmation and cooling |
| `Correlation.RuleState.MissedFrames` | src/sentry_mode/sentry/engine.py:749-755 | a gap in the samples ends hits, absence and candidate |
| `Correlation.LatchedHoldsNoCandidate` | src/sentry_mode/sentry/correlation.py:98-115 | in every state of every run a latched rule holds no candidate, no candidate means no hits, and the deadline is the opening plus the window |
| `Correlation.CandidateHasAWindow` | src/sentry_mode/sentry/correlation.py:70-119 | a candidate is always a window that opened at a valid firing event, was never disturbed or moved, and its hits are the samples in a row that count |
| `Correlation.WindowIsTheCandidate` | src/sentry_mode/sentry/correlation.py:70-158 | conversely, every such window is the candidate, until it is disturbed or confirmed |
| `Correlation.FiresExactlyWhenConfirmed` | src/sentry_mode/sentry/correlation.py:122-158 | over any interleaving, a rule fires if and only if a window is being completed by its consecutive samples, all in (opened, deadline], and the rule has cooled |
| `Correlation.EachTriggerHasItsOwnOpening` | src/sentry_mode/sentry/correlation.py:140-158 | each opening confirms at most once |
| `Correlation.OutOfSightBetweenTriggers` | src/sentry_mode/sentry/correlation.py:127-137 | between two triggers lies an unbroken run of samples without the object, over at least the rearming time, and after it the opening of the second |
| `Correlation.OpeningTimesRise` | src/sentry_mode/sentry/correlation.py:84-115 | windows open at strictly rising times, however late events arrive |
| `Correlation.EveryEndIsReported` | src/sentry_mode/sentry/correlation.py:46-158 | a candidate goes exactly when the notes say expired, cancelled, cooling or triggered; an event that finds no window says why none opened |
| `CorrelationProofs.TheRuleDoesExactlyThis` | src/sentry_mode/sentry/correlation.py:46-158 | over every history, a window opens, the rule fires and it is latched exactly when the events and samples say: told from them alone, sensor, direction, zone, window, samples in a row, cooling, and the object's having left since the last time |
| `CorrelationProofs.WhatIsSaidOfAWindow` | src/sentry_mode/sentry/correlation.py:46-158 | over every history, a rule says that its window ran out, was dropped, was first or last confirmed, or that the object left, exactly when the events and samples say so |
| `CorrelationProofs.WhatIsSaidOfAnEvent` | src/sentry_mode/sentry/correlation.py:70-119 | and of an event that finds no window, that one opens, or that it is in another zone, or that the object confirmed last has not left |
| `CorrelationProofs.TheWindowIsTold` | src/sentry_mode/sentry/correlation.py:70-158 | the candidate in the state is that window, with its event, its zone and its end, and its hits the samples in a row |
| `CorrelationProofs.AnyAbsenceWillDo` | src/sentry_mode/sentry/correlation.py:127-137 | with samples in the order received, any unbroken absence of the rearming time means the object has left |
| `RateLimiter.Limiter.constructor` | src/sentry_mode/satellites/ingress.py:131-136 | the shared bucket starts full, and so does any node's |
| `RateLimiter.Limiter.Draw` | src/sentry_mode/satellites/ingress.py:138-144 | refill by the clock up to capacity, then take one if there is one |
| `RateLimiter.Limiter.AllowEvent` | src/sentry_mode/satellites/ingress.py:146-161 | the node's bucket first, then the shared one; an event the shared bucket refuses leaves the node's untouched |
| `RateLimiter.LazyIsIdeal` | src/sentry_mode/satellites/ingress.py:138-161 | the lazily stored buckets answer every history exactly as buckets refilled all the time |
| `RateLimiter.FreshIsFull` | src/sentry_mode/satellites/ingress.py:131-136 | a new limiter holds what ideal full buckets hold |
| `RateLimiter.RefusedLeavesNoTrace` | src/sentry_mode/satellites/ingress.py:148-158 | a refused call changes no later answer |
| `RateLimiter.WithoutTheRefused` | src/sentry_mode/satellites/ingress.py:146-161 | a history without its refused calls is let through whole |
| `RateLimiter.RateBound` | src/sentry_mode/satellites/ingress.py:146-161 | between any two calls of any history at most `events_per_minute * (1 + T/60)` per node and `total_events_per_minute * (1 + T/60)` overall get through |
| `Spool.Queue.constructor` | satellite/src/sentry_satellite/spool.py:46-57 | an empty spool |
| `Spool.Queue.PutItem` | satellite/src/sentry_satellite/spool.py:59-69 | append, expire, then drop the oldest over the count and over the bytes |
| `Spool.Queue.TakeItems` | satellite/src/sentry_satellite/spool.py:71-80 | expire, then hand out the oldest |
| `Spool.Queue.RequeueItem` | satellite/src/sentry_satellite/spool.py:90-101 | put back in front, then drop the newest over the count |
| `Spool.Queue.DropExpired` | satellite/src/sentry_satellite/spool.py:85-88 | the oldest go while they are too old |
| `Spool.Queue.DiscardFront` | satellite/src/sentry_satellite/spool.py:103-106 | one oldest item goes, counted |
| `Spool.PutKeepsTheNewest` | satellite/src/sentry_satellite/spool.py:59-69 | after a put both limits hold and what is held is the newest part, the rest counted |
| `Spool.PutDropsWhatItMust` | satellite/src/sentry_satellite/spool.py:59-69 | a put drops the oldest while too old, then as many as there are too many, then as many as it takes for the rest to fit the bytes, no more, each counted as what it was |
| `Spool.TakeHandsOutTheOldest` | satellite/src/sentry_satellite/spool.py:71-80 | a take hands out, in order, the oldest that have not expired |
| `Spool.RequeueKeepsTheOldest` | satellite/src/sentry_satellite/spool.py:90-101 | a requeue keeps the oldest, the item put back first |
| `Spool.NothingIsLostUncounted` | satellite/src/sentry_satellite/spool.py:59-106 | puts + requeued = held + taken + `drops.total`; the byte count is the sum of sizes; the count limit always holds and the byte limit after every put |
| `Spool.FailedBatchGoesBackReversed` | satellite/src/sentry_satellite/spool.py:90-96 | a batch that fails item by item goes back reversed in front of what came in meanwhile; where that is too many, the newest go |
| `Spool.ByteLimitAfterRequeue` | satellite/src/sentry_satellite/spool.py:90-101 | the byte limit holds after a requeue exactly when the item and what is held fit it, less the newest item if the spool was full |
| `Seen.Commands.RememberOutcome` | satellite/src/sentry_satellite/commands.py:178-183 | an outcome is remembered as the newest, the oldest forgotten over capacity |
| `Seen.Commands.AskOutcome` | satellite/src/sentry_satellite/commands.py:185-189 | asking about an id makes it the newest |
| `Seen.RememberedWhileFewOthers` | satellite/src/sentry_satellite/commands.py:166-195 | an id remembered, or asked about and known, stays known over any run in which fewer than `capacity` other ids are touched, however often it is touched itself, and its answer is the last one remembered |
| `Seen.MemoryIsBounded` | satellite/src/sentry_satellite/commands.py:178-183 | over any run no more is remembered than the capacity |
| `Numbering.Sequencer.Take` | satellite/src/sentry_satellite/protocol.py:83-87 | the source's next number, and its counter moves by one |
| `Numbering.NumbersRise` | satellite/src/sentry_satellite/protocol.py:71-87 | the numbers one source takes rise strictly, whatever the others take |
| `Agent.Process.constructor` | satellite/src/sentry_satellite/agent.py:83-132 | a new process holds no grant, no numbers and no readings |
| `Agent.Process.Connect` | satellite/src/sentry_satellite/agent.py:254-274 | an attempt to connect names a new connection; when the link comes up everything recorded before now is history |
| `Agent.Process.RecordSample` | satellite/src/sentry_satellite/agent.py:285-302 | a reading is numbered and spooled; a bad name is refused before it takes a number, a bad value after |
| `Agent.Process.RecordBaselines` | satellite/src/sentry_satellite/agent.py:678-690 | the baselines are recorded one by one, like any reading |
| `Agent.Process.SendOne` | satellite/src/sentry_satellite/agent.py:304-326 | sent under the grant in force at the third reading of the clock, told how long it waited at the first and whether it is history at the second; refused if too big, requeued otherwise |
| `Agent.Process.NetworkRound` | satellite/src/sentry_satellite/agent.py:234-244 | up to eight of the oldest, taken only under a grant for events, sent one by one, each with its own readings of the clock |
| `Agent.Process.HandleCommand` | satellite/src/sentry_satellite/agent.py:413-433 | a command is answered from memory, or begun if it is a configuration, or acted on and remembered |
| `Agent.Process.BeginConfigure` | satellite/src/sentry_satellite/agent.py:442-458 | a configuration is remembered as received and left to another thread, or refused without being remembered while one is being applied |
| `Agent.Process.FinishConfigure` | satellite/src/sentry_satellite/agent.py:460-466 | the next configuration may come, and the outcome of this one is remembered |
| `Agent.Process.ApplyCommand` | satellite/src/sentry_satellite/agent.py:550-626 | grants, renewals, revocations and streams: a renewal must name the held grant and be numbered higher, a fresh grant records the baselines, a stream needs a current grant of the hub that asks |
| `AgentProofs.NewestRenewalWins` | satellite/src/sentry_satellite/agent.py:561-583 | however renewals are reordered or repeated, the grant held is the newest; none of equal or lower number replaces it |
| `AgentProofs.NewestIsNewest` | satellite/src/sentry_satellite/agent.py:561-583 | the newest of some renewals is one of them, and no other is numbered higher |
| `AgentProofs.WhatACommandDoes` | satellite/src/sentry_satellite/agent.py:550-612 | what a new command does to the grant and is answered: stops and revocations succeed, a grant has an id and a time to run, a renewal names the grant held and is newer, a stream needs a current grant of the hub that asks; and the baselines are recorded exactly when one grant takes the place of another |
| `AgentProofs.AGrantIsNeverTurnedBack` | satellite/src/sentry_satellite/agent.py:413-583 | over any life in which one command gives a grant and fewer than 256 others come after it: whenever the grant is held it was held before, and its number never falls, whatever mix of commands comes in whatever order |
| `AgentProofs.ActedOnOnce` | satellite/src/sentry_satellite/agent.py:413-469 | over any life, a command id is acted on at most once while fewer than 256 other ids intervene, configurations included; a copy is answered by what was remembered last |
| `AgentProofs.OneConfigurationAtATime` | satellite/src/sentry_satellite/agent.py:442-469 | until the first lets the next one in no other configuration is begun, and one turned down leaves no trace |
| `AgentProofs.MemoryIsWhole` | satellite/src/sentry_satellite/commands.py:166-195 | over any life the memory of commands holds each id once, with an answer |
| `AgentProofs.SendTallies` | satellite/src/sentry_satellite/agent.py:304-326 | one send moves one reading to sent, refused, held or dropped, unchanged |
| `AgentProofs.RoundIsItsSteps` | satellite/src/sentry_satellite/agent.py:234-244 | a round is its taking and its sends one after the other; it loses no reading uncounted, sends nothing without a grant and only what was held |
| `AgentProofs.EveryReadingIsAccountedFor` | satellite/src/sentry_satellite/agent.py:234-326 | over a whole life of a process, with readings, commands and links between any two sends, readings taken = sent + refused + held + in hand + dropped and counted |
| `AgentProofs.HistoryIsWhatWaitedForTheLink` | satellite/src/sentry_satellite/agent.py:304-312 | a message is a replay if and only if it waited for the link longer than the clock ran between its two readings plus the part of a millisecond that is not told; never when queued since, always when queued before by a millisecond and that time |
| `AgentProofs.ASlowSecondReadingMissesIt` | satellite/src/sentry_satellite/agent.py:304-312 | in between, one queued five milliseconds before the link came up may pass for news |
| `SendingProofs.WhatIsPublished` | satellite/src/sentry_satellite/agent.py:304-326 | a message is published exactly under a grant that holds at the last look at the clock, if the client takes it; the envelope is the item itself under the connection and grant held, tells the whole milliseconds it waited, and is a replay exactly if it waited for the link longer than the clock ran between its two readings and the part not told |
| `SendingProofs.WhatBecomesOfIt` | satellite/src/sentry_satellite/agent.py:304-326 | a message is published and counted, refused for its size and counted, or back in front of what came in meanwhile |
| `SendingProofs.WhatIsTakenUp` | satellite/src/sentry_satellite/agent.py:234-244 | under a grant of events in force, the oldest that are not too old, eight if there are as many; else nothing |
| `SendingProofs.WhatGoesOut` | satellite/src/sentry_satellite/agent.py:285-326 | over a whole life, what goes out is the event of one reading, with its value, its clock and the count of its source's readings before it, and is a replay exactly if it was read before the link last came up by more than passed between two looks at the clock and the part of a millisecond not told |
| `SendingProofs.HistoryIsNeverNews` | satellite/src/sentry_satellite/agent.py:304-312 | what was read a millisecond and that time before the link last came up never goes out as news, and what was read since never as history |
| `Registry.NodeRegistry.constructor` | src/sentry_mode/satellites/identity.py:110-131 | a registry starts from its file, or empty |
| `Registry.NodeRegistry.Refresh` | src/sentry_mode/satellites/identity.py:133-149 | a file somebody else changed is read again, and everything stays when it cannot be read |
| `Registry.NodeRegistry.Persist` | src/sentry_mode/satellites/identity.py:151-165 | the file is replaced when the write works and is as it was when not |
| `Registry.NodeRegistry.NextEpoch` | src/sentry_mode/satellites/identity.py:172-183 | after looking at the file, the epoch moves by one in memory and, when the disk takes it, in the file; otherwise nobody is given it |
| `Registry.NodeRegistry.Register` | src/sentry_mode/satellites/identity.py:187-216 | a new name waits and may not speak; a known one is refused; when the file cannot be written memory has the change and the file has not |
| `Registry.NodeRegistry.Approve` | src/sentry_mode/satellites/identity.py:218-248 | approving needs a certificate, given or on file, and then the name may speak, in memory even when the file cannot be written |
| `Registry.NodeRegistry.Revoke` | src/sentry_mode/satellites/identity.py:250-264 | a revoked name may not speak and its record stays, in memory even when the file cannot be written |
| `Registry.WhoMaySpeak` | src/sentry_mode/satellites/identity.py:187-264 | over any acts of an administrator, a name may speak exactly if it was registered, approved with a certificate given or on file, and not revoked since |
| `Registry.ChangesAreCounted` | src/sentry_mode/satellites/identity.py:151-183 | over any acts, the document's revision counts its changes |
| `Registry.NumbersHandedOutRise` | src/sentry_mode/satellites/identity.py:120-183 | across restarts, crashes, failed writes and files changed from outside, as long as no file is set back below what was handed out, no epoch is handed out twice: they rise |
| `Registry.NumbersRiseExactly` | src/sentry_mode/satellites/identity.py:120-183 | over any life from any books, the epochs handed out rise if and only if none is given out over a document that is behind the last one |
| `Registry.AnEditIsSafeExactly` | src/sentry_mode/satellites/identity.py:133-183 | whatever the hub does afterwards, its epochs rise above the last one if and only if a file put in place holds one no lower or cannot be read; a file set back by however much, or deleted, makes the last epoch be handed out again once the hub has counted up to it |
| `Registry.NeverSetBackExactly` | src/sentry_mode/satellites/identity.py:133-183 | over a whole life, the file is never set back if and only if at every moment the next epoch would be above all before it |
| `Registry.ASetBackFileRepeatsANumber` | src/sentry_mode/satellites/identity.py:133-183 | the smallest case: a process that writes back what it read before an epoch was handed out makes the hub hand that one out again |
| `Sessions.SessionManager.Open` | src/sentry_mode/satellites/sessions.py:165-193 | a session replaces its node's older one under a fresh epoch and the coming is counted, or nothing without an epoch |
| `Sessions.SessionManager.Close` | src/sentry_mode/satellites/sessions.py:206-224 | news about an older connection changes nothing; otherwise the session and its grants end |
| `Sessions.SessionManager.Heartbeat` | src/sentry_mode/satellites/sessions.py:200-204 | only an open session is seen |
| `Sessions.SessionManager.GrantCapability` | src/sentry_mode/satellites/sessions.py:235-251 | an open session is given a grant of its epoch |
| `Sessions.SessionManager.RevokeAll` | src/sentry_mode/satellites/sessions.py:278-287 | every grant of a node goes |
| `Sessions.SessionManager.RenewDueGrants` | src/sentry_mode/satellites/service.py:898-905 | one round renews exactly the grants close to lapsing, each once, keeping its identity and counting it |
| `SessionProofs.GrantsNeverLapse` | src/sentry_mode/satellites/sessions.py:253-312 | while rounds come at most `renew_every_seconds` apart, no open session's grant is ever expired |
| `SessionProofs.LateRoundLetsAGrantLapse` | src/sentry_mode/satellites/config.py:74-86 | for every longer interval there is a run with rounds no further apart in which an open session's grant lapses before the next round has to come |
| `Sessions.RestartsAreTold` | src/sentry_mode/satellites/sessions.py:94-111 | over any comings of a node, connections are counted one by one, boots by how often the one it names changes, and the last restart is the last change |
| `SessionProofs.TheTableTells` | src/sentry_mode/satellites/sessions.py:165-312 | in every history of hellos, goodbyes, closings, heartbeats, rounds and restarts, what the hub has of a node is nothing open, or the session of the hello it stands by: its connection, boot and number, when it was last heard, and the grant given then as last renewed |
| `SessionProofs.WhoMayEnter` | src/sentry_mode/satellites/service.py:812-825 | in every history, an event may come in exactly if its node stands, on the connection and under the number and the grant of the hello it stands by, less than the grant's lifetime after that was last issued |
| `SessionProofs.ARenewalIsNewer` | src/sentry_mode/satellites/sessions.py:253-276 | as long as a session stands its grant keeps its id, capability and number, and every round that renews it makes it last its whole lifetime from then, numbered above all it was before |
| `SessionProofs.DueIsTold` | src/sentry_mode/satellites/service.py:898-905 | a round renews exactly the grants of standing nodes with no more than the renewal interval left |
| `GrantProofs.WhatTheHubIssues` | src/sentry_mode/satellites/sessions.py:60-74 | while a session stands, the command made of its grant is the last issue of it, for the grant's whole lifetime |
| `GrantProofs.ARenewalIsTaken` | satellite/src/sentry_satellite/agent.py:561-583 | the command of a round is applied by a node holding any earlier issue of the grant, and gives it the whole lifetime from the moment it is heard |
| `GrantProofs.HoldsTheLastIssue` | satellite/src/sentry_satellite/agent.py:561-583 | a node that hears a grant and its renewals in order holds the last it heard, for its lifetime from then |
| `GrantProofs.GrantedThroughout` | satellite/src/sentry_satellite/agent.py:694-700 | a node that hears the grant and each renewal before what it holds runs out may publish at every moment of its life from then on |
| `Sessions.LateGoodbyeIsIgnored` | src/sentry_mode/satellites/sessions.py:206-224 | a delayed goodbye of an older connection does nothing |
| `Journal.Store.AdmitEntry` | src/sentry_mode/satellites/store.py:214-264 | one transaction writes receipt, entry and mark, or nothing; a known id or number is answered and writes nothing; a number too wide for its column breaks off |
| `Journal.Store.ForgetReceipts` | src/sentry_mode/satellites/store.py:506-515 | the receipts older than their retention go, no others |
| `Journal.Store.ForgetEvents` | src/sentry_mode/satellites/store.py:495-504 | the entries older than their retention go, the others stay in order |
| `Journal.TidyingKeepsTheRecent` | src/sentry_mode/satellites/store.py:495-504 | exactly the entries too old go; tidying twice is tidying once by the later cutoff |
| `Journal.ForgettingKeepsTheRecent` | src/sentry_mode/satellites/store.py:506-515 | exactly the receipts too old go, so an event is new again exactly when all that said otherwise is forgotten |
| `Journal.AdmittedOnce` | src/sentry_mode/satellites/store.py:214-264 | admitting an event again changes nothing |
| `Ingress.EventIngress.AcceptEvent` | src/sentry_mode/satellites/ingress.py:186-352 | one arrival: the refusals in order, the position, the verdict, the commit and the receipt; no receipt when the read or the write breaks or the moment has no form in UTC |
| `Ingress.LiveMeans` | src/sentry_mode/satellites/ingress.py:250-302 | an event is handed on if and only if it is all of: matched, ours, registered, enabled, not retained, not a snapshot, not a replay, with a moment in UTC and numbers that fit, well clocked and unsuspected, in its window, above the high water, and stored just now |
| `Ingress.OneSourceMoves` | src/sentry_mode/satellites/ingress.py:243-343 | an arrival that writes nothing changes nothing; one that does moves only its own source's mark |
| `Ingress.BadClockIsSuspected` | src/sentry_mode/satellites/ingress.py:256-290 | a stored reading with a bad clock puts its source under suspicion |
| `Ingress.SnapshotClears` | src/sentry_mode/satellites/ingress.py:264-279 | within a boot, suspicion ends if and only if a well-clocked snapshot is stored |
| `Ingress.SuspicionIsSticky` | src/sentry_mode/satellites/ingress.py:250-302 | until then, over any arrivals, no event of that source is handed on |
| `Ingress.HighWaterNeverFalls` | src/sentry_mode/satellites/ingress.py:260-290 | within a boot the high water never falls, even across snapshots |
| `IngressProofs.StoredExactly` | src/sentry_mode/satellites/store.py:214-264 | over any arrivals, one is written down exactly if it is from its own sender, of a source that is on, can be written, and none of its node was written before under its id or its number |
| `IngressProofs.PositionIsTold` | src/sentry_mode/satellites/ingress.py:243-290 | over any arrivals, where a source stands in a boot is the largest number heard of it since it was last in another, whether a badly clocked reading still stands, whether it has said where it stood, and when it last spoke |
| `IngressProofs.HandedOnExactly` | src/sentry_mode/satellites/ingress.py:186-352 | over any arrivals, an event reaches the rules exactly if it is written down, is news, its source is under no suspicion, and its number is above every other heard of its source in that boot |
| `IngressProofs.WrittenIsAnswered` | src/sentry_mode/satellites/ingress.py:243-302 | over any arrivals, a written event is answered so, with the first reason it is history for |
| `IngressProofs.TheRestAreAnswered` | src/sentry_mode/satellites/ingress.py:186-352 | over any arrivals, what is answered to one that is not written: the sender first, then the source, the journal, and what was written before |
| `SystemProofs.EachReadingReachesTheRulesOnce` | src/sentry_mode/satellites/ingress.py:243-343 | in every run of loss, duplication, delay, reordering, reboots and restarts, what a source hands to the rules rises strictly, so no reading reaches them twice |
| `SystemProofs.EarlierBootsStayOut` | src/sentry_mode/satellites/service.py:812-825 | once an event of a later boot was let in, none of an earlier boot of that node ever is |
| `SystemProofs.StaleSessionHearsNothing` | src/sentry_mode/satellites/service.py:401-442 | a late hello of a boot that is over may open a session, and nothing ever published enters through it |
| `SystemProofs.NoFalseCollision` | src/sentry_mode/satellites/store.py:214-264 | in every run the journal never finds two different events under one id or number |
| `SystemProofs.EpochsOnlyRise` | src/sentry_mode/satellites/identity.py:172-183 | the epoch never falls in any run |
| `SystemProofs.EpochsNeverRepeat` | src/sentry_mode/satellites/sessions.py:165-193 | no two sessions of any run are stamped with the same epoch |
| `SystemProofs.OnlyTheLatestBootComesIn` | satellite/src/sentry_satellite/agent.py:703-717 | when an event of a boot enters, no later boot of its node had an event let in |
| `SystemProofs.AReadingCanReachTheRules` | src/sentry_mode/satellites/ingress.py:243-343 | there is a run from the start in which a reading reaches the rules |
| `DoorProofs.WhoIsLetIn` | src/sentry_mode/satellites/service.py:799-834 | in every run of hub and nodes, an event is let in exactly if its node stands on the connection, number and grant it names, less than the lifetime after that was last issued; and reaches the rules exactly if it is live besides and there is room |
| `SatelliteServices.SatelliteService.constructor` | src/sentry_mode/satellites/service.py:82-139 | a new service: no sessions, nothing held, nothing queued |
| `SatelliteServices.SatelliteService.HandleMessage` | src/sentry_mode/satellites/service.py:285-341 | one message: the registry looked at again, authentication, the held hello, the budget, the document, the handler and the settling, in that order; nothing at all while the registry cannot be read |
| `SatelliteServices.SatelliteService.ReadAfterHeld` | src/sentry_mode/satellites/service.py:309-319 | a newer state takes the place of the one held; anything else is read after it, and not at all if reading that breaks off |
| `SatelliteServices.SatelliteService.TurnAwayMessage` | src/sentry_mode/satellites/service.py:299-310 | a refused message is settled; the state of a node that only lacks approval is kept, the newest replacing the one before |
| `SatelliteServices.SatelliteService.ReadMessage` | src/sentry_mode/satellites/service.py:320-377 | budget, decoding and handler; a payload nested too deep breaks off; all but events are settled after the handler |
| `SatelliteServices.SatelliteService.HearState` | src/sentry_mode/satellites/service.py:401-442 | protocol, report, goodbye, the same connection again, or a new session |
| `SatelliteServices.SatelliteService.StartSession` | src/sentry_mode/satellites/service.py:427-442 | number, adopt, grant: each step's effects stay when a later one breaks off |
| `SatelliteServices.SatelliteService.AdoptSources` | src/sentry_mode/satellites/service.py:491-536 | the declared list, entry by entry, and then the sources left out |
| `SatelliteServices.SatelliteService.AdoptEntry` | src/sentry_mode/satellites/service.py:499-569 | one declared source: refused, updated, registered with its camera built once, or broken off at a kind that cannot be looked up, a name that cannot be kept or a frame rate that cannot be read |
| `SatelliteServices.SatelliteService.HearAck` | src/sentry_mode/satellites/service.py:705-726 | an answer to the outstanding request |
| `SatelliteServices.SatelliteService.HearEvent` | src/sentry_mode/satellites/service.py:799-825 | envelope, connection and epoch, grant: each refusal settles |
| `SatelliteServices.SatelliteService.EnterEvent` | src/sentry_mode/satellites/service.py:826-834 | the journal decides; what breaks off before it answers is heard of by nobody |
| `SatelliteServices.SatelliteService.Conclude` | src/sentry_mode/satellites/service.py:826-848 | settle unless nothing was written, then queue what is live while there is room |
| `SatelliteServices.SatelliteService.Settle` | src/sentry_mode/satellites/mqtt.py:155-164 | acknowledged only above QoS 0 and while there is a broker |
| `SatelliteServices.SatelliteService.ApproveNode` | src/sentry_mode/satellites/service.py:264-281 | approve and, once that is kept, read what the node had already said |
| `SatelliteServices.SatelliteService.RevokeNode` | src/sentry_mode/satellites/service.py:240-262 | once the revocation is kept, session, grants, held hello, report, request and sources go at once |
| `SatelliteServices.SatelliteService.ConfigureNode` | src/sentry_mode/satellites/service.py:732-792 | the refusals in order, the next revision, and a request the broker did not take is failed |
| `ServiceProofs.EachMessageIsSettledOnce` | src/sentry_mode/satellites/service.py:285-377 | a QoS 1 message handed to the hub is acknowledged exactly once, unless the registry cannot be read, or its sender may speak and it or the held hello cannot be decoded, or it is a state whose handling breaks off, or an event the journal did not take; then not at all; and exactly when the caller sees it break off; a replayed hello acknowledges nothing |
| `ServiceProofs.OnStateRaises` | src/sentry_mode/satellites/service.py:401-442 | handling a state breaks off if and only if a declared source has an unhashable kind, an unusable name, an unreadable frame rate or a fate that cannot be noted, or a new session cannot be numbered or its source list has no length |
| `ServiceProofs.AdoptRaises` | src/sentry_mode/satellites/service.py:499-569 | the entries of a declared list at which adopting it breaks off, told from the list |
| `ServiceProofs.UnreadableRegistryAnswersNobody` | src/sentry_mode/satellites/identity.py:120-149 | while a changed registry file does not parse, no message is acknowledged and nothing changes |
| `ServiceProofs.TooDeepIsNeverAcknowledged` | src/sentry_mode/satellites/service.py:357-377 | a payload nested deeper than the decoder goes, within the budget, is never acknowledged, on any channel |
| `ServiceProofs.NoUtcIsNeverAcknowledged` | src/sentry_mode/satellites/ingress.py:250-256 | an event whose moment has no form in UTC is never acknowledged, whatever the journal does |
| `ServiceProofs.TooWideIsNeverAcknowledged` | src/sentry_mode/satellites/store.py:214-264 | an unseen event numbered past 2^63 - 1 is never acknowledged |
| `ServiceProofs.SomeStatesAreNeverAcknowledged` | src/sentry_mode/satellites/service.py:334-341 | a state with a source kind that is a list or an object, anywhere in its list, is never acknowledged, however often it is delivered |
| `ServiceProofs.ABadFrameRateIsNeverAcknowledged` | src/sentry_mode/vision/remote.py:64-66 | on a hub with cameras, a state whose first source is a camera with a frame rate that is no number is never acknowledged |
| `ServiceProofs.AcknowledgedOnceTheDiskWorks` | src/sentry_mode/satellites/service.py:427-442 | a state broken off by an epoch that could not be written is acknowledged when it is delivered again and the disk works |
| `ServiceProofs.WrittenThenAcknowledged` | src/sentry_mode/satellites/service.py:826-834 | an event acknowledged at the door is one the journal answers for; one stored just now was written first and acknowledged after |
| `ServiceProofs.ReceiptSettles` | src/sentry_mode/satellites/ingress.py:186-352 | a receipt withholds the acknowledgement exactly when the journal could not be read or written, and there is none exactly when the read, the moment or the write broke off |
| `ServiceProofs.StaysSteady` | src/sentry_mode/satellites/service.py:285-347 | in every run, whatever is done to the registry's file, what is held for a node is one state message of its own that nothing is acknowledged for; the queue is bounded and holds only what is journalled and live |
| `ServiceProofs.EveryRunIsSteady` | src/sentry_mode/satellites/service.py:82-139 | so it is in every run from a hub just started, over any registry and journal |
| `ServiceProofs.NothingIsHeldForAStranger` | src/sentry_mode/satellites/service.py:299-310 | in every run in which no edit drops a node whose message is held, nothing is held for a name nobody registered |
| `ServiceProofs.ApprovedWhileConnected` | src/sentry_mode/satellites/service.py:264-281 | a node that said hello before its approval is online, and granted, the moment it is approved |
| `ServiceProofs.RevokedIsNotHeard` | src/sentry_mode/satellites/service.py:299-310 | a name that may not speak changes nothing but what is held and what the broker is told |
| `ServiceProofs.RevokedIsGone` | src/sentry_mode/satellites/service.py:240-262 | after a revocation nothing the node sends opens a session, enters the journal or reaches the rules |
| `ServiceProofs.AFailedRevocationStillSilences` | src/sentry_mode/satellites/identity.py:250-264 | a revocation that cannot be written leaves session and file as they were, and the node is still not heard until the file is changed |
| `ServiceProofs.RevisionsRise` | src/sentry_mode/satellites/service.py:754-770 | short of a revocation, a later configuration carries a higher revision than any before and than the one reported |
| `ServiceProofs.AnswersMoveOn` | src/sentry_mode/satellites/service.py:714-726 | an answer is taken only for the request that is out and never takes it back |
| `ServiceProofs.OneRequestAtATime` | src/sentry_mode/satellites/service.py:754-764 | a second request waits exactly while the first is unanswered or only received, for at most the patience |
| `ServiceProofs.DeclaredSourcesAreAdopted` | src/sentry_mode/satellites/service.py:491-569 | each source of the node is as the list last says, those left out are disabled, nobody else's change, and a camera is built for each enabled one once |
| `HubProofs.WhatReachesTheRules` | src/sentry_mode/satellites/service.py:320-341 | reading a message writes to the journal exactly what an event within its budget, of its own sender and past the door writes, hands on exactly what is live while there is room, and draws on the budget exactly for events |
| `HubProofs.SessionsMove` | src/sentry_mode/satellites/service.py:401-442 | what reading each message does to the session table, in terms of its channel, its sender, its protocol, its hello and its list |
| `HubProofs.RunMoves` | src/sentry_mode/satellites/service.py:285-347 | over any run of the hub the session table is what those messages, approvals and revocations make of it |
| `HubProofs.WhoIsHeard` | src/sentry_mode/satellites/service.py:799-834 | in every run of the hub from its start, an event reaches the journal exactly if it is within budget, of its own sender, enveloped, and its node stands as it says |
| `HubProofs.AFloodIsBounded` | src/sentry_mode/satellites/service.py:320-333 | in every run, over any stretch of it, no more events are written to the journal than `events_per_minute * (1 + T/60)` of a node and `total_events_per_minute * (1 + T/60)` in all |
| `HubProofs.ReportsAreTaken` | src/sentry_mode/satellites/service.py:463-489 | a node's word for the revision it runs is taken from every state in its protocol that is no goodbye, and from nothing else |
| `HubProofs.AnswersAreTaken` | src/sentry_mode/satellites/service.py:705-726 | an answer is taken from nothing but a document of the node's own on the channel for answers |
| `HubProofs.WhatAStateSays` | src/sentry_mode/satellites/service.py:401-442 | a state makes the hub say the grant of a session that has just begun, while there is a broker, and nothing else |
| `HubProofs.WhatARevocationSays` | src/sentry_mode/satellites/service.py:240-262 | a revocation that was kept is said to the node while there is a broker |
| `HubProofs.WhatAskingDoes` | src/sentry_mode/satellites/service.py:732-792 | each refusal exactly when it applies, in order; and the next number after every one the node is known to have been asked for or to run |
| `HubProofs.ARestartedHubGoesOn` | src/sentry_mode/satellites/service.py:463-489 | a hub just started that has heard what a node runs asks it next for a higher revision |
| `SourceList.CheckedOptions` | satellite/src/sentry_satellite/config.py:197-225 | options checked one by one, defaults filled in |
| `SourceList.AcceptedExactly` | satellite/src/sentry_satellite/config.py:119-225 | a table is accepted if and only if it names nothing its kind does not take and each option, or its default, meets its rule; then exactly those options come out |
| `SourceList.SchemasAreSound` | satellite/src/sentry_satellite/config.py:119-194 | every default in the table passes its own check and no option is named twice |
| `SourceList.CheckedPassesAgain` | satellite/src/sentry_satellite/config.py:197-225 | checked options pass again as they are |
| `SourceList.LocalNamesAreNames` | satellite/src/sentry_satellite/names.py:35-50 | a local name is read back as itself |
| `SourceList.ParseSources` | satellite/src/sentry_satellite/config.py:401-445 | the list, checked in full, with the board's own readings added |
| `SourceList.OwnReadings` | satellite/src/sentry_satellite/config.py:448-461 | the board's readings the list leaves out |
| `SourceList.NothingIsAddedTwice` | satellite/src/sentry_satellite/config.py:448-461 | once they are in the list, or something wears their names, none is added |
| `SourceList.ParsedWholeIsChecked` | satellite/src/sentry_satellite/config.py:401-445 | an accepted list has distinct names, checked options and no conflict |
| `SourceList.AcceptedExactlyAs` | satellite/src/sentry_satellite/config.py:401-445 | a list is accepted exactly if every entry says a source of this node, profile and agent, no two of one name, and together with the board's own readings none is in the way of another; and comes out as those sources |
| `SourceList.TheBoardIsAlwaysRead` | satellite/src/sentry_satellite/config.py:448-461 | every accepted list keeps what was declared and reads both of the board's measures, unless another source wears the name |
| `SourceList.TheBoardAddsWhatIsMissing` | satellite/src/sentry_satellite/config.py:448-461 | the board adds exactly the readings the list leaves out and gives no other name to |
| `SourceList.ReloadIsTheIdentity` | satellite/src/sentry_satellite/remote.py:39-63 | parsing a checked list written down gives it back if and only if there is a driver for every kind in it, always when the board's own is among them |
| `SourceList.NoBoardDriverNoReload` | satellite/src/sentry_satellite/config.py:448-461 | without a driver for the board, an empty list is accepted and cannot be read back |
| `Reconfiguration.Overlay.LoadOver` | satellite/src/sentry_satellite/remote.py:70-93 | the overlay of this node if it passes the checks, else the installed list; a file nested past the decoder breaks off |
| `Reconfiguration.Overlay.Save` | satellite/src/sentry_satellite/remote.py:95-114 | the new overlay, or the old one if the write failed |
| `Reconfiguration.Agent.constructor` | satellite/src/sentry_satellite/cli.py:287-297 | an agent runs what was loaded, at its revision |
| `Reconfiguration.Boot` | satellite/src/sentry_satellite/cli.py:263-297 | a process starts with what the overlay gives, or not at all when that cannot be read through or the builder refuses it |
| `Reconfiguration.Agent.ReplaceDrivers` | satellite/src/sentry_satellite/agent.py:515-530 | the old drivers stop; the new configuration is in place only once its drivers were built |
| `Reconfiguration.Agent.ConfigureSources` | satellite/src/sentry_satellite/agent.py:468-513 | check, replace, probe, save, or put back |
| `Reconfiguration.SavedIsLoaded` | satellite/src/sentry_satellite/remote.py:70-114 | a saved overlay is loaded again as it was |
| `Reconfiguration.WhatIsLoaded` | satellite/src/sentry_satellite/remote.py:70-93 | an overlay of this node with a revision from 1 up whose list passes, else the installed list at revision 0 |
| `Reconfiguration.AllOrNothing` | satellite/src/sentry_satellite/agent.py:468-513 | sources, revision and overlay are all the new, strictly higher one when the list passes, the builder takes it, the drivers start, nothing is found wrong and the write works; all as before when it is refused or the old drivers start again; otherwise nothing runs under the old revision |
| `Reconfiguration.ABootRunsTheLastInForce` | satellite/src/sentry_satellite/cli.py:263-297 | over any requests, failed restores, power cuts and reboots, a boot whose builder accepts runs the sources and revision of the last request put in force, or of what the board was found with |
| `Reconfiguration.ATooDeepOverlayNeverStarts` | satellite/src/sentry_satellite/remote.py:70-93 | over an overlay nested past the decoder, and over no other, no process ever starts, whatever is done |
| `Reconfiguration.AFailedRestoreCanComeBack` | satellite/src/sentry_satellite/agent.py:489-508 | after a failed restore a list that was refused can run under the old revision |
| `Reconfiguration.RevisionNeverFalls` | satellite/src/sentry_satellite/agent.py:468-513 | from any overlay on, over the same, the revision in force never falls, and a running process has in memory what is in the file |
| `RuleIds.AssignAll` | src/sentry_mode/sentry/migration.py:55-73 | one identifier per name, in order, against those already taken |
| `RuleIds.PickOne` | src/sentry_mode/sentry/migration.py:66-70 | the search for a free identifier ends |
| `RuleIds.TriesAreBounded` | src/sentry_mode/sentry/migration.py:66-70 | at most as many numbered forms fail as identifiers are taken, because their decimal suffixes differ |
| `RuleIds.EachIdIsTheFirstFree` | src/sentry_mode/sentry/migration.py:64-72 | each identifier is the one wanted, or the first of its numbered forms that is free |
| `RuleIds.IdsAreDistinct` | src/sentry_mode/sentry/migration.py:55-73 | no two identifiers are alike |
| `RuleIds.IdsAreRuleIds` | src/sentry_mode/sentry/migration.py:66-70 | every identifier is well formed and at most 64 characters long, for any list whose numbers fit |
| `RuleIds.DocumentIdsAreRuleIds` | src/sentry_mode/sentry/config.py:613 | so every identifier of a document is, which holds at most 32 rules |
| `RuleIds.SlugIsARuleId` | src/sentry_mode/sentry/migration.py:50-52 | a slug may be an identifier |
| `RuleIds.SlugOfASlug` | src/sentry_mode/sentry/migration.py:50-52 | making a slug of a slug changes nothing |
| `RuleIds.SlugSaysTheName` | src/sentry_mode/sentry/migration.py:50-52 | a slug is the words of the name, lowered, with hyphens between them, as much as fits 64 characters and does not end in a hyphen, or `rule` |
| `RuleIds.CandidateSays` | src/sentry_mode/sentry/migration.py:66-70 | a numbered form is as much of what is wanted as leaves room and does not end in a hyphen, a hyphen, and the number |
| `RuleIds.DecimalStandsFor` | src/sentry_mode/sentry/migration.py:66-70 | the number is written in decimal digits |
| `RuleIds.DerivedIdsAreKept` | src/sentry_mode/sentry/migration.py:55-73 | derived identifiers, fed back for distinct names, are given back |
| `RuleIds.KeptUnlessTaken` | src/sentry_mode/sentry/migration.py:64-72 | whatever new rules are put wherever, every old one keeps its identifier if and only if no two have the same and no new one, taking the first that is free in front of it, takes that of an old one behind it |
| `RuleIds.OneNewRule` | src/sentry_mode/sentry/migration.py:64-72 | for one new rule: if and only if the first free form of its slug, against the identifiers in front of it, is none of those behind it |
| `RuleIds.KeptUnlessGivenAway` | src/sentry_mode/sentry/migration.py:64-72 | rule by rule: a known identifier is kept if and only if no rule before was given it |
| `RuleIds.ANewRuleCanTakeAnId` | src/sentry_mode/sentry/migration.py:64-72 | a new rule in front of an old one can take its identifier |
| `Migration.FindObstacles` | src/sentry_mode/sentry/migration.py:120-147 | everything the first version cannot say, in order |
| `Migration.NoObstaclesMeans` | src/sentry_mode/sentry/migration.py:120-147 | nothing is in the way if and only if every rule watches this node's camera and every step is one the first version knows |
| `Migration.ObstaclesAreAllFound` | src/sentry_mode/sentry/migration.py:120-147 | everything the first version cannot say is found, and nothing else is called an obstacle |
| `Migration.Downgrade` | src/sentry_mode/sentry/migration.py:150-179 | the first-version document, or the reasons it cannot be |
| `Migration.DownAndUp` | src/sentry_mode/sentry/migration.py:95-179 | `to_v2(to_v1(c), previous=c) == c` for every valid obstacle-free document |
| `Migration.UpAndDown` | src/sentry_mode/sentry/migration.py:76-179 | `to_v1(to_v2(c)) == c` if and only if its steps are ones the first version always took |
| `Migration.HidingKeepsTheMeaning` | src/sentry_mode/sentry/migration.py:182-198 | leaving out the fields the first version never had changes no step's camera, microphone or fallback |
| `Migration.LegacyFileReadsBack` | src/sentry_mode/sentry/migration.py:192-228 | a document saved in a first-version file reads back as it was if and only if its identifiers are derived, its policy is the old one and no clip names a microphone |

## Left out

- SessionProofs.GrantsNeverLapse: the interval between rounds is a hypothesis; the housekeeping thread's own timing is not modelled.
- SystemProofs.EachReadingReachesTheRulesOnce: a statement about `System`, which holds while a node runs one process at a time and no id is drawn twice, and the registry's file is neither deleted nor set back.
- RateLimiter.RateBound: arithmetic is over real numbers, not floating point.
- RuleIds.SlugIsARuleId: letters outside ASCII are not lowered, which matters only for the few whose lowercase is a plain letter.
- RuleIds.IdsAreRuleIds: for lists so long that a number no longer fits into 63 characters the slice in the code counts from the end, and nothing is claimed; documents hold at most 32 rules.
- Journal.Store.AdmitEntry: one writer at a time; the race between two writers that ends in a constraint error is not modelled, nor is the text form of a reading's time in its fingerprint.
- SatelliteServices.SatelliteService.StartSession: media sessions that end with the old one, and microphones adopted from the list, are not modelled; building one of those cannot fail.
- SatelliteServices.SatelliteService.AdoptSources: microphones adopted from the list are not modelled.
- SatelliteServices.SatelliteService.RevokeNode: that a revocation ends the node's video and sound is not modelled.
- SatelliteServices.SatelliteService.AdoptEntry: a camera is an entry in a set; its stream, and taking its address back when the source goes, are not modelled.
- Agent.Process.HandleCommand: one command is one step, and so is one send: a configuration's outcome remembered between a command's being looked up and its being remembered, and a grant taken away between its being read and the publish, fall before or after.
- Agent.Process.ApplyCommand: a stream is what its side answers; that a revocation or a configuration ends streams is not modelled.
- Agent.Process.BeginConfigure: a thread that cannot be spawned, and a configuration that dies, are lives in which the outcome is never remembered.
- ServiceProofs.EachMessageIsSettledOnce: is about messages whose topic names a node and a channel; one on any other topic is dropped before it gets here, and is never acknowledged.
- Reconfiguration.Agent.ConfigureSources: the builder is always there, and so is the overlay; whether the builder accepts, drivers start, the probe finds something and the write works is up to the world.
- MQTT, TLS, sockets and serial ports, Paho's callbacks and threads: transport; `settle` reaches the broker whenever there is one.
- JSON, TOML, Pydantic and SQLite: what they accept is what the datatypes here can hold.
- `check_conflicts` is an arbitrary test of a list, the same each time it is asked; `platforms.check_configuration` is an arbitrary answer.
- `commands.parse`: commands arrive parsed, with their numbers not negative.
- Health, counters of refusals, freshness and status: single values nothing else depends on.
- Cameras, microphones, speakers, speech, streams of video and sound, and the gateway they need.
- The other triggers (`threshold`, `audio`, `presence`, `vision`) and the actions a rule runs.
- The web server, the command line, the administration scripts and the firmware.
