# Stream-moderation game core, modelled in Dafny

The game is a streaming simulator. A chat feed spawns normal messages and
threat messages; the player masks threats before they scroll out of a
15-message window. Alongside the chat, three timed threats run their own
state machines, each going idle → grace → danger and back:

- an **info leak** and a **personal message**, which are missed when danger
  runs out uncensored;
- a **misbehavior**, triggered by low emotional value, which drains the
  meter while in danger and never expires.

A small game store holds the menu/playing flag. The game loop starts and
stops a session by driving that flag and the chat together.

The model is purely functional. Each store or composable is an immutable
datatype, and each function or timer callback is a transition that returns
the new state together with the list of calls it made into the economy
(`GameStore.Call`).

Every timer-handle variable is a `Common.Timer`. It holds the live callback
the variable refers to, plus a count of orphaned callbacks. An orphan is a
callback still queued after its variable was overwritten by a new
`setTimeout` without a `clearTimeout`. Inputs arrive as parameters:

- randomness, as draws in [0, 1);
- `Date.now()`, as `now`;
- the meter values, as `GameStore.Meters`;
- which queued callback fires next, as a `stale` flag.

| file | module | models |
|---|---|---|
| common.dfy | `Common` | `Option`, min/max, `randomRange`, jitter, timer-handle variables |
| config.dfy | `Config` | tuning constants; those defined outside the core are a `Tuning` parameter |
| game_store.dfy | `GameStore` | `stores/game.ts`, the meter inputs and the economy call log |
| difficulty.dfy | `Difficulty` | chat speed, threat ratio and the two chat spawn delays |
| chat.dfy | `Chat` | `stores/chat.ts` |
| timed_threat.dfy | `TimedThreat` | `composables/useInfoLeak.ts` and `composables/usePersonalMessage.ts`, one machine parameterised by `Kind` |
| misbehavior.dfy | `Misbehavior` | `composables/useMisbehavior.ts` |
| game_loop.dfy | `GameLoop` | `composables/useGameLoop.ts` |
| chat_runs.dfy | `ChatRuns` | runs of chat-store operations: threat accounting, id ordering and the cap over any sequence of events |

The two info-leak-shaped composables are the same code with different
constants, calls and line offsets. Rows below cite `useInfoLeak.ts`. In
`composables/usePersonalMessage.ts` the same code sits at these lines:

- the spawn scheduler at lines 17-35;
- `startMessage` and its grace and danger callbacks at lines 37-55;
- `censor` at lines 57-78;
- `start` at lines 80-83;
- `stop` at lines 85-91.

## Model

| member | source | states |
|---|---|---|
| Common.RandomRange | stores/chat.ts:32-34 | for a draw in [0, 1) the result lies in [min, max) |
| Common.Jittered | stores/chat.ts:183-187 | an interval times a jitter drawn from [lo, hi) lies in [lo·interval, hi·interval) |
| Common.Timer.Arm | composables/useInfoLeak.ts:40 | `handle = setTimeout(...)` (or `setInterval`) without a clear: the handle holds the new callback and one more callback is queued, a previous live one staying queued |
| Common.Timer.Clear | composables/useInfoLeak.ts:91-114 | a `clear*Timer` helper: the handle becomes null and only the callbacks no handle refers to stay queued; a null handle is left as it is |
| Common.Timer.ArmThenClear | composables/useInfoLeak.ts:40-46 | arming without a clear and then clearing leaves the queue as long as before, and is a no-op exactly when the handle was null: a displaced callback is never cancelled |
| Chat.RandomItem | stores/chat.ts:28-30 | the picked value is an element of the table |
| Chat.CreateNormalMessage | stores/chat.ts:41-58 | takes the given id; no flag is set; not a threat; no type; spawn time 0; text and sentiment come from one table entry; username and colour come from their tables |
| Chat.CreateThreatMessage | stores/chat.ts:60-77 | takes the given id; no flag is set; a threat with sentiment 0 stamped with `now`; text and type come from one threat-table entry |
| Chat.TrimMessages | stores/chat.ts:98-121 | within the cap, nothing changes and nothing expires; over the cap, exactly the newest 15 are kept; `expired` is the number of unmasked threats among the evicted prefix; every unmasked threat is either kept or counted expired |
| Chat.CountExpired | stores/chat.ts:102-110 | the loop over the removed messages counts exactly their unmasked threats |
| Chat.UnmaskedThreatsAppend | stores/chat.ts:105-110 | counting unmasked threats is additive over concatenation |
| Chat.Push | stores/chat.ts:88-91 | a push-and-trim keeps exactly the newest min(n + 1, 15) messages of old log plus new message, the new message newest; it reports only missed threats, one per unmasked threat that left the log; it takes the next id and keeps ids strictly increasing |
| Chat.PushAccounting | stores/chat.ts:98-121 | trimming after one push keeps min(n + 1, 15) messages ending in the new one, and every unmasked threat is either still in the log or counted as expired |
| Chat.PushKeepsIdsOrdered | stores/chat.ts:88-103 | appending the message with the next id and dropping any prefix keeps ids strictly increasing and below the counter |
| Chat.AddNormalMessage | stores/chat.ts:79-86 | the log becomes the newest min(n + 1, 15) entries of the old log followed by the new normal message, so exactly the oldest overflow is dropped; its sentiment is applied first, then only misses follow; unmasked threats are conserved; the cap and id ordering are kept |
| Chat.AddThreatMessage | stores/chat.ts:88-91 | the log becomes the newest min(n + 1, 15) entries of the old log followed by the new threat, so exactly the oldest overflow is dropped; no sentiment is applied; the new threat is conserved too: it stays in the log or is reported as missed; the cap and id ordering are kept |
| Chat.FindIndex | stores/chat.ts:124 | finds the first message with the id: every earlier message has another id, and none is found only when no message has it |
| Chat.FindIndexIgnoresFlags | stores/chat.ts:124-126 | the lookup depends only on ids, so setting a flag does not move it |
| Chat.MaskMessage | stores/chat.ts:123-130 | on success the log equals the old log with only the first message carrying the id replaced by itself with `isMasked` set, and that message's spawn time is returned; when that message is absent or already masked, nothing changes and 0 is returned; afterwards the id can no longer be masked; the unmasked-threat count drops by one exactly when a threat was masked |
| Chat.UnmaskedAfterMask | stores/chat.ts:125-126 | masking one unmasked message removes one unmasked threat if it was a threat, none otherwise |
| Chat.MaskTwice | stores/chat.ts:123-130 | a second mask of the same id is a no-op that returns 0 |
| Chat.MaskSucceedsIff | stores/chat.ts:124-125 | when ids are ordered, masking takes effect if and only if some unmasked message carries the id |
| Chat.Flag | stores/chat.ts:132-150 | when the id is present, the log equals the old log with only its first message carrying the id replaced by that message with the chosen pulse flag set (`Chat.Pulsed`: that flag raised, every other field, the other flag included, kept); when absent, nothing changes |
| Chat.ScheduleNormal | stores/chat.ts:169-176 | arms the normal timer with the viewer-scaled delay; an earlier pending callback stays queued |
| Chat.ScheduleThreat | stores/chat.ts:178-188 | arms the threat timer with the jittered threat delay; an earlier pending callback stays queued |
| Chat.OnNormalTimer | stores/chat.ts:172-175 | a firing changes the store and makes the calls exactly as `addNormalMessage` does, apart from the normal timer, which is re-armed with the new normal delay; callbacks queued before stay queued |
| Chat.OnThreatTimer | stores/chat.ts:184-187 | a firing changes the store and makes the calls exactly as `addThreatMessage` does, apart from the threat timer, which is re-armed with the new threat delay; callbacks queued before stay queued |
| Chat.Seed | stores/chat.ts:192-196 | seeding keeps the old log as a prefix and appends, for each pick, the normal message built from it with the next id; it applies no sentiment, does not trim and keeps ids ordered |
| Chat.SeedMessages | stores/chat.ts:192-195 | the seed loop makes one normal message per pick, the i-th with id firstId + i |
| Chat.AppendConsecutiveKeepsIdsOrdered | stores/chat.ts:192-196 | appending non-threat messages that carry the next ids in order keeps ids strictly increasing and below the advanced counter |
| Chat.StartChat | stores/chat.ts:190-199 | starting makes no economy call; it appends, after the old log, exactly the eight messages `createNormalMessage` builds from the seed picks with the next eight ids, and advances the counter by eight; it arms both spawners with their delays without cancelling a chain already queued, so each spawner queues exactly one more callback |
| Chat.StopChat | stores/chat.ts:201-210 | both live spawner handles are cancelled; the log and the id counter are kept |
| Chat.ClearChat | stores/chat.ts:212-215 | the log is emptied and both spawners are cancelled; the id counter keeps counting |
| ChatRuns.NormalTimerAccounts | stores/chat.ts:79-121 | a normal firing reports one miss per unmasked threat it scrolls off and adds none |
| ChatRuns.ThreatTimerAccounts | stores/chat.ts:88-121 | a threat firing adds one unmasked threat, which stays on screen or, with the others it scrolls off, is reported missed |
| ChatRuns.UnmaskedThreatsIgnoresOtherFields | stores/chat.ts:132-150 | two logs that agree, message by message, on `isThreat` and `isMasked` hold as many unmasked threats, so pulsing a flag changes none |
| ChatRuns.SeedingAddsNoThreat | stores/chat.ts:190-196 | seeding adds no unmasked threat |
| ChatRuns.StepAccountsForThreats | stores/chat.ts:79-215 | for every feed event, misses reported + unmasked threats left + the threat masked + the unmasked threats `clearChat` drops = unmasked threats before + the threat spawned; a spawner firing with no callback queued changes nothing |
| ChatRuns.EveryThreatAccountedFor | stores/chat.ts:79-215 | over any run of the feed, as a count: misses reported + unmasked threats on screen + threats masked + threats dropped by `clearChat` = unmasked threats at the start + threats spawned |
| ChatRuns.StepKeepsIdsOrdered | stores/chat.ts:41-215 | every feed operation keeps ids strictly increasing and below the counter |
| ChatRuns.IdsStayOrdered | stores/chat.ts:41-215 | over any run, ids stay strictly increasing and below the counter, so every id names at most one message |
| ChatRuns.StepKeepsCap | stores/chat.ts:79-121 | no feed event but `startChat` grows a log of at most 15 messages past 15 |
| ChatRuns.CapHolds | stores/chat.ts:98-103 | over any run without `startChat`, a log of at most 15 messages stays at most 15 |
| Difficulty.ChatSpeedMultiplier | stores/chat.ts:153-158 | at least the configured floor, and at least the viewer speed-up |
| Difficulty.ChatSpeedMonotone | stores/chat.ts:155-157 | more viewers never slow the chat |
| Difficulty.ChatSpeedSaturates | stores/chat.ts:155 | above the viewer cap the chat speed stays constant |
| Difficulty.ThreatRatioMultiplier | stores/chat.ts:161-167 | 1 without a start time (0 counts as unset); never above the capped maximum; at least 1 while the clock has not gone back |
| Difficulty.ThreatRatioFreezes | stores/chat.ts:164-166 | once the cap time has elapsed, the ratio equals its maximum |
| Difficulty.NormalDelay | stores/chat.ts:169-171 | the normal delay lies in [1500/speed, 2500/speed) |
| Difficulty.NormalDelayAntitone | stores/chat.ts:152-171 | for the same draw, more viewers never lengthen the normal delay |
| Difficulty.ThreatInterval | stores/chat.ts:178-182 | the un-jittered threat interval is never below `MIN_SPAWN_INTERVAL`, for any non-zero threat ratio, negative ones included |
| Difficulty.ClockSaneRatioDefined | stores/chat.ts:161-167 | while the clock has not gone back past the session start, the threat ratio is non-zero, so the interval is defined |
| Difficulty.NegativeRatioClampsToMin | stores/chat.ts:178-182 | a threat ratio driven below zero by a clock that went back makes the interval exactly `MIN_SPAWN_INTERVAL` |
| Difficulty.ThreatIntervalBounded | stores/chat.ts:178-182 | the un-jittered threat interval is at most max(`MIN_SPAWN_INTERVAL`, base / viewer floor): the speed and ratio only ever shorten it |
| Difficulty.SlowRatioExceedsBound | stores/chat.ts:161-182 | with the speed at the viewer floor and a threat ratio strictly between 0 and 1 (a clock gone back), the interval exceeds max(`MIN_SPAWN_INTERVAL`, base / viewer floor) |
| Difficulty.ThreatDelay | stores/chat.ts:182-187 | the threat delay is at least 0.8 · `MIN_SPAWN_INTERVAL` |
| Difficulty.ThreatDelayJitter | stores/chat.ts:182-187 | the threat delay lies in [0.8 · interval, 1.2 · interval) around the current un-jittered interval |
| Difficulty.ThreatDelayBounded | stores/chat.ts:182-187 | the threat delay is below 1.2 · max(`MIN_SPAWN_INTERVAL`, base / viewer floor) |
| GameStore.Start | stores/game.ts:7-9 | after `start` the session runs |
| GameStore.Reset | stores/game.ts:11-13 | after `reset` the session does not run |
| GameStore.InitialIsNotRunning | stores/game.ts:4-5 | a fresh store is in the menu, not running |
| GameStore.StartResetIdempotent | stores/game.ts:7-13 | `start` and `reset` are idempotent, and each one fixes the flag whatever it was before |
| GameStore.TwoStates | stores/game.ts:1-5 | the flag takes one of two values, and `isRunning` holds exactly in `playing` |
| GameStore.Repeat | stores/chat.ts:113-118 | the missed-threat loop makes exactly `expired` identical calls |
| TimedThreat.IsActive | composables/useInfoLeak.ts:14 | the rendering flag holds exactly when an occurrence is open (grace or danger) or its blur runs (censored) |
| TimedThreat.SpawnInterval | composables/useInfoLeak.ts:20-24 | the interval lies between the minimum interval and max(min, 2·base); the speed-up is floored at 0.5 |
| TimedThreat.SpawnDelay | composables/useInfoLeak.ts:24-33 | the spawn delay is the interval times a jitter in [0.7, 1.3) |
| TimedThreat.ScheduleNext | composables/useInfoLeak.ts:16-34 | clears the spawn handle and re-arms it if and only if the session runs; nothing else changes |
| TimedThreat.OnSpawn | composables/useInfoLeak.ts:27-33 | a spawn firing starts an occurrence exactly when the session runs and the machine is idle: it then enters grace with the grace timer armed for the grace period, one more grace callback queued (a displaced one stays queued), and the spawn callback consumed; otherwise the phase and the grace timer are unchanged, the fired spawn callback is consumed, and the spawn is re-armed with the current spawn delay exactly when the session runs |
| TimedThreat.StartOccurrence | composables/useInfoLeak.ts:36-40 | enters grace and arms the grace timer; an earlier pending grace callback stays queued |
| TimedThreat.OnGraceEnd | composables/useInfoLeak.ts:40-46 | in grace, the fired grace callback is consumed, the machine enters danger with one danger penalty and the danger timer is armed for the danger duration with one more danger callback queued; in any other phase, only that callback is consumed |
| TimedThreat.OnDangerEnd | composables/useInfoLeak.ts:46-51 | in danger, the fired danger callback is consumed, the machine reports one miss, goes idle, and the spawn is re-armed with the current spawn delay exactly while running, its orphans kept; in any other phase, only that callback is consumed |
| TimedThreat.Censor | composables/useInfoLeak.ts:55-76 | from grace or danger: one masked-threat count; the grace and danger handles are cancelled, their orphans kept; the machine is censored with the blur armed and one more blur callback queued, so a displaced blur stays queued. From idle or censored nothing changes |
| TimedThreat.OnBlurEnd | composables/useInfoLeak.ts:72-75 | with no state check, the fired blur callback is consumed, the machine goes idle and the spawn is re-armed with the current spawn delay if and only if the session runs, its orphans kept |
| TimedThreat.Start | composables/useInfoLeak.ts:78-81 | forces idle and schedules the spawn with the current spawn delay exactly while running, its orphans kept; the grace, danger and blur timers are left untouched |
| TimedThreat.Stop | composables/useInfoLeak.ts:83-89 | forces idle and cancels all four live handles; orphaned callbacks are unaffected |
| TimedThreat.ResolutionsAppend | composables/useInfoLeak.ts:48 | counting censors and misses is additive over call logs |
| TimedThreat.StepResolvesAtMostOnce | composables/useInfoLeak.ts:36-76 | one transition resolves at most the occurrence open before it |
| TimedThreat.AtMostOneResolutionPerOccurrence | composables/useInfoLeak.ts:36-76 | over any run, censors plus misses never exceed the occurrences started: censor and miss exclude each other per occurrence |
| TimedThreat.InitialIsTidy | composables/useInfoLeak.ts:8-12 | a fresh machine is idle with no handle set |
| TimedThreat.TidyPreserved | composables/useInfoLeak.ts:16-89 | every callback, censor and `stop` keeps the machine tidy: no orphans, and each handle is live exactly in its phase. `start` keeps it tidy from idle |
| TimedThreat.TidyRunStaysTidy | composables/useInfoLeak.ts:16-89 | over any run without a `start`, a tidy machine stays tidy |
| TimedThreat.TidyCallbacksAreCurrent | composables/useInfoLeak.ts:28-47 | in a tidy machine every queued callback fires in the phase it was armed for |
| TimedThreat.TidyMachinesProgress | composables/useInfoLeak.ts:40-75 | a tidy non-idle machine always has the timer pending that moves it on |
| TimedThreat.StopCancelsEverything | composables/useInfoLeak.ts:83-114 | stopping a tidy machine leaves no callback queued |
| TimedThreat.OrphanedBlurOutlivesStop | composables/useInfoLeak.ts:72-81 | `start` on a censored machine leaves its blur armed; a second censor orphans that blur, which survives `stop` and then re-arms the spawn of the stopped machine |
| Misbehavior.ScheduleCheck | composables/useMisbehavior.ts:15-19 | clears the check handle and re-arms it, with the check interval, if and only if the session runs |
| Misbehavior.TriggerChance | composables/useMisbehavior.ts:33-35 | the chance is positive below the threshold and at most 1 for a non-negative emotional value |
| Misbehavior.TriggerChanceAntitone | composables/useMisbehavior.ts:32-35 | a lower emotional value never lowers the chance |
| Misbehavior.OnCheck | composables/useMisbehavior.ts:19-42 | the check triggers exactly when the session runs, the machine is idle, the emotional value is below the threshold and the draw does not exceed the chance: it then enters grace with the grace timer armed for the grace period, one more grace callback queued, and the check callback consumed; otherwise the phase and the grace timer are unchanged, the fired check callback is consumed and the check is re-armed with the check interval exactly while running |
| Misbehavior.NoTriggerAtOrAboveThreshold | composables/useMisbehavior.ts:25-30 | at or above the emotion threshold the check never changes the phase |
| Misbehavior.LowerEmotionTriggersNoLess | composables/useMisbehavior.ts:32-39 | any draw that triggers at one emotional value also triggers at every lower one |
| Misbehavior.Trigger | composables/useMisbehavior.ts:45-49 | enters grace and arms the grace timer; an earlier pending grace callback stays queued |
| Misbehavior.OnGraceEnd | composables/useMisbehavior.ts:49-54 | in grace, the fired grace callback is consumed, the machine enters danger with one penalty and a fresh 200 ms drain replaces the old one, the drain orphans kept; in any other phase, only that callback is consumed |
| Misbehavior.StartDrain | composables/useMisbehavior.ts:57-60 | any earlier drain is cancelled before a 200 ms interval is armed |
| Misbehavior.OnDrainTick | composables/useMisbehavior.ts:60-66 | in danger while running, a tick drains 0.2 s and changes nothing else; otherwise the drain is cancelled and no call is made |
| Misbehavior.Censor | composables/useMisbehavior.ts:69-80 | from grace or danger: one masked-threat count; grace and drain are cancelled; the machine is censored with the blur armed and one more blur callback queued. From idle or censored nothing changes. The check timer and the grace and drain orphans are kept either way |
| Misbehavior.OnBlurEnd | composables/useMisbehavior.ts:76-79 | the fired blur callback is consumed, the machine goes idle and the check is re-armed with the check interval if and only if the session runs, its orphans kept |
| Misbehavior.Start | composables/useMisbehavior.ts:82-85 | forces idle and schedules the check with the check interval exactly while running, its orphans kept; the grace, drain and blur timers are left untouched |
| Misbehavior.Stop | composables/useMisbehavior.ts:87-93 | forces idle and cancels all four live handles |
| Misbehavior.DangerHasNoExpiry | composables/useMisbehavior.ts:49-66 | in danger, checks, grace callbacks and drain ticks never leave danger |
| Misbehavior.TidyPreserved | composables/useMisbehavior.ts:15-93 | every callback, censor and `stop` keeps the machine tidy; `start` keeps it tidy from idle |
| Misbehavior.TidyRunStaysTidy | composables/useMisbehavior.ts:15-93 | over any run without a `start`, a tidy machine stays tidy |
| Misbehavior.TidyDangerEndsOnlyByCensorOrStop | composables/useMisbehavior.ts:57-93 | a tidy machine leaves danger only through the player's censor, `stop` or `start` |
| Misbehavior.StopCancelsEverything | composables/useMisbehavior.ts:87-121 | stopping a tidy machine leaves no callback queued |
| Misbehavior.StepPenalisesAndCensorsAtMostOnce | composables/useMisbehavior.ts:45-80 | one transition penalises only the occurrence that was in grace and counts a censor only for the occurrence that was open, or one it starts |
| Misbehavior.AtMostOnePenaltyAndCensorPerOccurrence | composables/useMisbehavior.ts:45-80 | over any run, danger penalties and censors each number at most the occurrences triggered (plus one already open at the start), counting an occurrence still in grace, or still open, as not yet penalised or censored |
| GameLoop.Start | composables/useGameLoop.ts:5-8 | after start the session runs; the old log is kept, followed by exactly the eight seed messages `createNormalMessage` builds with the next ids, and the counter advances by eight; both chat spawners are armed with their current delays, each queueing one more callback, so a chain left by an earlier start keeps running; id ordering is kept |
| GameLoop.Stop | composables/useGameLoop.ts:10-13 | after stop the session does not run and both chat spawners' handles are cancelled, while callbacks no handle refers to stay queued; the log and the id counter are kept |
| GameLoop.DoubleStartLeavesChainsAfterStop | composables/useGameLoop.ts:5-13 | starting twice without a stop, then stopping, leaves one normal and one threat callback queued that no handle can cancel |
| GameLoop.StopIdempotent | composables/useGameLoop.ts:10-13 | stopping twice is the same as stopping once |
| GameLoop.RestartOverfillsLog | composables/useGameLoop.ts:5-13 | stopping and restarting with a full log leaves 23 messages, the old 15 first; only spawning enforces the cap |
| GameLoop.FirstStartSeeds | composables/useGameLoop.ts:5-8 | the first start yields exactly eight normal messages with ids 0 to 7, in order |

## Left out

- Audio: the audio calls are left out. They have no effect on state.
- Rendering: the Vue/Pinia reactivity and `isActive` as a computed value are left out. The model keeps `isActive` only as the predicate `TimedThreat.IsActive`.
- Viewport scaling and the type-declaration files are left out. They define no behaviour of the core.
- Economy: `applySentiment`, the penalties, the misses, the drain and `threatsMasked` live in a part of the game store that is not part of this model. Each is recorded as a `GameStore.Call` in order, and its effect on the meters is not modelled.
- Meters: `viewers`, `emotionalValue` and `startTime` are read-only inputs (`GameStore.Meters` and plain arguments), because the code that updates them is not part of this model.
- Tuning values: constants that the core reads but whose definitions are not part of this model are the `Config.Tuning` parameter, required to be positive. These are the viewer-difficulty, threat-ratio, info-leak, personal-message and misbehavior values.
- Pulse flags: the 400 ms reset of `correctMask` and `falsePositive` is left out. It is cosmetic.
- Numbers: JavaScript floating point is modelled by exact reals. `Math.floor(Math.random() * n)` becomes the floor of an exact product, so rounding at the edge of [0, 1) is not modelled.
- Scheduling: timer delays are recorded but not ordered against each other. Which queued callback fires next is a free choice in each event, so every proved property holds for any interleaving. In `ChatRuns` a spawner firing with no callback queued leaves the feed unchanged, so a run may list any events; every run the game can produce is one of them.
- Message tables: the normal-message table is read as entries with a text and a sentiment, which is how the chat store uses it. Its declared shape is not modelled.
- Difficulty.ThreatDelay: requires a non-zero threat ratio. A clock that has gone back past the session start can bring the ratio to exactly zero, where `scheduleThreat` divides by zero and JavaScript yields an infinite interval that real arithmetic does not represent. A negative ratio is modelled: `Math.max` then clamps the interval to `MIN_SPAWN_INTERVAL` (`Difficulty.NegativeRatioClampsToMin`). `Difficulty.ThreatInterval`, `Difficulty.ThreatDelayJitter`, `Chat.ScheduleThreat`, `Chat.OnThreatTimer`, `Chat.StartChat`, `GameLoop.Start` and the well-formed events of `ChatRuns` inherit this requirement.
- Difficulty.ThreatIntervalBounded: requires that the clock has not gone back past the session start, and so does `Difficulty.ThreatDelayBounded`. A ratio strictly between 0 and 1 lengthens the interval beyond base / viewer floor, so the upper bound does not hold then.
- TimedThreat.TidyPreserved: does not cover `start` on an active machine. In that case the grace, danger or blur timer stays armed while the machine is idle, so the machine is no longer tidy. `TimedThreat.OrphanedBlurOutlivesStop` exhibits what can follow.
- Misbehavior.TidyPreserved: the same restriction, for the same reason.
- Misbehavior.TriggerChance: bounds the chance above by 1 only for a non-negative emotional value. A negative emotional value gives a chance above 1, which simply always triggers.
