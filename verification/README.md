# Loadout selection for the pre-mission preparation screen

This project models the game logic inside `PrepController`. `PrepController` is the
preparation screen of a horror game. Before the elevator departs, the player toggles
tools into a loadout of at most `maxTools` entries while a countdown runs. When the
countdown reaches zero, or the debug skip-timer control is used, the loadout locks.
At that moment a risk forecast and a payout forecast are derived from the tools that
were chosen.

Modules:

- `Tools` (`tools.dfy`): the six tools, as a datatype. It maps each tool to the exact
  name its button passes: "EMF Reader", "Spirit Box", "Salt Pouch", "Thermal Camera",
  "UV Light" and "Crucifix". It also reads names back into tools.
- `Selection` (`selection.dfy`): the two list operations the selection uses. They are
  searching for a tool and removing its first occurrence, which is what `List.Remove`
  does.
- `Forecasting` (`forecast.dfy`): the forecast, defined in two ways.
  - `RiskOf`/`PayoutOf` classify a selection of tools.
  - `RiskText`/`PayoutText`/`EvidenceCount` work over the list of names. They follow
    the lock-in routine branch for branch, including its overriding assignments to
    `risk`.
  - Lemmas prove that the two definitions agree on every selection.
- `Prep` (`prep.dfy`): the session state and its transitions: tool toggle, timer tick,
  skip timer and lock-in. It also defines event sequences and the invariants kept
  across them.
- `Slots` (`slots.dfy`): the fixed-width slot list of the loadout display. It comes
  with a reader that recovers the selection from the slots.
- `Warning` (`warning.dfy`): the warning sound near ten seconds. It is modelled
  twice, as written and as evidently intended (see Findings).
- `Wrappers` (`wrappers.dfy`): the optional-value datatype the other modules share.

The session is an immutable record with five fields:

- `selected`: a sequence of tools;
- `locked`: a flag;
- `timeLeft`: the time left, in whole milliseconds (`nat`);
- `maxTools`: the capacity (`nat`);
- `forecast`: `None` until lock, then the forecast computed at lock.

The source keeps the selection as a list of strings. Each button passes a fixed name,
and `Tools.NameInjective` shows that distinct tools have distinct names. So comparing
tools is the same as the source's string comparisons.

Some behaviours of the code are worth noting; the model follows them:

- The capacity may be zero. The slot array at line 175 only needs `maxTools >= 0`,
  and with a zero capacity every attempt to add a tool is rejected as full.
- A frame locks when `timeLeft - delta <= 0` (line 77). So a zero-length frame on a
  session that already has zero time left locks it.
- Skipping the timer on a locked session returns at once (line 197) and changes
  nothing.
- The warning near ten seconds (line 93) is a near-equality test on the time left
  after a frame, not a test for crossing 10 s. `Warning` models it as written and
  shows how it misbehaves (see Findings).

## Model

| member | source | states |
|---|---|---|
| Tools.ToolOf | Assets/Scripts/PrepController.cs:102-107 | A string reads as a tool only if it is that tool's button name, and it reads as no tool only if no button passes it |
| Tools.Name | Assets/Scripts/PrepController.cs:102-107 | The button name of each tool, the exact string its listener passes. Tools.NameRoundTrip and Tools.NameInjective fix its meaning: the names are pairwise distinct and read back as their tools |
| Tools.NameRoundTrip | Assets/Scripts/PrepController.cs:102-107 | Every tool's button name reads back as that tool |
| Tools.NameInjective | Assets/Scripts/PrepController.cs:102-107 | Two tools have the same button name exactly when they are the same tool |
| Tools.NamesContains | Assets/Scripts/PrepController.cs:116 | A search of the name list for a tool's name succeeds exactly when the tool is selected |
| Tools.Names | Assets/Scripts/PrepController.cs:41 | The `List<string>` the screen keeps for a selection: it has one entry per selected tool, and entry i is the name of tool i |
| Selection.IndexOf | Assets/Scripts/PrepController.cs:116-118 | The position found is the first occurrence of the tool; it is the length of the list exactly when the tool is absent |
| Selection.Remove | Assets/Scripts/PrepController.cs:118 | Removal deletes exactly one occurrence, the first, and keeps every other entry in its relative order. The list is one shorter, and its multiset loses one copy of the tool. An absent tool leaves the list unchanged |
| Selection.RemoveNoDup | Assets/Scripts/PrepController.cs:116-118 | Removing a tool from a duplicate-free list leaves the tool absent and the list duplicate-free |
| Selection.RemoveAppended | Assets/Scripts/PrepController.cs:118-130 | Removing a tool just appended to a list without it gives back the original list |
| Forecasting.LabelsInjective | Assets/Scripts/PrepController.cs:158-162 | Distinct risk levels, and distinct payout levels, are shown with distinct texts |
| Forecasting.RiskOf | Assets/Scripts/PrepController.cs:151-160 | The risk level of a selection. Forecasting.RiskTruthTable gives it as a truth table over the Salt Pouch, the Crucifix and the Spirit Box; Forecasting.RiskTextMatches equates its label with the text the source computes |
| Forecasting.PayoutOf | Assets/Scripts/PrepController.cs:153-162 | The payout level of a selection. Forecasting.PayoutTruthTable gives it as a truth table over the three evidence tools; Forecasting.PayoutTextMatches equates its label with the text the source computes |
| Forecasting.ForecastOf | Assets/Scripts/PrepController.cs:151-162 | The forecast that lock-in records: the pair of RiskOf and PayoutOf. Prep.LockedForecastText shows a locked session holds the forecast whose labels are the texts the source writes |
| Forecasting.RiskTruthTable | Assets/Scripts/PrepController.cs:151-160 | Risk is MODERATE exactly when the Salt Pouch or the Crucifix is selected. It is VERY HIGH exactly when the Spirit Box is selected and neither protection tool is. It is HIGH exactly when none of the three is selected |
| Forecasting.PayoutTruthTable | Assets/Scripts/PrepController.cs:153-162 | At most three evidence tools are ever selected. Payout is HIGH iff at least two of the EMF Reader, Thermal Camera and UV Light are selected, MEDIUM iff exactly one is, and LOW iff none is |
| Forecasting.EvidenceCount | Assets/Scripts/PrepController.cs:153-156 | The evidence counter never exceeds 3 |
| Forecasting.RiskText | Assets/Scripts/PrepController.cs:151-160 | The risk text over the name list, with the source's overriding assignments. Forecasting.RiskTextMatches equates it with RiskLabel(RiskOf) on every selection |
| Forecasting.PayoutText | Assets/Scripts/PrepController.cs:162 | The payout text chosen from the evidence counter. Forecasting.PayoutTextMatches equates it with PayoutLabel(PayoutOf) on every selection |
| Forecasting.EvidenceToolsCard | Assets/Scripts/PrepController.cs:153-156 | The number of distinct evidence tools selected is the sum of one indicator for each of the three evidence tools |
| Forecasting.EvidenceCountMatches | Assets/Scripts/PrepController.cs:153-156 | Counting evidence names in the list gives the number of distinct evidence tools selected |
| Forecasting.RiskTextMatches | Assets/Scripts/PrepController.cs:151-160 | The risk text computed by the overriding assignments is the label of the classified risk level, for every selection |
| Forecasting.PayoutTextMatches | Assets/Scripts/PrepController.cs:153-162 | The payout text chosen from the evidence counter is the label of the classified payout level, for every selection |
| Forecasting.ForecastExamples | Assets/Scripts/PrepController.cs:151-162 | Spirit Box with the EMF reader forecasts VERY HIGH risk and MEDIUM payout. Salt, EMF reader and thermal camera forecast MODERATE and HIGH. An empty loadout forecasts HIGH and LOW |
| Prep.Init | Assets/Scripts/PrepController.cs:39-46 | A session starts unlocked, with an empty selection, the full preparation time and the configured capacity, and it satisfies the session invariant |
| Prep.LockIn | Assets/Scripts/PrepController.cs:137-162 | Lock-in sets the lock and records the forecast of the current selection. It changes nothing else |
| Prep.ToggleTool | Assets/Scripts/PrepController.cs:112-135 | Covers each branch of a toggle. Locked: nothing changes. Tool selected: its first occurrence is removed, even when the loadout is full. Tool absent and loadout full: nothing changes, and the outcome is the soft rejection. Otherwise: the tool is appended at the end. The lock, time, capacity and forecast are never changed |
| Prep.Tick | Assets/Scripts/PrepController.cs:74-81 | Covers each branch of a tick. Locked: nothing changes. A delta of at least the time left sets the time to exactly 0, locks, and records the forecast. A shorter delta reduces the time by exactly the delta and leaves the session unlocked. The selection is never changed |
| Prep.SkipTimer | Assets/Scripts/PrepController.cs:195-201 | Skipping the timer leaves a locked session as it is. Otherwise it sets the time to 0, locks, and records the forecast; the selection is never changed |
| Prep.Step | Assets/Scripts/PrepController.cs:74-201 | Dispatches one event: a click to ToggleTool, a frame to Tick, the skip control to SkipTimer. Prep.StepPreservesValid shows it keeps the session invariant |
| Prep.Run | Assets/Scripts/PrepController.cs:74-201 | Applies events in order. Prep.RunPreservesValid, Prep.LockedIsTerminal and Prep.CountdownLocksWhenTimeRunsOut state what it keeps, when it stops changing anything, and when it locks |
| Prep.StepPreservesValid | Assets/Scripts/PrepController.cs:74-201 | Every toggle (lines 112-135), frame (lines 74-81) and skip (lines 195-201) keeps the invariant. The invariant: no duplicates, at most `maxTools` tools, locked iff a forecast exists, and a locked session has zero time and the forecast of its selection |
| Prep.RunPreservesValid | Assets/Scripts/PrepController.cs:112-131 | Every sequence of events keeps the session invariant |
| Prep.RunKeepsCapacity | Assets/Scripts/PrepController.cs:32 | No sequence of events changes the capacity |
| Prep.ReachableIsValid | Assets/Scripts/PrepController.cs:116-131 | From the start of preparation, every sequence of events leaves a duplicate-free selection of at most `maxTools` tools |
| Prep.LockedIsTerminal | Assets/Scripts/PrepController.cs:112-114 | Once locked, every sequence of toggles, ticks and skips leaves the session unchanged. This uses the early returns at lines 74, 114 and 197 |
| Prep.LockedForecastText | Assets/Scripts/PrepController.cs:151-169 | A valid locked session holds exactly the risk and payout that the lock-in text shows for its selection |
| Prep.SkipTimerIdempotent | Assets/Scripts/PrepController.cs:195-201 | Skipping the timer twice has the same effect as skipping it once |
| Prep.ToggleTwiceRestores | Assets/Scripts/PrepController.cs:116-131 | When a tool is absent and there is room, toggling it adds it. Toggling it again removes it and restores the session exactly |
| Prep.DeltasFirst | Assets/Scripts/PrepController.cs:76 | The ticks of an event sequence are those of its first event followed by those of the rest, and so are their total |
| Prep.CountdownLocksWhenTimeRunsOut | Assets/Scripts/PrepController.cs:74-81 | Consider an unlocked session and events without a skip. It ends locked exactly when at least one tick arrives and the ticks total at least the time left. If locked, the time reads 0. If not, the time has gone down by exactly the ticks' total |
| Slots.BuildSlots | Assets/Scripts/PrepController.cs:172-177 | The slot list has exactly `maxTools` entries. Slot i names the i-th selected tool for i below the selection's length; every later slot is "[empty]". Reading the slots back gives the selection, cut to the capacity |
| Slots.ReadSlots | Assets/Scripts/PrepController.cs:175-177 | Reading slots back yields tools whose names are exactly the leading slots, and stops at the first slot that names no tool |
| Slots.ReadBack | Assets/Scripts/PrepController.cs:175-177 | Tool names followed by "[empty]" slots read back as exactly those tools |
| Warning.NearEqualityCanMiss | Assets/Scripts/PrepController.cs:92-94 | Two 60 ms frames from 10.03 s leave 9.91 s on the clock with the countdown still running. The warning as written plays zero times; the crossing rule plays it once |
| Warning.NearEqualityCanRepeat | Assets/Scripts/PrepController.cs:92-94 | Two 16 ms frames from 10.02 s both land within 20 ms of 10 s. The warning as written plays twice; the crossing rule plays it once |
| Warning.CrossingSilentBelow | Assets/Scripts/PrepController.cs:92-94 | Under the crossing rule, no frame plays the warning once the countdown is at or below 10 s |
| Warning.CrossingWarnsOnce | Assets/Scripts/PrepController.cs:76-94 | Under the crossing rule the warning plays at most once. It plays exactly once when the countdown starts above 10 s and ends at or below 10 s without expiring. It plays never while the countdown stays above 10 s |
| Warning.FinalAtMost | Assets/Scripts/PrepController.cs:76 | Frames never raise the time left |
| Warning.Warns | Assets/Scripts/PrepController.cs:93 | Whether one frame plays the warning: as written, when the time left after it is strictly within 20 ms of 10 000 ms; under the crossing rule, when it goes from above 10 s to 10 s or below. Warning.NearEqualityCanMiss, Warning.NearEqualityCanRepeat and Warning.CrossingWarnsOnce fix its meaning |
| Warning.Count | Assets/Scripts/PrepController.cs:76-94 | How many times the warning plays over a run of frames, evaluated only on frames that do not expire the countdown, as in the else branch at lines 82-95. Warning.CrossingWarnsOnce bounds it by one under the crossing rule |
| Warning.Final | Assets/Scripts/PrepController.cs:76-81 | The time left after a run of frames, zero once expired. Warning.FinalIsSessionCountdown equates it with the session's own countdown |
| Warning.Frames | Assets/Scripts/PrepController.cs:76 | Frame lengths as frame events: one event per frame, each carrying that frame's length |
| Warning.FinalIsSessionCountdown | Assets/Scripts/PrepController.cs:74-81 | An unlocked session that receives the frames ends with exactly Final ms left, and if the frames lock it, Final is 0. So the warning's countdown is the session's countdown |

## Left out

- Unity UI: text assignments, button `interactable` flags, listener wiring, the
  briefing text and how the result and loadout strings are formatted. This is engine
  presentation. The forecast is modelled up to the risk and payout texts.
- Audio: the click, warning and lock-in sounds, and the ambient volume and pitch
  interpolation. These are calls into the engine plus floating-point interpolation.
  `Prep.ToggleOutcome` records which toggle branch was taken, and so which sound the
  screen would play.
- The warning's float comparison is modelled over whole milliseconds: the window is
  "within 20 ms of 10 000 ms". The warning is modelled over the frame lengths and
  is not a field of `Prep.Session`; `Warning.FinalIsSessionCountdown` ties its
  countdown to the session's.
- The countdown display rounded up to whole seconds. It is float rounding for display
  only.
- Keyboard polling, reloading the scene and quitting the application. These are
  input, scene management and engine lifecycle.
- Time is whole milliseconds rather than float seconds, and each frame's delta is a
  non-negative whole number. Float rounding of the countdown is not modelled.
- Prep.ToggleTool: takes a tool rather than an arbitrary string. Only the six buttons
  call the toggle, each with a fixed name.
- The capacity `maxTools` is fixed for the session. Changing it through the engine
  inspector while the screen runs is not modelled.

## Findings

| source | as written | input that shows it | evidently intended | confidence | as-written member | corrected member |
|---|---|---|---|---|---|---|
| Assets/Scripts/PrepController.cs:92-94 | The warning plays on each frame whose time left is within 20 ms of 10 s | Frames of 60 ms from 10.03 s: 9.97 s, then 9.91 s; no frame lands in the window | Play the warning once, when the countdown passes 10 s | high; not executed | Warning.NearEqualityCanMiss | Warning.CrossingWarnsOnce |
| Assets/Scripts/PrepController.cs:92-94 | The warning plays on each frame whose time left is within 20 ms of 10 s | Frames of 16 ms from 10.02 s: 10.004 s, then 9.988 s; both land in the window | Play the warning once, when the countdown passes 10 s | high; not executed | Warning.NearEqualityCanRepeat | Warning.CrossingWarnsOnce |
