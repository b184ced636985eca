# A model of the live trading bots and their supporting cores

This project models, in Dafny, the parts of the repository that carry a protocol or an invariant, and
proves what they promise for every input, every run or every interleaving.

**The live bot.** A runner manages one position against a broker whose replies may fail, be empty, be
late or be odd. `RunnerSpec` says what one tick does as a function of the bot's state and of everything
the tick is told (the clock, the fetched bar, the signals, every broker reply); what the runner does is
appended to a history of events. `BotRunner` is the program's object: a class whose methods update the
state step by step, each proved equal to the function of its step, up to the loop over whole runs.
`RunnerSafety` proves that every run makes a safe history, `RunnerBars` that every bar gets at most one
close and one count, `RunnerTraces` what a history says of the signal exit owed after a code failure, the
pending flip and the entry time kept, and `RunnerTheorems` reads these off as statements about histories
alone: the ledger, the evidence behind every position given up, the look at the broker behind every
close, the time stop, the post-loss counters and the exits-only state. `RunnerLives` follows a bot over
crashes, loads, starts and stops. `RunnerMisses` and `RunnerFindings` hold what turned out false, each
with a run that shows it and the exact condition. `PriceExits` is the arithmetic of stop, trailing stop
and time stop, and `ExitLaws` says in prices and percentages which exit is due and where the trailing stop
stands. `RunnerInputs` proves that every event of every run fits the input of its tick, and `RunnerActs`
the other direction: when a tick must enter, give a position up, send an exit, flip or pause. Both are
said without the functions of the tick.

**The bot manager.** `BotManager` is the class (add, roll back, delete, reorder, start, stop, save, load,
resume, shut down, set the fund), `ManagerRows` the file's rows with those that cannot be read,
`ManagerLives` whole histories of a manager over shutdowns, crashes and boots, `ManagerFunds` what the bots
may take of the fund over such a history, `ManagerStarts` which bots get a runner, and `SaveLock` the
threads that take the save lock, and a reorder, which copies and replaces the bots without it, interleaved
step by step.

**Smaller cores.** `Gateway` and `GatewayAlerts`: the self-heal scheduler, its restarts and whom it tells.
`Loader` and `AsOf`: the memoised price loader and the as-of loop of the validation harness. `Edgar`: the
derived cache keyed by file times. `Journal`: the profit and loss of the trade journal. `Todo`,
`TodoTheorems`, `TodoLines`, `TodoTwice` and `TodoPass`: the pass that re-homes and sorts the bullets of
TODO.md, as a function, what it promises of sections and of single lines, when running it again changes
nothing, and the loops that compute it.

Prices and times are `real`, bars and order ids are `int`; floating point rounding is not modelled.
`dafny verify dfyconfig.toml` checks the whole project.

## Where the code and its documentation differ

The model follows the code. Each of these is a member below.

- A position that is missing at the broker should be given up on two replies in a row. The counter of
  misses (`_missing_checks`) is not cleared when the bot's own close is booked, so the next position can
  be given up on one (`RunnerMisses.BothRepliesSinceIff`).
- After a code failure only price exits should be sent. A signal exit kept for a bar when the code fails
  is still sent after it, on that bar and once (`RunnerTheorems.NoEntryNoSignalAfterFailure`,
  `RunnerFindings.SignalAfterFailureIff`, `RunnerFindings.SignalAtFailureIff`).
- A regime flip that is pending is not forgotten when another exit closes the position, and its cleanup
  then finds nothing to clean up (`RunnerFindings.EmptyCleanupIff`, `RunnerFindings.LiteralLedgerIff`).
- `entry_time` outlives an external close and a flip, so a fill from before a resumed position can give
  that position up (`RunnerFindings.OlderFillTakenIff`).
- One close per bar needs a new bar after a graph update that is taken while flat
  (`RunnerFindings.AnotherCloseIff`).
- `entry_bar_count` is not among the saved fields: after a crash the time stop counts from zero
  (`RunnerLives.ReloadKeepsTimeStopIff`).
- `reorder` copies the bots and replaces them without the save lock: a batch saved in between is lost, and
  legs of a failed one come back (`SaveLock.MemoryIsRightIff`, `SaveLock.ReorderLosesASavedBatch`,
  `SaveLock.ReorderSavesAFailedBatch`).
- `update_bot` changes a bot's capital without looking at the fund, so the bots can be given more than it
  holds; `_validate_allocation` could leave a bot out of its sum, and nothing calls it so
  (`ManagerFunds.CapitalStaysWithinIff`, `ManagerFunds.EditExceedsTheFund`).
- With polls more than 5400 s apart nobody need ever be told of a gateway that stays stuck: each poll can
  restart it, or come too soon after a restart (`GatewayAlerts.HealAlertsComeIff`).
- The percent trail can give way when its value is above 100 for a long or below -100 for a short
  (`PriceExits.PercentTrailNeverFallsIff`), and long and short are not mirror images under it
  (`PriceExits.PercentTrailIsSymmetricIff`).
- `_load_derived` rebuilds a corrupt derived file, but raises on a derived or young raw file whose bytes
  are not UTF-8; it returns a fresh derived file that holds other JSON, and trusts one with the same time
  as a newer raw file (`Edgar.LoadAgrees`, `Edgar.RefreshIsNoticedIff`).
- A rate limit on the loader's one retry is cached as "no data", in the prefetch too
  (`Loader.RateLimitIsRaisedIff`).
- The journal keeps one open entry, which is not last-in first-out (`Journal.LastInFirstOutIff`).
- The Deferred section of TODO.md is not byte-identical when it holds two blank lines in a row
  (`TodoTheorems.UntouchedIff`); bullets that go to a letter two sections have are doubled
  (`TodoTheorems.NoBulletLostOrDoubledIff`); a second pass can add an empty line
  (`TodoTwice.SecondPassIsIdentityIff`).

## Model

| member | source | states |
|---|---|---|
| RunnerTheorems.LedgerIsConserved | backend/bot_runner.py:1974-2036 | after every run: entries, resumed positions and the one the run began with, less booked exits, side-mismatch clears and flip cleanups of a tracked position, is 1 when `entry_price` is set and 0 when not |
| RunnerTheorems.EveryMomentBalances | backend/bot_runner.py:722-856 | at every moment of every run: an entry or resume happens only when nothing is tracked; a booking, a clear, an accepted close, a counted bar and a confirmed loss only when one position is |
| RunnerTheorems.GoneOnlyWithProof | backend/exits.py:87-141 | a tracked position missing at the broker is given up only on a fill of a close the bot sent, a closing-side fill no more than 5 s before its entry time, or two replies that list other positions and none listing it in between, misses carried over from the position before included |
| RunnerTheorems.GivenUpOnlyWithEvidence | backend/exits.py:399-606 | every way a position is given up: an external booking or flip cleanup directly after such evidence, an own close directly after a reply without the position and an accepted close in the same tick, a side clear directly after a reply with the symbol on the other side |
| RunnerTheorems.CloseOnlyWhenListed | backend/exits.py:411-468 | every accepted close is on the side recorded when the position was opened, and a reply of the same tick lists the symbol on that side |
| RunnerTheorems.OneClosePerBar | backend/bot_runner.py:1030-1098 | in one runner's life, when bars do not go back and a graph update taken while flat is followed by a new bar, the bars of accepted closes and the counted bars are strictly increasing: one close and one count a bar over all paths and retries |
| RunnerTheorems.TimeStopTakesItsBars | backend/exits.py:394-395 | the time stop is due only when the distinct bars counted since the position began, with those it was saved with, reach `max_bars_held` |
| RunnerTheorems.ConsecCountsTheSuffix | backend/exits.py:187-191 | `consec_sl_count` is the length of the longest suffix of booked exits that qualify under the trigger, added to the saved count while all of the run's exits qualify |
| RunnerTheorems.EntryAfterExactSkips | backend/bot_runner.py:2076-2079 | a candidate passes the skip check only after exactly the configured number was dropped since the last qualifying stop; none is dropped beyond that; every entry directly follows a candidate that passed |
| RunnerTheorems.NoEntryNoSignalAfterFailure | backend/bot_runner.py:1460-1524 | once the code has failed no candidate is considered and nothing is entered; every accepted close is a price exit, or the signal exit kept when it failed, on the bar it was kept for and at most once |
| RunnerTheorems.OwedSignalWasUnsent | backend/bot_runner.py:1074-1098 | when bars rise every accepted close, that one too, is on a later bar than all closes before it: nothing had been sent on its bar |
| RunnerTheorems.PausesOnlyWhenFlat | backend/bot_runner.py:1287-1304 | the pause that ends the exits-only state comes with nothing tracked; a bot that may hold an untracked position gave one up in that tick or saw two replies that list other positions |
| RunnerInputs.EveryRunIsTold | backend/bot_runner.py:1596-2180 | after every run the position held with its bars, peak and level, the pending flip, the closes sent and the exit kept for a bar are what the history tells of them |
| RunnerInputs.EveryEventFits | backend/bot_runner.py:1596-2180 | in every run every event belongs to a tick whose input it fits: replies are the broker's, closes go to a listed position on the held side for a reason found on that bar, quantities and prices booked are those of the position or order a reply lists, polls stop at the first without the position |
| RunnerInputs.EntriesGoTheirWay | backend/bot_runner.py:2038-2119 | every entry of every run is on the bot's own side, a regime bot's on the side its regime had in that tick; on a buy signal only in hours, unblocked, with room in the positions listed, the spread right and the order filled at that price |
| RunnerInputs.ExitsObeyTheLaw | backend/exits.py:313-397 | every bar counted in a run moves peak and level as ExitLaws.BarLaw says and finds the exit ExitLaws.ExitLaw says, under the settings in force for the position's direction |
| RunnerActs.EntersIff | backend/bot_runner.py:2038-2119 | a flat tick without a position listed enters if and only if it is in hours with a side, a buy signal and no block, no candidate is left to skip, a reply leaves room, the spread is right and the order is filled; what side, price and time the position starts with, and how the skips go down |
| RunnerActs.GivenUpIff | backend/bot_runner.py:1940-2036 | a tracked position not listed is given up if and only if a closed order proves it closed or this is the second reply that lists other positions; how it is booked, the drawdown pause, and the entry that may follow |
| RunnerActs.ExitIff | backend/bot_runner.py:2124-2180 | a listed position gets the exit of the law, else the sell signal; it is closed if and only if the fresh reply lists it first on its side, the close is accepted and one of six polls is the first without it; refused, unconfirmed and unsent exits leave what they leave |
| RunnerActs.FlipIff | backend/regime.py:119-245 | a regime flip closes if and only if its close is accepted and the polls show it; then it enters the other way if and only if it reverses, in hours, unblocked, with no skip left and the order filled |
| RunnerActs.CleansIff | backend/bot_runner.py:1979-2002 | a pending flip whose position is not listed is cleaned up at once when nothing is tracked, else if and only if the position is seen to be gone |
| RunnerActs.UncheckedIff | backend/bot_runner.py:1911-1936 | with the broker silent a tracked position gets its price exits once; the bar is done if and only if an exit was attempted and not left unsent |
| RunnerActs.FailedExitIff | backend/bot_runner.py:1249-1285 | the same of a bot whose code failed, and when it pauses after |
| RunnerActs.FailedGoneIff | backend/bot_runner.py:1205-1231 | such a bot gives a missing position up if and only if a working one would, and then pauses |
| RunnerActs.UntrackedPausesIff | backend/bot_runner.py:1287-1304 | with nothing tracked it pauses if and only if it can hold nothing unknown or this is the second reply that lists other positions |
| RunnerActs.FailedBarIsDone | backend/bot_runner.py:1171-1175 | a bar whose exits are done with is left alone |
| RunnerActs.ReferenceDownIff | backend/bot_runner.py:1776-1799 | with a reference down the price exits run by the same law, and the tick raises |
| RunnerActs.ResumesWhenShown | backend/bot_runner.py:979-993 | a listed position that is not tracked is taken over |
| RunnerActs.CodeFailsIff | backend/bot_runner.py:1653-1886 | the code fails in a tick if and only if the compiler refuses it or the cook of a new bar raises, in hours or with a position tracked |
| RunnerActs.ExecuteExitLaw | backend/exits.py:399-606 | one attempt of an exit: closed, cleared, refused, sent or not sent, each if and only if the replies are so, with its booking and the drawdown pause |
| RunnerActs.PollIff | backend/exits.py:484-502 | the polls confirm a close if and only if one of at most six comes without the position and all before it with it |
| RunnerActs.ClosingFillIsFirst | backend/exits.py:87-112 | the order found is the first that proves the close, with what it proves; none is found only when none does |
| RunnerSafety.EveryRunIsSafe | backend/bot_runner.py:1596-2180 | every run, with every broker, data provider and strategy, makes a safe history whose sum agrees with the runner's fields |
| RunnerSafety.TickSafe | backend/bot_runner.py:1596-2180 | one tick keeps that, begins the exits-only state only with a code failure and ends it only in the pause for it, with nothing tracked |
| RunnerSafety.BrokerPositionSafe | backend/bot_runner.py:942-993 | a look at the broker keeps it; a miss is in the history before it is counted, and a listed position is tracked afterwards on a side the reply lists |
| RunnerSafety.ConfirmGoneSafe | backend/exits.py:114-141 | a confirmation is logged only with evidence the history holds |
| RunnerSafety.ExecuteExitSafe | backend/exits.py:399-606 | sending an exit keeps it; the position is untracked afterwards only when it was given up in this tick |
| RunnerSafety.HandleFlipSafe | backend/regime.py:119-245 | a regime flip keeps it, through the close, the pending flip and the reverse entry |
| RunnerSafety.ManageUntrackedSafe | backend/bot_runner.py:1287-1304 | with nothing tracked and nothing listed, flat is confirmed only as the pause needs it |
| RunnerSafety.HeldExitsSafe | backend/bot_runner.py:2124-2180 | the exits of a held position keep it, with a retried exit that was not sent |
| RunnerBars.EveryRunIsMarked | backend/bot_runner.py:1772-1802 | over every run whose bars rise, the runner's marks (`last_bar_time`, `_exits_bar`, `_exits_bar_reason`) say which bars are closed on and counted, whatever path each tick took |
| RunnerBars.TickMarked | backend/bot_runner.py:1596-2180 | one tick on a bar keeps the marks, over the main path, reference down, position check down and code failed |
| RunnerTraces.TickTicked | backend/bot_runner.py:1596-2180 | from any state of a run, one tick sends a signal exit after a code failure only as the one kept for its bar, cleans up a flip with nothing tracked exactly when `CleansNothing` holds before it, and leaves the kept entry time and the pending flip as the history says |
| RunnerTraces.EveryRunTies | backend/bot_runner.py:979-993 | over every run `entry_time`, the pending flip and the exit kept for a bar are what the history says of them |
| RunnerMisses.BothRepliesSinceIff | backend/exits.py:132-137 | of a position given up on two replies both came since it was opened if and only if `_missing_checks` was zero when it was entered |
| RunnerMisses.EveryRunIsExact | backend/bot_runner.py:942-977 | over every run a tracked position's misses are all in `_missing_checks`, and nobody is given up later than on the second counted one |
| RunnerLives.ExitsOnlyLasts | backend/bot_manager.py:1296-1326 | over any ticks, crashes, loads, starts and stops the exits-only state lasts until the pause for it with nothing tracked, a Stop that closed the position or a graph update with nothing tracked; in it a runner enters nothing and its accepted closes are price exits, or the one signal exit that was kept |
| RunnerLives.TurnKeepsState | backend/bot_manager.py:713-773 | each such turn on its own |
| RunnerLives.FailureBeginsExitsOnly | backend/bot_runner.py:1460-1524 | a tick in which the code fails leaves the bot in the exits-only state, or paused for it with nothing tracked |
| RunnerLives.ReloadKeepsTimeStopIff | backend/bot_manager.py:398-455 | a time stop that would be due after the bars that follow is still due after them when the server restarts first, if and only if those bars alone reach the limit; otherwise nothing is due |
| RunnerFindings.OneMissDropsANewPosition | backend/exits.py:594-606 | a run in which a position is given up on one reply since its entry |
| RunnerFindings.SignalCloseAfterCodeFailure | backend/bot_runner.py:1138-1285 | a run in which a signal close is accepted after the code failed |
| RunnerFindings.SignalAfterFailureIff | backend/bot_runner.py:1460-1524 | at the end of any run whose code has failed, some tick sends a signal close if and only if the exit kept for a bar is a signal's |
| RunnerFindings.SignalAtFailureIff | backend/bot_runner.py:1526-1594 | the tick in which the code fails can send one if and only if a signal exit is kept for a bar that is not finished, or for any bar while the graph is not compiled |
| RunnerFindings.CleanupOfNothing | backend/bot_runner.py:1979-2002 | a run in which a pending flip is cleaned up with nothing tracked, so that counting it takes the ledger to -1 |
| RunnerFindings.EmptyCleanupIff | backend/bot_runner.py:1979-2002 | at the end of any run some tick cleans up a flip with nothing tracked if and only if the bot is a running regime bot whose pending flip's position was given up by another exit |
| RunnerFindings.LiteralLedgerIff | backend/bot_runner.py:1979-2002 | the ledger that counts every flip cleanup is short by the ticks that met a flat bot with a flip pending and no position listed, told from the state before each; it is exact if and only if there were none |
| RunnerFindings.OneFillClosesTwoPositions | backend/bot_runner.py:2028-2036 | a run in which one fill gives up a position and later the one resumed after it |
| RunnerFindings.ResumedTimeIsKept | backend/bot_runner.py:979-993 | over every run a resumed position is judged by the entry time kept from the position before, and by its own time only when none was kept |
| RunnerFindings.OlderFillTakenIff | backend/exits.py:87-112 | at the end of any run a position found now can be given up on a fill from more than 5 s before if and only if the last position ended neither with the bot's own close nor with a side clear, and its entry time is before now |
| RunnerFindings.TwoClosesOnABar | backend/bot_manager.py:955-982 | a run with two accepted closes on one bar, a graph update between them |
| RunnerFindings.AnotherCloseIff | backend/bot_runner.py:1526-1594 | at the end of any run, a flat bot can send another close on the bar it last worked on and has closed on if and only if its code has failed or its graph was updated since it compiled, and the bar's price exits are not done with; otherwise no tick on that bar sends any |
| BotRunner.Runner.constructor | backend/bot_runner.py:591-668 | a new runner, in the exits-only state when the bot was saved in it, does not count the saved bar again |
| BotRunner.Runner.Scan | backend/bot_runner.py:964-977 | the first position of a reply on the symbol and the wanted side |
| BotRunner.Runner.AskBroker | backend/bot_runner.py:942-977 | the broker's answer and what is noted of it, for each of its three forms |
| BotRunner.Runner.ScanFills | backend/exits.py:102-112 | the first closed order that closed this position, with the evidence it gives |
| BotRunner.Runner.PositionGoneConfirmed | backend/exits.py:114-141 | gone with a fill or at the second miss, the counter otherwise raised unless the reply was empty |
| BotRunner.Runner.DetectClose | backend/exits.py:143-270 | booking such a close, with the drawdown pause |
| BotRunner.Runner.VerifyPosition | backend/exits.py:413-453 | the reply asked for just before a close |
| BotRunner.Runner.WaitUntilClosed | backend/exits.py:484-502 | at most six replies, ended by a failure or by the first without the position |
| BotRunner.Runner.FinishClose | backend/exits.py:518-606 | the booking of a confirmed close and the flat state |
| BotRunner.Runner.CloseNow | backend/exits.py:455-606 | a refused close, one sent and not confirmed, one confirmed |
| BotRunner.Runner.Exit | backend/exits.py:399-606 | the whole of an exit attempt and its outcome |
| BotRunner.Runner.Walk | backend/exits.py:341-397 | the trailing stop moved and the exit due, for both sides |
| BotRunner.Runner.PriceExitReason | backend/exits.py:313-397 | the bar counted and the exit due under the settings of the tracked direction |
| BotRunner.Runner.ExitsOnce | backend/bot_runner.py:1053-1064 | the price exits of a bar run once, a retry repeats an unsent exit only |
| BotRunner.Runner.ExitsUnchecked | backend/bot_runner.py:1030-1072 | the price exits while the broker cannot be asked |
| BotRunner.Runner.ManageListed | backend/bot_runner.py:1249-1285 | the price exits of a listed position without signals |
| BotRunner.Runner.ManageTracked | backend/bot_runner.py:1205-1231 | a tracked position the broker does not list |
| BotRunner.Runner.ManageWithoutSignals | backend/bot_runner.py:1138-1285 | the whole of it, done once a bar unless the last look had a problem |
| BotRunner.Runner.ManageFailed | backend/bot_runner.py:1460-1524 | a bar after a code failure: exits, then the pause once flat |
| BotRunner.Runner.TickCodeFailure | backend/bot_runner.py:1526-1594 | a tick of a bot whose code failed |
| BotRunner.Runner.EnterPosition | backend/bot_runner.py:722-856 | an entry that is blocked, refused or filled |
| BotRunner.Runner.EnterReverse | backend/regime.py:239-245 | the reverse entry after a flip |
| BotRunner.Runner.Flip | backend/regime.py:119-245 | a regime flip: refused, not cleared, or closed and reversed |
| BotRunner.Runner.ResolveFlip | backend/bot_runner.py:1979-2002 | a pending flip that cleared between ticks |
| BotRunner.Runner.RoomFor | backend/bot_runner.py:2084-2099 | whether the position list leaves room for an entry |
| BotRunner.Runner.TryToEnter | backend/bot_runner.py:2038-2119 | the entry of a flat bot, gate after gate |
| BotRunner.Runner.Flat | backend/bot_runner.py:2017-2119 | the external close booked, the state forgotten, an entry tried |
| BotRunner.Runner.NotListed | backend/bot_runner.py:1940-1955 | a missing position: confirmed, or the bar is given back |
| BotRunner.Runner.NotChecked | backend/bot_runner.py:1911-1936 | a failed check: the price exits, and the bar given back unless it is done |
| BotRunner.Runner.DecideExit | backend/bot_runner.py:2128-2159 | the exit due on the bar: a price exit first, then the signal |
| BotRunner.Runner.ExitsOfHeld | backend/bot_runner.py:2124-2180 | the exits of a held position, kept for a retry when not sent |
| BotRunner.Runner.Held | backend/bot_runner.py:1973-2009 | a flip, a pending flip or the exits of a held position |
| BotRunner.Runner.WorkOn | backend/bot_runner.py:1801-1886 | a new bar: code failure, cook failure, indicator failure or signals |
| BotRunner.Runner.SeeBars | backend/bot_runner.py:1748-1799 | no bars, the same bar, a reference that is behind, or a new bar |
| BotRunner.Runner.CompileThenWork | backend/bot_runner.py:1653-1720 | the four answers of the compiler |
| BotRunner.Runner.OneTick | backend/bot_runner.py:1596-2180 | one tick equals RunnerSpec.Tick on the whole state; from any state of a run it leaves the ledger exact, every position given up with evidence, every close of a listed position, and its bar marked |
| BotRunner.Runner.ApplyGraphUpdate | backend/bot_manager.py:955-982 | refused while a position is tracked, else the exits-only state ends |
| BotRunner.Runner.Live | backend/bot_runner.py:2226-2315 | a whole run of the object equals RunnerSpec.Run: its ledger is exact, every position was given up with evidence, every close was of a listed position, and with rising bars each bar has at most one close and one count |
| PriceExits.PeakIsBestActivated | backend/exits.py:346-372 | after any bars `trail_peak` is the best of its start and all activated source prices, for both sides |
| PriceExits.PercentTrailTightens | backend/exits.py:357-370 | over any bars a percent trail with a non-negative factor never gives way |
| PriceExits.PercentTrailNeverFallsIff | backend/exits.py:346-370 | and only such a trail, active at once or on profit: it never gives way over all bar sequences if and only if its factor is not negative |
| PriceExits.MirrorSameExit | backend/exits.py:313-397 | with an ATR trail, a percent trail of 0 or none, reflecting all prices about the entry swaps long and short and gives the same exit on the same bar |
| PriceExits.PercentTrailIsSymmetricIff | backend/exits.py:357-370 | after any bars the percent stops of a position and of its reflection are reflections of each other if and only if the trail is 0 or the peak is still the entry price |
| PriceExits.AfterBarsKeeps | backend/exits.py:317-317 | every bar is counted once |
| ExitLaws.DueByLaw | backend/exits.py:374-397 | the stop loss is due if and only if at least its percentage of the entry price is lost, the trailing stop if and only if that is not so and the price is at or past its level, the time stop if and only if neither and the bars held reach the limit; settings of 0 are none |
| ExitLaws.AdvanceByLaw | backend/exits.py:341-372 | a bar counts one, the peak is the better of the old one and an activated price, the level stands the percentage or the ATR multiple behind the peak |
| ExitLaws.BarLawDecides | backend/exits.py:341-372 | and that law leaves one outcome only |
| ExitLaws.FirstExitIff | backend/exits.py:313-397 | over any bars the first exit is on bar k for a reason if and only if the laws give that exit there and none before |
| ExitLaws.ResolveInForce | backend/exits.py:320-339 | the settings in force are the direction's where they are set, else the common ones |
| ManagerRows.SavedInOrder | backend/bot_manager.py:1222-1235 | the readable rows written are the manager's bots in its order |
| ManagerRows.KeptRowsAreSavedOnce | backend/bot_manager.py:1222-1235 | for any table of bots, whatever was added, deleted or reordered: every kept row is written exactly once |
| ManagerRows.OneMoreKept | backend/bot_manager.py:1222-1235 | one more kept row is one more row written, whether its anchor is the top, a bot or a bot that is gone |
| ManagerRows.KeptRowsFollowTheirBot | backend/bot_manager.py:1222-1235 | while the anchor bot exists its kept rows come directly after its row, in their order |
| BotManager.Manager.constructor | backend/bot_manager.py:458-476 | a new manager with an empty table and no fund, over the file there is |
| BotManager.Manager.GroupByAnchor | backend/bot_manager.py:1222-1235 | the kept rows by anchor, in order |
| BotManager.Manager.Rows | backend/bot_manager.py:1222-1235 | the rows of the file |
| BotManager.Manager.SaveFile | backend/bot_manager.py:1190-1201 | the whole file is replaced, or stays when the write fails |
| BotManager.Manager.FindClash | backend/bot_manager.py:549-577 | true exactly when a leg conflicts with another leg or with a bot |
| BotManager.Manager.SumCapital | backend/bot_manager.py:495-507 | the capital already allocated |
| BotManager.Manager.SetTheFund | backend/bot_manager.py:478-485 | the fund is set and saved exactly when it covers what is allocated |
| BotManager.Manager.EditOne | backend/bot_manager.py:912-934 | a bot that is not running gets its new capital, in memory and on disk, whatever the fund |
| BotManager.Manager.AddAll | backend/bot_manager.py:549-593 | a batch is refused for the first reason that holds, or all of it is in memory and on disk, or (a failed save) none of it is |
| BotManager.Manager.RollBack | backend/bot_manager.py:1203-1220 | after a failed save the table is the one before the batch |
| BotManager.Manager.DeleteOne | backend/bot_manager.py:1179-1188 | a bot that is not running goes from memory and file |
| BotManager.Manager.ReorderAll | backend/bot_manager.py:1161-1177 | the listed bots first, each once, then the rest |
| BotManager.ReorderedAll | backend/bot_manager.py:1161-1177 | reordering loses and doubles no bot |
| BotManager.RemoveValid | backend/bot_manager.py:1179-1188 | deleting keeps the table and its order in step |
| BotManager.Manager.Guard | backend/bot_manager.py:603-623 | free exactly when no other live runner on the symbol conflicts |
| BotManager.Manager.StartOne | backend/bot_manager.py:595-648 | a bot gets a runner exactly when it has none, the symbol is free and its graph is not refused; refused for its code in a position it starts in the exits-only state |
| BotManager.Manager.Refuse | backend/bot_manager.py:723-740 | a refused start leaves the bot in error with a pause reason, in memory and on disk |
| BotManager.Manager.RequestOne | backend/routes/bots.py:702-725 | a start route: a graph that does not compile is refused before the other runners are looked at |
| BotManager.Manager.StopOne | backend/bot_manager.py:742-773 | what a Stop records; the exits-only state ends only with the position closed |
| BotManager.Manager.ShutDown | backend/bot_manager.py:1554-1567 | every runner ends and the statuses they had are written back and saved |
| BotManager.Manager.EndAll | backend/bot_manager.py:1560-1564 | each runner's end sets its bot to stopped |
| BotManager.Manager.WriteBack | backend/bot_manager.py:1565-1566 | the recorded statuses are put back |
| BotManager.Manager.LoadFile | backend/bot_manager.py:1237-1294 | one row after the other: bots, and kept rows with their anchors |
| BotManager.Manager.ResumeAll | backend/bot_manager.py:1512-1552 | auto-resume over all bots, saved when it did anything |
| BotManager.Manager.ResumeBot | backend/bot_manager.py:1512-1552 | one bot: not tagged, not resumable, started, or not started and untagged, in error when its graph is refused |
| ManagerLives.LoadThenSaveFileIff | backend/bot_manager.py:1237-1326 | the file load() leaves has every row in its place, each bot with exactly the status, flags and error that load() gives it and nothing else changed, if and only if bot ids are distinct |
| ManagerLives.SaveThenLoad | backend/bot_manager.py:1190-1289 | a saved file loads as the same bots in the same order |
| ManagerLives.ShutdownThenBoot | backend/bot_manager.py:1512-1567 | after an orderly shutdown the next boot passes a bot to `start_bot` if and only if it was running with no pause and no error but the recovery note, and its code is not refused while it holds nothing |
| ManagerLives.StoppedIsNeverResumed | backend/bot_manager.py:742-773 | once a Stop is saved no later boot resumes the bot, over saves, shutdowns, crashes, adds and deletes, until the user starts it |
| ManagerLives.ResumesExactly | backend/bot_manager.py:1512-1552 | auto-resume tries exactly the resumable bots; a status changes only to error, for a bot that was tried and whose graph is refused |
| ManagerLives.OneRunnerPerSymbolAndSide | backend/bot_manager.py:603-623 | over every history no two live runners conflict on a symbol |
| ManagerFunds.RefusedBecause | backend/bot_manager.py:549-593 | a batch is refused as empty, for a conflict, without a fund or for the fund exactly when that is the first of these that holds; for the fund if and only if the capital of all bots, the batch with them, would exceed it |
| ManagerFunds.AddsIff | backend/bot_manager.py:549-593 | add_bots puts the whole batch in memory and on disk, all bots within the fund, if and only if there is a leg and none conflicts, a fund covers all bots and the save is written; else nothing changes |
| ManagerFunds.CapitalStaysWithinIff | backend/bot_manager.py:478-507 | over every history that begins within the fund, memory and disk, the capital of all bots stays within it at every moment if and only if every edit of a bot's capital fits when it is made |
| ManagerFunds.EditWithinIff | backend/bot_manager.py:912-934 | one such edit keeps it if and only if it fits |
| ManagerFunds.EditExceedsTheFund | backend/bot_manager.py:912-934 | one bot of 80 in a fund of 100 is edited to 200 |
| ManagerStarts.RequestStartsIff | backend/routes/bots.py:702-725 | a start route gives a runner if and only if the bot is known and idle, its graph does not keep it back and every other live runner is apart from it; what a refused graph leaves in memory and on disk; else nothing changes |
| ManagerStarts.BegunIsTried | backend/bot_manager.py:1512-1567 | a bot saved while it ran is passed to start_bot by the next boot, unless its code is refused while it is flat |
| ManagerStarts.ResumeStarts | backend/bot_manager.py:1512-1552 | auto-resume starts exactly the tagged bots that are resumable and whose graph does not keep them back, when those are apart from each other |
| ManagerStarts.EveryRunningIsLive | backend/bot_manager.py:595-648 | over every history whose shutdowns are followed by a boot every bot in status running has a live runner |
| ManagerStarts.BootStarts | backend/bot_manager.py:1512-1567 | from such a state the boot after an orderly shutdown starts exactly the bots that ran and come |
| ManagerStarts.RunnersComeBack | backend/bot_manager.py:1512-1567 | so over every history that begins with no runner |
| SaveLock.MemoryIsRightIff | backend/bot_manager.py:1161-1177 | over every interleaving memory holds at every moment the bots that were inserted and not popped or deleted, if and only if every reorder assigns a copy that is still current |
| SaveLock.EveryFileIsWhole | backend/bot_manager.py:1190-1220 | with such reorders every file holds every saved batch but what was deleted, nothing of one under way and nothing of one whose save failed; the same of memory, where nothing deleted comes back |
| SaveLock.EveryRowIsAPair | backend/bot_manager.py:955-982 | whatever a reorder does, a file has a row for each bot that was in memory at its snapshot and no other, every row is a (graph, graph_rev) pair that was in force, and no file replaces a later snapshot |
| SaveLock.ReorderLosesASavedBatch | backend/bot_manager.py:1161-1177 | a run in which a saved batch is gone from memory and disk |
| SaveLock.ReorderSavesAFailedBatch | backend/bot_manager.py:1203-1220 | a run in which a batch whose save failed is in memory and on disk |
| SaveLock.SavedBatchStays | backend/bot_manager.py:549-593 | with such reorders a batch that was saved stays in memory and in every later file but for what is deleted |
| SaveLock.EveryInterleavingKeeps | backend/bot_manager.py:955-982 | what lock, half-written dumps, rollbacks, copies and half-done updates keep whatever happens |
| SaveLock.WrittenIsCurrent | backend/bot_manager.py:1190-1220 | over every interleaving a file, at the moment it is written, holds for each bot of its snapshot the pair then in memory |
| SaveLock.SaveRuns | backend/bot_manager.py:1190-1220 | a save that finds the lock free, is let run and is written leaves exactly the bots in memory on disk, with their pairs |
| SaveLock.AddRuns | backend/bot_manager.py:549-593 | an add of new bots likewise: the batch is in memory and on disk with its pairs, and counts as saved |
| SaveLock.UpdateRuns | backend/bot_manager.py:955-982 | an update puts its pair in force |
| SaveLock.DeleteRuns | backend/bot_manager.py:1179-1188 | a deleted bot is out of memory and counts as deleted |
| Gateway.AlertState.constructor | backend/gateway.py:266-293 | the state at the start |
| Gateway.AlertState.TrySelfHeal | backend/gateway.py:362-377 | a restart when one is due, and whether the alert stays suppressed |
| Gateway.AlertState.OnLoggedIn | backend/gateway.py:392-407 | the end of an episode, the all-clear and the registration |
| Gateway.AlertState.CheckAndAlert | backend/gateway.py:380-439 | one poll, for every state |
| Gateway.RestartsAndAlertsAreSpaced | backend/gateway.py:351-439 | over every sequence of polls: restarts 1800 s apart even across episodes; the k-th of an episode (k >= 5) at least 9000 + 7200 (k - 5) s after its first; no heal alert before four restarts of its episode; six hours between heal alerts of an episode |
| Gateway.RestartsNeverStop | backend/gateway.py:351-377 | over every sequence of polls in which an episode's stuck states are polled at most d apart, whatever else but logged_in is polled among them: its first restart comes within 7200 + d of its first poll, each later one within 7200 + d of the one before, and the last stuck poll is less than 7200 s after the latest |
| Gateway.StuckKeepsUp | backend/gateway.py:362-377 | one such poll: the restart due comes, at most 7200 + d after the one before |
| Gateway.StuckGap | backend/gateway.py:362-377 | and no gap of the episode grows beyond that |
| Gateway.EpisodeOpens | backend/gateway.py:367-369 | the first stuck poll begins an episode that keeps up |
| GatewayAlerts.PollLaw | backend/gateway.py:362-439 | one poll of each kind, for every state: when it restarts, when it tells somebody, when it gives the all-clear and registers, and what it leaves alone |
| GatewayAlerts.HealAlertIff | backend/gateway.py:409-437 | after any polls, a stuck poll tells somebody if and only if it restarts nothing, the last restart is the fourth or a later one of this episode and half an hour old, and the last alert, if of this episode, is six hours old |
| GatewayAlerts.HealAlertsKeepComing | backend/gateway.py:362-437 | with stuck polls at most d <= 5400 s apart the first such alert of an episode comes within 12600 + 6 d s, each later one within 23400 + 2 d s of the one before, and no poll finds a longer silence |
| GatewayAlerts.HealAlertsComeIff | backend/gateway.py:362-437 | somebody is told in time in every episode polled at most d apart if and only if d is at most 5400 |
| Loader.OneFetcherOneWrite | backend/turnaround_validation.py:935-1023 | for every interleaving: one call at most in a ticker's disk and network section; its entry is written at most once; a call that returns gives the entry; a raised rate limit leaves it unset |
| Loader.NoFetchAfterwards | backend/turnaround_validation.py:939-950 | once an entry is there it never changes and its ticker is never fetched again |
| Loader.RateLimitIsRaisedIff | backend/turnaround_validation.py:985-1022 | a rate limit is raised, and the entry left unset, if and only if the prefetch runs and it is the call's first fetch |
| Loader.EntryWasTold | backend/turnaround_validation.py:952-1022 | over every interleaving an entry is what disk or network said in one step of a call for its ticker that held its lock |
| Loader.CallRuns | backend/turnaround_validation.py:935-1023 | a call let run alone ends as it is told: the frame on disk, a ticker marked as having none, the first or the second fetch, or a raised rate limit |
| AsOf.HorizonIsLater | backend/turnaround_validation.py:1294-1300 | with a month or more the horizon is a date after the entry |
| AsOf.WindowsAreDisjoint | backend/turnaround_validation.py:1966-2087 | over every run every event is made from a candidate's bars: its entry is the first bar from the as-of date on, its exit the first later bar that touches the threshold within the horizon, else the horizon at the close of the last bar up to it; exits lie in their windows, and within each cohort the windows of one ticker are disjoint |
| AsOf.ExitIs | backend/turnaround_validation.py:2039-2087 | that law of exits, for any bars; there is no exit only when every bar is past the horizon |
| AsOf.OrderedExit | backend/turnaround_validation.py:2039-2087 | over bars in date order: if a bar after the entry and up to the horizon closes at or past entry times one plus or minus the threshold, the first such bar is the exit |
| AsOf.ConsiderIs | backend/turnaround_validation.py:1989-2087 | a candidate is suppressed, has no bar, is truncated or becomes an event, each exactly when its bars and its ticker's open window say so |
| AsOf.ConsiderKeeps | backend/turnaround_validation.py:1989-2087 | one candidate keeps that |
| AsOf.FirstEntry | backend/turnaround_validation.py:1236-1272 | the first bar on or after the date |
| AsOf.NewestDate | backend/turnaround_validation.py:2021-2026 | the newest date of the frame |
| AsOf.CloseUpTo | backend/turnaround_validation.py:1275-1291 | the last row on or before the date |
| AsOf.FindExit | backend/turnaround_validation.py:2039-2087 | the first take-profit touch within the horizon, else the horizon-end close |
| AsOf.ConsiderOne | backend/turnaround_validation.py:1989-2171 | one candidate against the open horizons and the date's buffers |
| AsOf.ConsiderCohort | backend/turnaround_validation.py:1966-1983 | a cohort, cut short when the time runs out |
| AsOf.RunDays | backend/turnaround_validation.py:1887-2206 | a run that times out commits the events, overlap count, truncation count and dates of a run over the dates before the interrupted one, and it is the first date the budget does not cover |
| Edgar.EveryLoadAgrees | backend/edgar.py:699-758 | with strictly increasing file times a load, after any loads, refreshes, deletions and spoilt files, gives the parse of the raw file now on disk, except exactly when a fresh derived file holds other JSON, which takes someone else writing it; the cache holds at most 1024 entries |
| Edgar.LoadAgrees | backend/edgar.py:133-179 | one load, and exactly when it fails on bytes that are not UTF-8: a fresh derived file's, or a young raw file's when the derived one is stale, missing or not JSON |
| Edgar.PutKeeps | backend/edgar.py:683-687 | inserting with eviction keeps cache, keys and bound |
| Edgar.RefreshIsNoticedIff | backend/edgar.py:726-746 | a raw file written anew is served by the next load if and only if its time is later than the derived file's, or nothing changed |
| Edgar.LoadIs | backend/edgar.py:699-758 | one load: what it gives and what it leaves of files and cache, for each of fresh, remembered, stale, missing and spoilt derived files |
| Edgar.RebuildIs | backend/edgar.py:749-758 | a rebuild: from a young raw file that reads, else from the network, which writes it; without either nothing but an unreadable file is lost |
| Edgar.PutDropsOldest | backend/edgar.py:683-687 | with no room the oldest entry goes, and no other |
| Edgar.DerivedCache.PutEntry | backend/edgar.py:683-687 | the eviction loop drops the oldest entries until there is room |
| Edgar.DerivedCache.FetchFacts | backend/edgar.py:160-179 | the raw file, young and readable, an error when its bytes are not UTF-8, else a fetch that writes it |
| Edgar.DerivedCache.RebuildEntry | backend/edgar.py:749-758 | the rebuild and what it leaves behind |
| Edgar.DerivedCache.LoadEntry | backend/edgar.py:699-758 | the whole load on files and cache |
| Journal.RealizedPnl | backend/journal.py:51-103 | the pairing loop |
| Journal.BidirectionalPnl | backend/journal.py:162-170 | the sum over both directions |
| Journal.CountsIffBelongs | backend/journal.py:51-103 | which rows the loop counts |
| Journal.OpenIs | backend/journal.py:51-103 | the entry left open is the last row that counts, when that is an entry |
| Journal.OneRowMore | backend/journal.py:51-103 | one row more adds nothing, unless it closes the entry that the last counting row opened: then price difference times the smaller of the two quantities, with its sign for the direction |
| Journal.OtherRowsDoNotMatter | backend/journal.py:51-103 | rows of other bots, symbols, directions or times change nothing wherever they stand |
| Journal.AdditiveWhenFlat | backend/journal.py:51-103 | the result is additive at every flat point |
| Journal.CashDifference | backend/journal.py:51-103 | on alternating rows of equal quantity it is the exits' cash less the entries', negated for a short |
| Journal.BothSidesInOnePass | backend/journal.py:162-170 | the bidirectional sum equals one pass that pairs each direction separately |
| Journal.LastInFirstOutIff | backend/journal.py:51-103 | the result is what the loop's pairs of rows earn; they are the last-in first-out pairs if and only if no exit comes directly after another while from some row on entries outnumber exits |
| Todo.KeyLeTotal | bin/sync-todo-index.py:204-213 | `sort_key` orders any two items, and equal keys are equal |
| Todo.KeyLeTransitive | bin/sync-todo-index.py:204-213 | and transitively |
| TodoLines.KeyLeIff | bin/sync-todo-index.py:204-213 | letters in alphabetical order first, then the number, then the suffix |
| Todo.SortSorts | bin/sync-todo-index.py:986-990 | sorting gives the same bullets in order |
| Todo.SortOfBucket | bin/sync-todo-index.py:986-1029 | sorting is stable: choosing a bucket and sorting commute |
| TodoLines.SortIsStable | bin/sync-todo-index.py:986-990 | and bullets with one key keep their order |
| Todo.PassKeepsSections | bin/sync-todo-index.py:992-1061 | the written file read again has the same sections, each with the bullets chosen for it in order |
| TodoTheorems.NoBulletLostOrDoubledIff | bin/sync-todo-index.py:943-984 | the lettered sections hold the same bullet groups, each as often as before, if and only if each goes to a letter that one section has |
| TodoTheorems.NoBulletLostOrDoubled | bin/sync-todo-index.py:837-1045 | so with distinct letters no bullet group is lost or doubled |
| TodoTheorems.EachInItsSectionInOrder | bin/sync-todo-index.py:967-1039 | after the pass every bullet stands in its ID letter's section, or where it stood when no section has that letter; each section is sorted by `sort_key`, F by bucket first |
| TodoTheorems.RestStays | bin/sync-todo-index.py:992-1061 | headers stay; the Deferred and other sections and the preamble lose only repeated blank lines; the other lines of a lettered section stay up to blank lines, comment markers and generated headings, those of the last section when a letter comes twice |
| TodoLines.LinesAreTold | bin/sync-todo-index.py:900-932 | exactly the bullets and the indented lines below one, with nothing else between, go into the groups; exactly the other lines without comment markers stay; both in their order |
| TodoLines.NoLineLostOrDoubled | bin/sync-todo-index.py:837-1045 | with distinct letters the file holds every single line as often after the pass as before, but for blank lines, comment markers and generated headings |
| TodoLines.EachUnderItsHeading | bin/sync-todo-index.py:1006-1039 | in the written F section every bullet stands under the sub-header of its bucket; the sub-headers come in their order, none twice and none without a bullet right below it |
| TodoLines.NoCommentStays | bin/sync-todo-index.py:920-932 | a lettered section holds no comment marker after the pass |
| TodoLines.CollapseDrops | bin/sync-todo-index.py:1048-1061 | of every run of blank lines exactly the first stays |
| TodoTheorems.SecondPassMovesNoBullet | bin/sync-todo-index.py:837-1045 | with distinct letters a second pass leaves every section the same bullets in the same order |
| TodoTheorems.SecondPassAddsABlank | bin/sync-todo-index.py:1006-1045 | a file of two lines that a second pass changes: it adds an empty line |
| TodoTheorems.OrderedTwice | bin/sync-todo-index.py:1006-1039 | sorting by bucket is idempotent |
| TodoTheorems.UntouchedIff | bin/sync-todo-index.py:1048-1061 | an unlettered section is left as it is if and only if it has no two blank lines in a row |
| TodoTwice.SecondPassIsIdentityIff | bin/sync-todo-index.py:943-1045 | with distinct letters a second pass changes nothing if and only if section F gets no bullet or its other lines end in a blank one |
| TodoTwice.SectionTwiceIff | bin/sync-todo-index.py:992-1045 | any other section, once written, is written the same again |
| TodoPass.CutSections | bin/sync-todo-index.py:857-898 | the preamble and the sections |
| TodoPass.TakeContinuations | bin/sync-todo-index.py:909-919 | the continuation lines of a bullet |
| TodoPass.ExtractBulletGroups | bin/sync-todo-index.py:900-932 | the bullet groups and the other lines of a section |
| TodoPass.Collect | bin/sync-todo-index.py:939-960 | all bullets with the section they stand in, and each letter's text |
| TodoPass.Assign | bin/sync-todo-index.py:962-984 | each bullet under its letter |
| TodoPass.SortEach | bin/sync-todo-index.py:986-990 | each letter's bullets sorted |
| TodoPass.ByBucket | bin/sync-todo-index.py:1006-1019 | the bullets of F by bucket |
| TodoPass.WriteBuckets | bin/sync-todo-index.py:1006-1039 | the F section as it is written |
| TodoPass.CollapseBlankLines | bin/sync-todo-index.py:1048-1061 | runs of blank lines collapsed to one |
| TodoPass.Run | bin/sync-todo-index.py:837-1045 | the whole pass computes Todo.RehomeAndSort |

## Left out

- Wired Stop and Size terminals (`entry_stop_pct`, the pending stop): the settings of a tick are an input, whatever set them.
- Sizing, slippage, borrow cost, P&L values, equity snapshots and the drawdown arithmetic: whether the drawdown limit is hit is an input of the tick.
- Regime evaluation, graph compile and cook, indicators and reference alignment: their results are inputs of the tick.
- Alerts, notifications, activity log, journal write failures and the log line of a partial reduction: plumbing beside the state.
- Cancelling open orders before a close and looking up a fill price: their failures change no modelled state; the fill price is an input.
- The limit of five closed orders in `_closing_fill`: the list of orders is an input of any length.
- The pause by IBKR's error callback and the runner's own backoff and error counting: a tick only says whether it raised.
- A Stop or a graph update in the middle of a tick: a run is made of whole ticks with requests between them.
- The late `finally` of a runner that was stopped: it is taken to be over before the bot starts again.
- A graph update that changes `is_regime`, the flip mode or the exit settings of its bot: the settings of a runner are fixed, those of the exits are an input of each tick.
- SaveLock.MemoryIsRightIff: the update of the dictionary with a batch is one step; a reorder whose second loop fails because the dictionary changed size under it assigns nothing; the order of the bots is not part of this module.
- TodoTwice.SecondPassIsIdentityIff: for distinct letters, because bullets that go to a letter two sections have are doubled by every pass.
- The graph check of a batch before it is added, the references that a start route fetches (when one is down the start changes nothing) and the check that it keeps for start_bot.
- `BOTS_AUTORESUME=0`, which turns auto-resume off.
- `manual_buy`, `reset_pnl`, backtests, the single `add_bot` and the copies of old files kept beside bots.json: they add branches and no harder property.
- What `update_bot` changes besides a bot's capital. Capital is positive in a batch and in an edit, as the routes require.
- bots.json as text: a row is readable with its bot, or unreadable with its text.
- The gateway's log parsing, sockets and the restart command itself: a poll's state is an input, a restart an event.
- The prefetch's pacing, backoff and circuit breaker, and the price frames on disk: what the disk and the network answer are inputs of the loader.
- Returns, costs, forward returns, cohort null aggregates, progress and cancellation of the validation run; the set of seen tickers, which does keep those of a date that is dropped.
- The EDGAR series builders: the parse of a raw file is an abstract function of it, which does not fail on JSON of another shape; how old a raw file may be is an input.
- Reading TODO.md line by line and the ID, key and bucket of a bullet: a line comes with what the patterns find in it; a last line without a line break is not modelled.
- BotState is a record held in one field of the runner: sharing of that object with the manager is not modelled.
