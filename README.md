# gaze: event normaliser and dispatcher, modelled in Dafny

This project models the core of gaze, a tool that watches file patterns and runs a
command when a watched file is updated. The core has two parts.

- **Notify** (`pkg/notify/notify.go`) turns raw fsnotify notifications into update events. It does four things:
  - It works out which directories to watch. For each pattern it takes the literal prefix of the pattern's parent directory, the directories found for the pattern, and the directories found for that parent. The list is duplicate-free and in first-seen order. Collection stops after the first batch that leaves more than `maxWatchDirs` entries; nothing is truncated, and `New` then fails.
  - It adds each newly created directory to the watch set.
  - It classifies each notification. A write or create is accepted only when the file's modification time is at least `pendingPeriod` ms after the time stored for the path's last accepted update, so a rejected write does not restart the window. A rename counts only within `regardRenameAsModPeriod` ms of the file's last modification.
  - It keeps a per-path table of when updates were accepted.
- **Gazer** (`pkg/gazer/gazer.go`) consumes those events. Per event, in order:
  - It drops events that match none of the cleaned patterns, and events whose modification time is less than 10 ms after the last dispatch.
  - It counts every event that gets through.
  - It picks the first configured rule that applies.
  - It kills the tracked restartable process, then starts the new command.

The external collaborators become values passed in by the caller. Module `Probes` holds them:
- filesystem probes: `fs.IsDir`, `fs.IsFile`, `fs.Find`, the file modification time;
- `filepath.Clean` and `filepath.Dir`.

Module `Gazer` defines the dispatcher's own collaborators: glob matching, rule matching and command rendering.

Clock readings are method parameters. A stretch of the event stream is a `seq<Incoming>`: update events with the probe readings taken for them, and interrupts. The process actions the dispatcher takes form a returned `seq<Action>` (`Kill` and `Start`). A process's `serial` stands for the identity of the fresh `*exec.Cmd` pointer.

Modules:
- `Wrappers` (`wrappers.dfy`): `Option`, `Result`.
- `Probes` (`probes.dfy`): the oracle records.
- `Paths` (`paths.dfy`): Go's `strings.Split`, `strings.Join` and `strings.TrimSuffix` for a one-character separator, and the glob metacharacter test.
- `Notify` (`notify.dfy`).
- `Gazer` (`gazer.dfy`).

Points where the code's behaviour is easy to misread:
- The dispatcher's `lastExecutionTime` is one value shared by all paths, not a per-path map.
- The counter is incremented before the command is looked up, so it counts every event that passes the filters, not only dispatched commands.
- `gazer.go:36` calls `notify.New` with one argument while `notify.go:53` takes two. The model's `Gazer` constructor passes the cap explicitly.
- `notify.Event` has no `Op` field, and `event.Op|flag == 0` at `gazer.go:77` can never hold. The dispatcher therefore applies no operation filter.

## Model

| member | source | states |
|---|---|---|
| `Paths.SplitJoin` | pkg/notify/notify.go:125 | splitting a cleaned path on `/` gives at least one segment, no segment contains `/`, and joining the segments gives the path back |
| `Notify.ShouldExecute` | pkg/notify/notify.go:180-217 | accepts only an op that is exactly Write or Rename, or exactly Create while create detection is on. Accepts only regular files. A write or create is accepted iff `modifiedTime - stored >= pendingPeriod * 10^6`. A rename is accepted iff `now - modifiedTime <= regardRenameAsModPeriod * 10^6`, whatever the stored time |
| `Notify.LiteralRunIsLongest` | pkg/notify/notify.go:128-133 | the loop's stopping point is the longest run of leading segments with none of `* ? [ { \`: every segment before it is literal, and the one at it (if any) has a metacharacter |
| `Notify.CandidateIsLiteralPrefix` | pkg/notify/notify.go:124-136 | the segments-plus-separator path with one trailing separator trimmed is the `/`-join of the literal leading segments, and so a prefix of the cleaned path |
| `Notify.FindRealDirectory` | pkg/notify/notify.go:124-143 | the loop builds exactly that candidate and returns it if it is an existing directory, else `""`. A non-empty result is an existing directory and a prefix of the cleaned path |
| `Notify.FindDirsResult` | pkg/notify/notify.go:91-122 | the watch list has no duplicates. It is a prefix of the full first-seen-ordered candidate list. It differs from that list only when it has more than `maxWatchDirs` entries, so it is over the cap exactly when the full list is |
| `Notify.AccumulateSpec` | pkg/notify/notify.go:94-120 | adding batch after batch and stopping after the first batch that exceeds the cap keeps the list duplicate-free. The result is a prefix of adding all batches, and equal to it unless over the cap |
| `Notify.FindDirsComplete` | pkg/notify/notify.go:97-119 | when not over the cap, the list holds every non-empty literal directory and every directory found for every pattern and its parent. It never holds anything else |
| `Notify.AddAll` | pkg/notify/notify.go:105-116 | adding a batch one directory at a time gives the list with each new directory appended in order and repeats skipped |
| `Notify.FindDirs` | pkg/notify/notify.go:91-122 | the three per-pattern batches with an early return after each one computes exactly `FindDirsResult` |
| `Notify.LatestTimesIsLastEvent` | pkg/notify/notify.go:160-170 | the time table holds a path iff an event was emitted for it, and its entry is the time of the last such event |
| `Notify.LatestTimesDomain` | pkg/notify/notify.go:160-165 | the table holds a path iff some emitted event names it |
| `Notify.LatestTimesValue` | pkg/notify/notify.go:164-169 | a path's entry is the time of the last event emitted for it |
| `Notify.Notifier.constructor` | pkg/notify/notify.go:76-84 | a fresh notifier is open, has an empty table and no events, pending period 100 ms, rename period 1000 ms, and create detection on |
| `Notify.Notifier.New` | pkg/notify/notify.go:53-89 | fails with `WatcherFailed` when the watcher cannot be made. Otherwise fails with `TooManyWatchDirs` exactly when findDirs yields more than `maxWatchDirs` entries. On success it watches exactly the directories findDirs yields and has the default settings |
| `Notify.Notifier.Close` | pkg/notify/notify.go:44-50 | afterwards the notifier is closed. The watcher's Close is called only when it was open, so at most once over the notifier's life |
| `Notify.Notifier.PendingPeriod` | pkg/notify/notify.go:220-222 | replaces the write-coalescing window and nothing else |
| `Notify.Notifier.Receive` | pkg/notify/notify.go:150-170 | a Create of a directory adds the cleaned path to the watch set, which never shrinks. An accepted event stores `now` for that path only and emits `{path, now}`. A rejected event changes neither table nor output. Only regular files yield events |
| `Gazer.Increment` | pkg/gazer/gazer.go:88 | the uint64 counter rises by one and wraps to 0 after 2^64 - 1 |
| `Gazer.MatchAny` | pkg/gazer/gazer.go:129-138 | true iff some pattern glob-matches the name |
| `Gazer.SelectCommandNone` | pkg/gazer/gazer.go:140-153 | when no rule has a non-empty run string, a non-empty ext or re, and a match, the selected command is `""` |
| `Gazer.SelectCommandFirst` | pkg/gazer/gazer.go:140-153 | when rule `k` is the first rule that applies, the selected command is its rendered run string |
| `Gazer.GetAppropriateCommand` | pkg/gazer/gazer.go:140-153 | the skip-and-break loop computes exactly the first-applicable-rule selection |
| `Gazer.StepSpec` | pkg/gazer/gazer.go:80-119 | per event: an event failing the pattern or 10 ms filter changes nothing. Every event that passes raises the counter by one, command or not. A command starts iff one is found. Only then is the tracked process killed and the shared dispatch time set to `now`. The new command is tracked in restart mode and nothing is tracked otherwise |
| `Gazer.DispatchUpdate` | pkg/gazer/gazer.go:74-119 | the loop body for one event computes exactly the step's new counter, dispatch time, tracked process and actions |
| `Gazer.RunStopsAtInterrupt` | pkg/gazer/gazer.go:121-123 | nothing arriving after an interrupt is dispatched, and the counter is not touched |
| `Gazer.RunCounterBounded` | pkg/gazer/gazer.go:88 | while it does not wrap, the counter never decreases and rises by at most one per event |
| `Gazer.KillThenStart` | pkg/gazer/gazer.go:97-111 | killing the tracked process and then starting one leaves alive only the process the start adds, and never two at once |
| `Gazer.StartAlone` | pkg/gazer/gazer.go:102-111 | a start with nothing tracked leaves alive only the process it adds |
| `Gazer.StepKeepsOneLive` | pkg/gazer/gazer.go:97-111 | within one step the tracked process is killed before the new one starts, so at most one restartable process is alive between any two actions |
| `Gazer.RunKeepsOneLive` | pkg/gazer/gazer.go:97-119 | over any run, the live restartable processes are exactly the tracked one, and at no point are two of them alive |
| `Gazer.RunBlockingNeverKills` | pkg/gazer/gazer.go:104-108 | without restart mode nothing is ever tracked or killed |
| `Gazer.RunAdvance` | pkg/gazer/gazer.go:69-125 | one turn of the loop: an interrupt ends the run with the actions taken so far; an update hands one step's actions to them and leaves the run over the remaining input |
| `Gazer.Gazer.constructor` | pkg/gazer/gazer.go:30-42 | one cleaned pattern per input pattern, in the same order. The counter starts at 0. The notifier is nil exactly when notify.New fails |
| `Gazer.Gazer.Close` | pkg/gazer/gazer.go:45-51 | afterwards the gazer is closed. The notifier's Close is called only the first time, so at most once. Only the close flags change: the notifier's table, events, watch set and settings stay as they were, and later calls leave the notifier unchanged |
| `Gazer.Gazer.Counter` | pkg/gazer/gazer.go:156-158 | returns the counter and changes nothing |
| `Gazer.Gazer.RepeatRunAndWait` | pkg/gazer/gazer.go:59-127 | from a fresh loop (dispatch time 0, nothing tracked), the counter and the actions taken are those of running the step over the input up to the first interrupt |

## Left out

- The fsnotify watcher is not modelled. Its `Events`/`Errors` channels, the `select` in `wait`, the `!ok` branches and `Requeue` are left out: they are channel plumbing. The `Errors` channel is never created in `New` anyway. One iteration of `wait` is the method `Receive`, and `emitted` stands for the events sent on `Events`.
- `Notify.Notifier.New`: a failing `watcher.Add` is not modelled. `watched` is the set of directories handed to the watcher. The goroutine start (`go notify.wait()`) is not modelled.
- `Notify.Notifier.New`: `maxWatchDirs` is a natural number. With a negative cap, `watchDirs[:maxWatchDirs]` in the log line panics.
- Process control is external I/O and is not modelled. This covers `createCommand`, `executeCommandOrTimeout`, `kill`, timeouts and the interrupt source. `Start` and `Kill` actions record what would be run or killed.
- The goroutine that clears `ongoingCommand` when a restartable run ends (gazer.go:112-118) is left out: it races with the loop. The model treats a tracked process as alive until the loop kills it.
- `Gazer.Gazer.Close` requires a non-nil notifier. When `notify.New` fails the source keeps nil, and the first `Close` then dereferences it (gazer.go:49). No gazer with a nil notifier ever becomes closed.
- `Gazer.Gazer.RepeatRunAndWait` requires a non-nil notifier, because the loop reads `g.notify.Events` (gazer.go:74), which panics for the nil notifier a failed `notify.New` leaves behind. That panic is not modelled.
- Logging is left out everywhere.
- `filepath.Clean`, `filepath.Dir`, `fs.GlobMatch`, the rule matcher and `render` are taken as given functions.
- The source of `fs.TrimSuffix` and `uniq` is not shown. The model takes them to behave like `strings.TrimSuffix` and like an insertion-ordered, duplicate-free list.
- Paths use the Unix separator `/`, so `filepath.ToSlash` changes nothing. Windows separators are not modelled.
- Times are unbounded integers of nanoseconds. int64 overflow in `pendingPeriod*1000000` and in time differences is not modelled.
- Settings are given in milliseconds and compared against times in nanoseconds.
