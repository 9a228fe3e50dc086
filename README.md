# launch-pad process supervisor, modelled in Dafny

launch-pad is a desktop launcher for a Django/Celery/Vite development stack. This
project models its supervising core in `launchpad.py`:

- the `Proc` record and its `ProcessStatus`;
- `StackController`, which does these things:
  - spawns and terminates child processes;
  - watches them in a monitor pass and restarts crashed ones;
  - starts Redis (through Docker), the Django migrations, Daphne, Celery beat and worker, and the Vite frontend;
  - stops everything in a fixed order;
  - before binding a port, finds who holds it and, with the operator's consent, kills them;
- `ConfigManager._migrate`, which maps whatever a stored configuration held onto the current key set;
- the dialog's port and integer validators.

Modules:

- `Wrappers` holds `Option`.
- `Text` holds the Python string built-ins the core relies on: `int(str)`, `str(int)`, `isdigit`, `split()`, `splitlines()`, `strip()` and `str.split(sep, 1)` as `Find`.
- `Config` holds DEFAULTS, `_migrate`, `_normalized_rel`, `_parse_port` and `_parse_int`.
- `Probe` holds `_http_ok`.
- `Ports` holds `_find_pids_on_port`, `_prompt_kill_pids` and `check_port_conflict`.
- `Commands` holds the configuration record, the derived paths and URLs, the argument vector of every service, and the start and stop orders.
- `Supervisor` holds the `Proc` and `StackController` classes and the specification functions of the monitor pass.

The operating system enters as oracles:

- `Poll` maps a process handle to its exit code, or `None` while it runs.
- `LaunchResult` is what `Popen` did: launched, file not found, or some other exception.
- `exitAfter` gives the poll after SIGTERM that first sees the exit.
- `readyAt` is the first Redis probe that finds the port open.
- `PortProbe` bundles the two TCP probes, the listener source, the operator's answer and which kills succeed.

Where the code and its design notes disagree, the model follows the code:

- **Stop order.** The stop order is not the reverse of the start order. `migrate` is started after Redis and is also stopped after it (`Commands.MigrateNotReversed`). For every other pair of services, stopping does reverse starting (`Commands.StopReversesStart`).
- **Restart cap.** The cap of three automatic restarts is per `Proc` record, and every rebuild resets it. Each `start_*` call builds a fresh record with `restart_count` 0. A single monitor pass schedules at most one restart per record (`Supervisor.AtMostOneRestartPerRecord`), and `_restart_proc` brings its key back in a new record with count 0 (`Supervisor.StackController.RestartProc`). Because the timer's lambda reads `key` late (see Findings), the key restarted need not be the one that crashed. Either way no record's budget survives a restart, so the cap does not bound how often a crashing service comes back.
- **Daphne port conflict.** `start_daphne` runs the port-conflict check and then ignores its verdict. `Supervisor.StackController.StartDaphne` spawns whether or not the port stayed in use.

## Model

| member | source | states |
|---|---|---|
| Text.NatToString | launchpad.py:652 | `str(n)` of a natural number is a digit string without leading zeros whose decimal value is `n` |
| Text.IntToString | launchpad.py:652 | `str(i)` is non-empty, starts with a digit or "-" and has only digits after that |
| Text.IntToStringRoundTrip | launchpad.py:990-993 | `int(str(i)) == i` for every integer |
| Text.ParseDigits | launchpad.py:424-425 | a string `isdigit` accepts is parsed by `int` to its decimal value |
| Text.IsDigits | launchpad.py:424 | `isdigit` holds only of non-empty text with no white space in it |
| Text.ParseSigned | launchpad.py:992 | `int` of stripped text accepts exactly a digit run with at most one leading sign, and gives the signed decimal value |
| Text.ParseIntLiteral | launchpad.py:992 | `int(s)` succeeds exactly when the stripped text is a digit run, optionally after one "-" or "+"; its value is the digits' decimal value, negated after "-"; any other text raises |
| Text.Fields | launchpad.py:423 | `line.split()` yields only non-empty words without white space |
| Text.FieldsOfWord | launchpad.py:423 | a single word splits into itself |
| Text.FieldsAppend | launchpad.py:423 | splitting two texts joined by a space gives the words of the first, then those of the second |
| Text.FieldsOfJoin | launchpad.py:423 | splitting words joined with single spaces gives back exactly those words, in order |
| Text.SplitLines | launchpad.py:422 | `splitlines()` yields lines without line breaks, and none at all for empty text |
| Text.SplitLinesFirst | launchpad.py:422 | the first line of the text is the header that `[1:]` drops |
| Text.StripParts | launchpad.py:1014-1045 | `Strip`, i.e. `strip()`, keeps the contiguous stretch of the text between its leading and its trailing white space, and that stretch neither starts nor ends with white space |
| Text.TrimLeftDropsSpace | launchpad.py:1014-1045 | everything the left trim drops is white space |
| Text.TrimRightDropsSpace | launchpad.py:1014-1045 | everything the right trim drops is white space |
| Text.Find | launchpad.py:602-604 | the first occurrence of a separator, or none anywhere |
| Config.CoerceInt | launchpad.py:242-246 | `int(v)` keeps an integer, maps a bool to 0 or 1, truncates a float toward zero, reads a string as `int` reads a literal, and raises on null, list and object values |
| Config.DefaultsWellFormed | launchpad.py:38-78 | DEFAULTS has exactly the 21 listed keys, integer ports and concurrency, policy "manual" and no FRONTEND_URL |
| Config.CopyKnown | launchpad.py:223-228 | the copied table has exactly the keys of DEFAULTS, and each key holds the stored value when the file has one, else the default |
| Config.WithLegacyUrl | launchpad.py:230-240 | the legacy URL can change only FRONTEND_HOST and FRONTEND_PORT and adds no key; with no FRONTEND_URL, or when `urlparse` raised, nothing changes; FRONTEND_HOST becomes the URL's non-empty hostname and FRONTEND_PORT its non-zero port, each left as it was otherwise |
| Config.LegacyHost | launchpad.py:231-235 | the legacy URL overrides the host exactly when FRONTEND_URL is stored, parses, and has a non-empty hostname, which is then the new host |
| Config.LegacyPort | launchpad.py:231-237 | the legacy URL overrides the port exactly when FRONTEND_URL is stored, parses, and has a non-zero port, which is then the new port |
| Config.CoerceInts | launchpad.py:242-247 | after the integer pass, every integer key holds an integer and every other key is unchanged |
| Config.CoercedIntKey | launchpad.py:242-247 | an integer key ends with `int` of its stored value when `int` accepts it, so the text `str(i)` loads as `i`, and with the default's value when `int` raises |
| Config.FixPolicy | launchpad.py:250-251 | the policy ends as "manual" or "always", a valid policy is kept, and no other key changes |
| Config.Copied | launchpad.py:223-240 | after the copy and the legacy FRONTEND_URL step, the table has exactly the DEFAULTS keys, and every key other than FRONTEND_HOST and FRONTEND_PORT holds the stored value if present, else the default; FRONTEND_HOST is the legacy hostname when it overrides, else the stored or default host; FRONTEND_PORT is the legacy port when it overrides, else the stored or default port |
| Config.Coerced | launchpad.py:223-247 | after the integer pass too, the integer keys hold integers, FRONTEND_HOST is the legacy hostname when it overrides, else the stored or default host, and every other non-integer key keeps the stored value if present, else the default |
| Config.MigratedFrom | launchpad.py:221-252 | the migrated table has exactly the DEFAULTS keys, integer ports, a valid policy (the stored one when valid), FRONTEND_HOST from the legacy hostname when it overrides, else the stored or default host, and for every other non-integer key the stored value if present, else the default |
| Config.MigratedIntKey | launchpad.py:229-247 | after migration an integer key holds the legacy port when it is FRONTEND_PORT and the URL overrides it; otherwise it holds `int` of the stored (or default) value, or the default when `int` raises, and a stored integer is kept as it is |
| Config.CoerceIntsFixes | launchpad.py:242-247 | the integer pass leaves a table whose integer keys already hold integers unchanged |
| Config.MigratedFromIdempotent | launchpad.py:221-252 | migrating a migrated table changes nothing, whatever the legacy URL parses to |
| Config.DefaultsFixed | launchpad.py:221-252 | a well-formed defaults table migrates to itself |
| Config.Migrated | launchpad.py:221-252 | over the POSIX DEFAULTS, the result has exactly the listed keys, integers under the integer keys, and policy "manual" or "always", whatever was stored |
| Config.MigratedIdempotent | launchpad.py:221-252 | `_migrate` over the real DEFAULTS is idempotent and fixes DEFAULTS |
| Config.CopyKnownKeys | launchpad.py:223-228 | the copy loop over DEFAULTS' keys computes `CopyKnown` |
| Config.ApplyLegacyUrl | launchpad.py:230-240 | the FRONTEND_URL branch computes `WithLegacyUrl`, including the swallowed parse error and falsy host or port |
| Config.CoerceIntKeys | launchpad.py:242-247 | the loop over the four integer keys computes `CoerceInts`, falling back to the default where `int` raises |
| Config.Migrate | launchpad.py:221-252 | `_migrate` returns `MigratedFrom(DEFAULTS, data, legacy)` |
| Config.NormalizedRel | launchpad.py:172-176 | the result starts with "/"; it is the input when the input starts with "/", else "/" prefixed to it |
| Config.NormalizedRelIdempotent | launchpad.py:172-176 | normalising twice equals normalising once |
| Config.ParsePort | launchpad.py:989-998 | a port in 1..65535 is returned with no message; otherwise 0 is returned with exactly one message appended |
| Config.ParsePortRoundTrip | launchpad.py:989-998 | every valid port written with `str` is accepted unchanged |
| Config.ParseIntAtLeast | launchpad.py:1000-1009 | an integer at least the minimum is returned with no message; otherwise 0 with one message |
| Probe.SplitUrl | launchpad.py:600-604 | a URL splits only when it holds "//", and the path it yields is never empty |
| Probe.HttpOk | launchpad.py:600-608 | a URL without "//" is never reported reachable |
| Probe.SplitUrlHostIsPlain | launchpad.py:602-603 | the host a URL splits into contains no ":" and no "/", so it is one a URL can be built from |
| Probe.HostPortFirstAtSeven | launchpad.py:602-604 | in a built URL, host-and-port first occurs right after "http://" |
| Probe.ColonSplit | launchpad.py:603-605 | splitting host-and-port at its only ":" gives the host and `int` of the port text |
| Probe.PathOfBuiltUrl | launchpad.py:604 | the path after host-and-port is the built path, or "/" when it is empty |
| Probe.SplitUrlRoundTrip | launchpad.py:600-608 | the URL split recovers the host, the port and the path ("/" for none) of a URL built from them |
| Probe.HttpOkOnBuiltUrl | launchpad.py:600-608 | `_http_ok` on a built URL holds exactly when the server there answers with a status in 200..499 |
| Ports.Take | launchpad.py:414 | the command-line snippet is a prefix of at most 300 characters, and the whole text when it is shorter |
| Ports.PsutilEntry | launchpad.py:407-416 | a connection yields a listener iff it is LISTEN on the port with a pid; the listener has that pid, the process name ("unknown" with no command line when the lookup raised) and the first 300 characters of the command line |
| Ports.PsutilListeners | launchpad.py:405-417 | the psutil pass yields at most one listener per connection |
| Ports.PsutilListenersSound | launchpad.py:405-417 | every psutil listener comes from a LISTEN connection on the port with a known pid, with at most 300 characters of command line |
| Ports.PsutilListenersComplete | launchpad.py:405-417 | every LISTEN connection on the port with a known pid yields a listener with that pid |
| Ports.LsofEntry | launchpad.py:423-427 | an lsof line is a listener exactly when it has at least two fields and the second is all digits; the first field is the name |
| Ports.LsofOutput | launchpad.py:418-429 | the lsof listeners are exactly those of the lines after the header whose second field is a pid; none has a command line or a negative pid |
| Ports.Listeners | launchpad.py:401-430 | no listener when the lookup raised; every command line is at most 300 characters; psutil listeners listen on the port with their pid; lsof listeners carry no command line |
| Ports.LsofSkipsHeader | launchpad.py:420-422 | the header line of the lsof output is never parsed |
| Ports.LsofListeners | launchpad.py:422-427 | the lsof pass yields at most one listener per line, none with a command line |
| Ports.LsofListenersSound | launchpad.py:422-427 | every listener parsed from lsof comes from one of its lines |
| Ports.LsofListenersComplete | launchpad.py:422-427 | every lsof line with a numeric second field yields its listener |
| Ports.Dedup | launchpad.py:432-438 | de-duplication keeps every pid, keeps each pid once, and never grows the list |
| Ports.DedupKeepsFirst | launchpad.py:432-438 | the kept entries are exactly the first entry of each pid, in their original order |
| Ports.DedupOfDistinct | launchpad.py:432-438 | a list with distinct pids is left unchanged |
| Ports.CollectPsutil | launchpad.py:405-417 | the psutil loop collects `PsutilListeners` |
| Ports.CollectLsof | launchpad.py:418-429 | the lsof loop collects the listeners of every line after the header |
| Ports.DedupByPid | launchpad.py:432-439 | the `seen` loop computes `Dedup`: distinct pids and the same pid set |
| Ports.FindPidsOnPort | launchpad.py:401-439 | the result is the de-duplicated listener list of the chosen source, empty when the source raised |
| Ports.PromptKillPids | launchpad.py:441-488 | nothing is attempted for an empty list, headless, on a failed dialog or on "no"; after "yes" every pid is attempted in order; the result is true iff some kill went through |
| Ports.CheckPortConflict | launchpad.py:490-508 | the port counts as in use iff it was open and either no listener was identified or the re-probe still finds it open; kills are attempted only with consent |
| Commands.PathJoinParts | launchpad.py:139-170 | `PathJoin`, i.e. `os.path.join(a, b)`, is `b` when `b` is absolute; otherwise it is `a`, then at most one "/", then `b`, with a "/" before `b` whenever `a` is not empty |
| Commands.FrontendUrl | launchpad.py:164-166 | FRONTEND_URL splits into the frontend host, the frontend port and the path "/" |
| Commands.OpenapiUrl | launchpad.py:160-162 | OPENAPI_URL splits into the Daphne host, the Daphne port and the normalised schema path |
| Commands.FrontendUrlProbesRoot | launchpad.py:164-166 | probing FRONTEND_URL asks the frontend host and port for "/" |
| Commands.MigrateArgs | launchpad.py:613-617 | the venv's python, then `manage.py` joined to the project root, then `migrate --noinput` |
| Commands.RedisArgs | launchpad.py:629-636 | the docker command publishes the Redis port on container port 6379 and runs `redis:7` |
| Commands.DaphneArgs | launchpad.py:649-654 | daphne serves the ASGI app with `--port` the Daphne port and `--bind` the Daphne host |
| Commands.BeatArgs | launchpad.py:691-694 | celery beat uses the schedule file under the project root |
| Commands.VenvTool | launchpad.py:138-146 | `_venv_bin` joined with a relative tool name is the project root, one "/" unless the root is empty or already ends in one, then `venv/bin/` and the tool |
| Commands.UnderProjectRoot | launchpad.py:138-170 | `VenvBin`, `PythonExe`, `CeleryExe`, `DaphneExe` and `BeatSchedulePath`: the interpreter, celery and daphne are `venv/bin/python`, `venv/bin/celery` and `venv/bin/daphne` under the project root, and the beat schedule is `celerybeat-schedule` there |
| Commands.WorkerArgs | launchpad.py:699-711 | the worker gets queue, pool and concurrency, plus the three `--without-*` flags exactly for eventlet and gevent |
| Commands.FrontendArgs | launchpad.py:743-748 | `npm run dev -- --port P --strictPort --host H` |
| Commands.DaphnePortReadsBack | launchpad.py:649-654 | the `--port` argument parses back to the configured Daphne port |
| Commands.WorkerConcurrencyReadsBack | launchpad.py:699-711 | the `-c` argument parses back to the configured concurrency |
| Commands.FrontendPortReadsBack | launchpad.py:743-748 | the `--port` argument parses back to the configured frontend port |
| Commands.KeysDistinct | launchpad.py:783 | the six service keys are pairwise distinct |
| Commands.StartSchedule | launchpad.py:766-778 | Redis starts first; migrate follows exactly under "always" when Redis's launch did not raise; the timers (and, for `start_all`, the frontend's) are started exactly when no inline launch raised |
| Commands.ScheduleIsStartOrder | launchpad.py:766-778 | inline starts come first, then the timers in increasing delay |
| Commands.ScheduleStartsEachOnce | launchpad.py:766-778 | each service is started at most once, whichever inline launch raised |
| Commands.StopOrderCoversEveryService | launchpad.py:783 | every service key is in the stop order |
| Commands.StopOrderDistinct | launchpad.py:783 | the stop order names no key twice |
| Commands.StopRankIsPosition | launchpad.py:783 | each service's rank is its position in the stop order |
| Commands.StopReversesStart | launchpad.py:766-785 | apart from migrate, a service started later is stopped earlier |
| Commands.MigrateNotReversed | launchpad.py:766-785 | under "always", migrate starts after Redis and is also stopped after it |
| Supervisor.ExitCodeReadsBack | launchpad.py:366 | the recorded last error carries the exit code, which parses back |
| Supervisor.Tick | launchpad.py:361-375 | a running process seen exited becomes FAILED with its exit code; the count goes up exactly when an auto-restart is due; nothing else changes |
| Supervisor.TickKeepsTracked | launchpad.py:361-375 | a tracked record (launched, RUNNING or FAILED, restart count at most 3) stays tracked after a monitor pass |
| Supervisor.TickIdempotent | launchpad.py:361-375 | a second pass over the same poll changes nothing and schedules no second restart |
| Supervisor.AtMostOneRestartPerRecord | launchpad.py:361-375 | over any sequence of passes a record schedules at most one restart, none unless it was running, and its count records it |
| Supervisor.TickRestarts | launchpad.py:361-375 | the keys a pass restarts are exactly the tracked ones whose restart is due |
| Supervisor.TickRestartsStep | launchpad.py:361-375 | a pass over one more key appends that key exactly when its restart is due |
| Supervisor.LateBoundTargets | launchpad.py:361-375 | as written, one restart per due record, each aimed at the table's last key |
| Supervisor.LateBindingRestartsWrongKey | launchpad.py:361-375 | with keys daphne and frontend and only daphne crashing, the as-written timer restarts frontend |
| Supervisor.SpawnOutcomeOf | launchpad.py:515-545 | a live key is left alone; otherwise the process starts iff the launch succeeded |
| Supervisor.RestartTarget | launchpad.py:384-399 | a key dispatches to the service of that key, if any |
| Supervisor.RestartTargetsAutoRestart | launchpad.py:384-399 | restart dispatches exactly the services started with auto-restart: daphne, beat, worker and frontend |
| Supervisor.FrontendDecision | launchpad.py:716-750 | a spawn reached through the gate is a spawn of a non-live key |
| Supervisor.FrontendSpawnsOnlyOnFreePort | launchpad.py:716-750 | the frontend is spawned iff it is not running and its port was free, or listeners were found, killed and the port re-probed free |
| Supervisor.Without | launchpad.py:591 | after `pop`, the key order is the old order with the popped key's position cut out; an absent key changes nothing |
| Supervisor.ExceptMembers | launchpad.py:591 | dropping a set of keys from the order keeps exactly the other keys, without repeats, and changes nothing when none of them is there |
| Supervisor.ExceptTwice | launchpad.py:783-789 | dropping keys one batch after another is dropping them all at once |
| Supervisor.RedisDecision | launchpad.py:620-644 | Redis is reported up at probe i iff it was down, Docker is usable and the port opens within the 40 probes |
| Supervisor.Proc.constructor | launchpad.py:316-327 | a new record is STOPPED, with no process, count 0 and no error |
| Supervisor.Proc.Observe | launchpad.py:363-375 | one record's step of the monitor pass is `Tick`, and it reports whether a restart is due |
| Supervisor.ObserveAll | launchpad.py:359-379 | the monitor loop ticks every record and collects `TickRestarts` of the table in key order |
| Supervisor.StackController.constructor | launchpad.py:344-355 | the controller starts with no tracked processes |
| Supervisor.StackController.Spawn | launchpad.py:515-564 | a live key is left alone; a launch registers the record RUNNING with its handle and start time; file-not-found marks it FAILED with the message; any other exception leaves it STARTING and untracked |
| Supervisor.StackController.Register | launchpad.py:556-559 | the new process is recorded RUNNING under its key, and the table stays well formed |
| Supervisor.StackController.Terminate | launchpad.py:566-591 | an untracked key is ignored; a tracked one is removed and marked STOPPED; a running one gets SIGTERM, up to 20 polls, and SIGKILL only when no poll saw it exit |
| Supervisor.StackController.MonitorTick | launchpad.py:356-379 | every record is ticked and the restarts are `TickRestarts` of the table in insertion order |
| Supervisor.StackController.StartService | launchpad.py:515-564 | a fresh record built from the service's spec is spawned under its key, a new key goes last in the order, and every other entry is untouched; otherwise the table and its order are unchanged |
| Supervisor.StackController.SpecsOfServices | launchpad.py:613-750 | `MigrateSpec` through `FrontendSpec`, the `Proc(...)` arguments: auto-restart exactly for the services `_restart_proc` dispatches, the frontend runs in FRONTEND_DIR and every other service in the project root, and only the server's environment adds PYTHONUNBUFFERED=1 |
| Supervisor.StackController.MigrateDb | launchpad.py:613-617 | migrations are spawned under "migrate" with the migrate arguments, only that entry changes, and nothing changes when the spawn does not start |
| Supervisor.StackController.EnsureRedis | launchpad.py:620-644 | nothing is spawned when Redis is up or Docker is unusable; otherwise the container is spawned, only its entry changes, and the outcome is `RedisDecision` |
| Supervisor.StackController.StartDaphne | launchpad.py:647-658 | the conflict verdict is that of `check_port_conflict`, and Daphne is spawned regardless of it; only its entry changes |
| Supervisor.StackController.StartCeleryBeat | launchpad.py:685-696 | beat is spawned under "celery_beat" with auto-restart; only that entry changes |
| Supervisor.StackController.StartCeleryWorker | launchpad.py:698-713 | the worker is spawned under "celery_worker" with auto-restart; only that entry changes |
| Supervisor.StackController.StartFrontend | launchpad.py:716-750 | the result is `FrontendDecision` of the probes, listeners and kills; the frontend runs, and only its entry changes, exactly when that gate lets it through |
| Supervisor.StackController.Rerun | launchpad.py:384-399 | re-running a tracked service's start routine keeps the key set and order; its record is replaced by a new RUNNING one with count 0 exactly when the launch (behind the frontend's gate) goes through, else nothing changes |
| Supervisor.StackController.RestartProc | launchpad.py:384-399 | an untracked key is ignored; a tracked one re-runs its own service, which comes back RUNNING with count 0 when its launch goes through; the key set, the order and every other entry stay as they were |
| Supervisor.StackController.StopKey | launchpad.py:566-591 | stopping a key removes it, cuts it out of the key order, leaves every other record as it was and marks its own STOPPED |
| Supervisor.StackController.StopNext | launchpad.py:783-789 | one step of the stop loop removes its key from the table and the order and leaves the remaining records untouched |
| Supervisor.StackController.StopKeys | launchpad.py:783-789 | stopping a list of keys removes exactly those keys from the table and the order, leaves the other records as they were, and marks each stopped record STOPPED |
| Supervisor.StackController.StopAll | launchpad.py:780-790 | after stop_all no service key remains tracked, the order has lost exactly those keys, any other record is untouched, and every record it stopped is STOPPED |

## Left out

- Windows: the `IS_WINDOWS` paths, executables and defaults are not modelled. Only the POSIX branches are.
- The Tk user interface, the log, the status and notification callbacks, and the tray icon are left out; they do not affect the supervisor's state.
- Configuration persistence is left out: SQLite, the JSON import, `load`, `save` and `Paths(**data)`. `_migrate` is modelled on the decoded table.
- Threads, locks, `time.sleep` and `threading.Timer` are not modelled. `start_backend` and `start_all` are modelled as a schedule of inline and delayed starts (`Commands.StartSchedule`), not as concurrent timers. The schedule is cut short where an inline launch raises past `_spawn`.
- The stdout pump thread of `_spawn`, the Daphne reachability waiter and the browser opener are left out. They only log or open a browser.
- `fetch_openapi` is left out. It downloads the schema and writes it to `openapi.json` under the project root (launchpad.py:672-683); the model has no file system.
- `start_celery_beat`'s removal of an old schedule file is left out. It is file-system I/O whose failure is only logged.
- The port warnings after `stop_all` are left out; they only log.
- `get_resource_usage` is left out; it reads psutil counters.
- `_tcp_open`, `Popen`, `poll`, psutil and `os.kill` are oracles. The model does not capture how long a kill takes or which signal finally ended a process.
- `Text.IsDigits` accepts only ASCII digits. Python's `isdigit` also accepts characters such as "²", which `int` then rejects. In `_find_pids_on_port` that exception ends the whole lsof loop (launchpad.py:428), dropping every later line. `Ports.LsofOutput` skips only that line.
- `Text.ParseIntLiteral`: Python's `int` also accepts underscores between digits and non-ASCII digits. The model accepts only ASCII digits with an optional sign and surrounding white space.
- `Config.CoerceInt`: `int()` of a float that is NaN or infinite raises in Python; reals here are always finite.
- `Config.ParsePort` and `Config.ParseIntAtLeast` quote the value as `'value'`. `repr` escaping of quotes and backslashes inside it is not modelled.
- `Commands.RedisArgs`: `--cpus` carries `str(DOCKER_CPU_LIMIT)`, a float rendering that is not modelled. The argument is kept as configured text.
- `Commands.PathJoin` is POSIX `os.path.join` for two components. An absolute second component replaces the first.

## Findings

| source | as written | input that shows it | evidently intended | confidence | as-written member | corrected member |
|---|---|---|---|---|---|---|
| launchpad.py:375 | the restart timer's `lambda: self._restart_proc(key)` reads the loop variable `key` when the timer fires, two seconds after the pass, so every restart scheduled in one pass restarts the last key of the table | records "daphne" then "frontend", both running with auto-restart; only daphne has exited | each timer restarts the key whose process crashed (`lambda key=key: ...`) | high, not executed | Supervisor.LateBindingRestartsWrongKey | Supervisor.StackController.MonitorTick |
