/**
 * The process supervisor: a `Proc` record per managed child and the `StackController` that
 * spawns, stops, watches and restarts them. The operating system is reached only through
 * parameters: `poll` is `Popen.poll()` at the moment of the call (`None` while the child is
 * alive), a `LaunchResult` is what `Popen(...)` did, `exitAfter` says from which poll after
 * SIGTERM on the child is seen to have exited, and the port probes and kill prompt are the
 * inputs of `Ports`.
 */
module Supervisor {
  import opened Wrappers
  import opened Text
  import Commands
  import Ports

  /** `ProcessStatus`. */
  datatype Status = Stopped | Starting | Running | Failed

  /** A child process handle (`Popen` object), identified by its pid. */
  datatype Handle = Handle(pid: int)

  /** `Popen.poll()`: the exit code once the child has exited, `None` while it runs. */
  type Poll = Handle -> Option<int>

  /** The outcome of `subprocess.Popen(...)`. */
  datatype LaunchResult =
    | Launched(h: Handle)
    | FileMissing(message: string)   // FileNotFoundError, handled by `_spawn`
    | LaunchRaised(message: string)  // any other exception, which `_spawn` lets escape

  /** Automatic restarts a single record allows. */
  const MaxRestarts: nat := 3
  /** Polls (0.2 s apart) `_terminate` waits after SIGTERM before SIGKILL. */
  const TermPolls: nat := 20
  /** Probes (0.25 s apart) `ensure_redis` waits for the container. */
  const RedisProbes: nat := 40

  /** The mutable part of a `Proc` together with its restart flag. */
  datatype ProcView = ProcView(handle: Option<Handle>, status: Status, autoRestart: bool,
                               restartCount: nat, lastError: Option<string>)

  /** What a record in the process table looks like: launched, running or failed, within its restart budget. */
  predicate Tracked(v: ProcView) {
    v.handle.Some? && (v.status == Running || v.status == Failed) && v.restartCount <= MaxRestarts
  }

  // ---------- one monitor pass, on values ----------

  /** The record was running and its child has exited since. */
  predicate Crashed(v: ProcView, poll: Poll) {
    v.handle.Some? && poll(v.handle.value).Some? && v.status == Running
  }

  /** A crash that schedules an automatic restart. */
  predicate RestartDue(v: ProcView, poll: Poll) {
    Crashed(v, poll) && v.autoRestart && v.restartCount < MaxRestarts
  }

  /** The error recorded for a child that exited with `code`. */
  function ExitMessage(code: int): string {
    "Exited with code " + IntToString(code)
  }

  /** The recorded error carries the exit code in a form that reads back. */
  lemma ExitCodeReadsBack(code: int)
    ensures |ExitMessage(code)| > 17 && ExitMessage(code)[..17] == "Exited with code "
    ensures ParseIntLiteral(ExitMessage(code)[17..]) == Some(code)
  {
    assert ExitMessage(code)[17..] == IntToString(code);
    IntToStringRoundTrip(code);
  }

  /** What the monitor does to one record. */
  function Tick(v: ProcView, poll: Poll): (w: ProcView)
    ensures !Crashed(v, poll) ==> w == v
    ensures Crashed(v, poll) ==> w.status == Failed && w.lastError == Some(ExitMessage(poll(v.handle.value).value))
    ensures w.handle == v.handle && w.autoRestart == v.autoRestart
    ensures w.restartCount == if RestartDue(v, poll) then v.restartCount + 1 else v.restartCount
  {
    if Crashed(v, poll) then
      var failed := v.(status := Failed, lastError := Some(ExitMessage(poll(v.handle.value).value)));
      if RestartDue(v, poll) then failed.(restartCount := v.restartCount + 1) else failed
    else v
  }

  /** A record stays a well-formed table entry across a monitor pass. */
  lemma TickKeepsTracked(v: ProcView, poll: Poll)
    requires Tracked(v)
    ensures Tracked(Tick(v, poll))
  {
  }

  /** A crash is acted on once: a second pass with the same observation changes nothing. */
  lemma TickIdempotent(v: ProcView, poll: Poll)
    ensures Tick(Tick(v, poll), poll) == Tick(v, poll)
    ensures !RestartDue(Tick(v, poll), poll)
  {
  }

  /** Restarts a record schedules over a run of monitor passes, each with its own observation. */
  function RestartsOver(v: ProcView, polls: seq<Poll>): nat
    decreases |polls|
  {
    if polls == [] then 0
    else (if RestartDue(v, polls[0]) then 1 else 0) + RestartsOver(Tick(v, polls[0]), polls[1..])
  }

  /** The record after a run of monitor passes. */
  function TickOver(v: ProcView, polls: seq<Poll>): ProcView
    decreases |polls|
  {
    if polls == [] then v else TickOver(Tick(v, polls[0]), polls[1..])
  }

  /**
   * However many passes run, one record schedules at most one restart, and none once it is no
   * longer running: the cap of three per record is therefore never reached, since every restart
   * builds a new record whose count starts at zero.
   */
  lemma {:induction false} AtMostOneRestartPerRecord(v: ProcView, polls: seq<Poll>)
    ensures RestartsOver(v, polls) <= 1
    ensures v.status != Running ==> RestartsOver(v, polls) == 0
    ensures TickOver(v, polls).restartCount == v.restartCount + RestartsOver(v, polls)
    decreases |polls|
  {
    if polls != [] {
      var w := Tick(v, polls[0]);
      AtMostOneRestartPerRecord(w, polls[1..]);
      if Crashed(v, polls[0]) {
        assert w.status == Failed;
      } else {
        assert w == v;
      }
    }
  }

  /** The keys whose records schedule a restart in one pass, in table order. */
  function TickRestarts(keys: seq<string>, views: map<string, ProcView>, poll: Poll): (r: seq<string>)
    ensures forall k :: k in r <==> k in keys && k in views && RestartDue(views[k], poll)
    ensures |r| <= |keys|
  {
    if keys == [] then []
    else
      var last := keys[|keys| - 1];
      TickRestarts(keys[..|keys| - 1], views, poll) +
      (if last in views && RestartDue(views[last], poll) then [last] else [])
  }

  lemma TickRestartsStep(keys: seq<string>, i: nat, views: map<string, ProcView>, poll: Poll)
    requires i < |keys|
    ensures TickRestarts(keys[..i + 1], views, poll) ==
            TickRestarts(keys[..i], views, poll) +
            (if keys[i] in views && RestartDue(views[keys[i]], poll) then [keys[i]] else [])
  {
    assert keys[..i + 1][..i] == keys[..i];
  }

  /**
   * As written, each restart timer's callback reads the loop variable `key` when it fires, after
   * the pass has finished, so every timer of a pass restarts the table's last key.
   */
  function LateBoundTargets(keys: seq<string>, restarts: seq<string>): (targets: seq<string>)
    requires keys != []
    ensures |targets| == |restarts|
    ensures forall k :: 0 <= k < |targets| ==> targets[k] == keys[|keys| - 1]
  {
    seq(|restarts|, _ => keys[|keys| - 1])
  }

  /**
   * With the server started before the frontend, a crash of the server makes the timer restart
   * the frontend instead; the frontend is alive, so the server is never restarted.
   */
  lemma LateBindingRestartsWrongKey()
    ensures var views := map["daphne" := ProcView(Some(Handle(1)), Running, true, 0, None),
                             "frontend" := ProcView(Some(Handle(2)), Running, true, 0, None)];
            var poll: Poll := h => if h == Handle(1) then Some(1) else None;
            var keys := ["daphne", "frontend"];
            TickRestarts(keys, views, poll) == ["daphne"] &&
            LateBoundTargets(keys, TickRestarts(keys, views, poll)) == ["frontend"]
  {
    var views := map["daphne" := ProcView(Some(Handle(1)), Running, true, 0, None),
                     "frontend" := ProcView(Some(Handle(2)), Running, true, 0, None)];
    var poll: Poll := h => if h == Handle(1) then Some(1) else None;
    var keys := ["daphne", "frontend"];
    assert RestartDue(views["daphne"], poll);
    assert !RestartDue(views["frontend"], poll);
    assert keys[..1] == ["daphne"];
    assert ["daphne"][..0] == [];
  }

  // ---------- spawn outcome and restart dispatch ----------

  /** What `_spawn` did. */
  datatype SpawnOutcome = AlreadyRunning | Started | NotFound | Raised

  /** `_spawn`'s decision: a live record under the key wins, otherwise the launch decides. */
  function SpawnOutcomeOf(live: bool, launch: LaunchResult): (o: SpawnOutcome)
    ensures o == Started <==> !live && launch.Launched?
    ensures o == AlreadyRunning <==> live
  {
    if live then AlreadyRunning
    else match launch
      case Launched(_) => Started
      case FileMissing(_) => NotFound
      case LaunchRaised(_) => Raised
  }

  /** The services started with automatic restart enabled. */
  predicate AutoRestarts(s: Commands.Service) {
    s.Daphne? || s.CeleryBeat? || s.CeleryWorker? || s.Frontend?
  }

  /** `_restart_proc`'s dispatch from a key to the start routine it calls. */
  function RestartTarget(key: string): (r: Option<Commands.Service>)
    ensures r.Some? ==> Commands.Key(r.value) == key
  {
    if key == "daphne" then Some(Commands.Daphne)
    else if key == "celery_beat" then Some(Commands.CeleryBeat)
    else if key == "celery_worker" then Some(Commands.CeleryWorker)
    else if key == "frontend" then Some(Commands.Frontend)
    else None
  }

  /** Exactly the services spawned with automatic restart have a restart routine. */
  lemma RestartTargetsAutoRestart(s: Commands.Service)
    ensures RestartTarget(Commands.Key(s)) == Some(s) <==> AutoRestarts(s)
    ensures RestartTarget(Commands.Key(s)).None? <==> !AutoRestarts(s)
  {
  }

  // ---------- frontend gate and Redis readiness, on values ----------

  /** How `start_frontend` ended. */
  datatype FrontendGate = AlreadyManaged | ListenerUnknown | ConflictNotResolved | PortStillInUse | Spawned(outcome: SpawnOutcome)

  /**
   * `start_frontend`'s gate: a live managed frontend is left alone; a port found open needs an
   * identified listener, a successful kill and a port found closed afterwards.
   */
  function FrontendDecision(live: bool, openBefore: bool, listeners: seq<Ports.Listener>, killed: bool,
                            openAfter: bool, launch: LaunchResult): (g: FrontendGate)
    ensures g.Spawned? ==> g.outcome == SpawnOutcomeOf(false, launch)
  {
    if live then AlreadyManaged
    else if openBefore && listeners == [] then ListenerUnknown
    else if openBefore && !killed then ConflictNotResolved
    else if openBefore && openAfter then PortStillInUse
    else Spawned(SpawnOutcomeOf(false, launch))
  }

  /** The frontend is spawned exactly when no managed one runs and its port is free or was freed. */
  lemma FrontendSpawnsOnlyOnFreePort(live: bool, openBefore: bool, listeners: seq<Ports.Listener>, killed: bool,
                                     openAfter: bool, launch: LaunchResult)
    ensures FrontendDecision(live, openBefore, listeners, killed, openAfter, launch).Spawned? <==>
            !live && (!openBefore || (listeners != [] && killed && !openAfter))
  {
  }

  /**
   * How `ensure_redis` ended; `CameUp(i)` names the probe that first saw the port open, and
   * `LaunchEscaped` is a launch error that `_spawn` lets escape before any probe.
   */
  datatype RedisOutcome = AlreadyAvailable | NoDocker | CameUp(probe: nat) | NotReachable | LaunchEscaped

  /** The readiness probe number `i` sees Redis when the container is up from probe `readyAt` on. */
  predicate UpAt(readyAt: Option<nat>, i: nat) {
    readyAt.Some? && readyAt.value <= i
  }

  /** The child is seen to have exited at poll `i` after SIGTERM. */
  predicate ExitSeen(exitAfter: Option<nat>, i: nat) {
    exitAfter.Some? && exitAfter.value <= i
  }

  /** What `_terminate` did. */
  datatype StopResult = Untracked | Reaped | Terminated(waits: nat, killed: bool)

  // ---------- helpers on the key order ----------

  predicate Distinct(s: seq<string>) {
    forall i, j :: 0 <= i < j < |s| ==> s[i] != s[j]
  }

  lemma DistinctAppend(s: seq<string>, x: string)
    requires Distinct(s) && x !in s
    ensures Distinct(s + [x])
  {
  }

  /** The keys of a prefix one longer are those of the prefix and the next key, which is new when `s` has no repeats. */
  lemma PrefixElements(s: seq<string>, i: nat)
    requires i < |s|
    ensures var next := s[..i + 1]; var prefix := s[..i];
            (set k | k in next) == (set k | k in prefix) + {s[i]} &&
            (Distinct(s) ==> s[i] !in (set k | k in prefix))
  {
    assert s[..i + 1] == s[..i] + [s[i]];
  }

  /** Removing a set of keys and then one more is removing both. */
  lemma RemoveTwice<V>(m: map<string, V>, gone: set<string>, key: string)
    ensures (m - gone) - {key} == m - (gone + {key})
  {
  }

  /** `s` with the members of `gone` dropped, the rest in order. */
  function Except(s: seq<string>, gone: set<string>): seq<string>
  {
    if s == [] then []
    else
      var front := Except(s[..|s| - 1], gone);
      var last := s[|s| - 1];
      if last in gone then front else front + [last]
  }

  /**
   * What `Except` keeps: exactly the members of `s` outside `gone`, without repeats when `s` has
   * none, and all of `s` when nothing in it is to be dropped.
   */
  lemma {:induction false} ExceptMembers(s: seq<string>, gone: set<string>)
    ensures forall y :: y in Except(s, gone) <==> y in s && y !in gone
    ensures Distinct(s) ==> Distinct(Except(s, gone))
    ensures (forall y :: y in s ==> y !in gone) ==> Except(s, gone) == s
  {
    ExceptKeeps(s, gone);
    ExceptDistinct(s, gone);
    ExceptDropsNothing(s, gone);
  }

  /** A key survives `Except` exactly when it is in `s` and not in `gone`. */
  lemma {:induction false} ExceptKeeps(s: seq<string>, gone: set<string>)
    ensures forall y :: y in Except(s, gone) <==> y in s && y !in gone
    decreases |s|
  {
    if s != [] {
      var init, last := s[..|s| - 1], s[|s| - 1];
      assert s == init + [last];
      ExceptKeeps(init, gone);
    }
  }

  /** `Except` adds no repeats. */
  lemma {:induction false} ExceptDistinct(s: seq<string>, gone: set<string>)
    ensures Distinct(s) ==> Distinct(Except(s, gone))
    decreases |s|
  {
    if s != [] && Distinct(s) {
      var init, last := s[..|s| - 1], s[|s| - 1];
      assert s == init + [last];
      assert Distinct(init) && last !in init;
      ExceptDistinct(init, gone);
      ExceptKeeps(init, gone);
      if last !in gone {
        DistinctAppend(Except(init, gone), last);
      }
    }
  }

  /** When nothing in `s` is to be dropped, `Except` is the identity. */
  lemma {:induction false} ExceptDropsNothing(s: seq<string>, gone: set<string>)
    ensures (forall y :: y in s ==> y !in gone) ==> Except(s, gone) == s
    decreases |s|
  {
    if s != [] && forall y :: y in s ==> y !in gone {
      var init, last := s[..|s| - 1], s[|s| - 1];
      assert s == init + [last];
      assert forall y :: y in init ==> y !in gone;
      ExceptDropsNothing(init, gone);
    }
  }

  /** Dropping nothing keeps the whole sequence. */
  lemma {:induction false} ExceptNothing(s: seq<string>)
    ensures Except(s, {}) == s
    decreases |s|
  {
    if s != [] {
      ExceptNothing(s[..|s| - 1]);
    }
  }

  /** Dropping members from a concatenation drops them from each part. */
  lemma {:induction false} ExceptAppend(a: seq<string>, b: seq<string>, gone: set<string>)
    ensures Except(a + b, gone) == Except(a, gone) + Except(b, gone)
    decreases |b|
  {
    if b != [] {
      assert (a + b)[..|a + b| - 1] == a + b[..|b| - 1];
      ExceptAppend(a, b[..|b| - 1], gone);
    } else {
      assert a + b == a;
    }
  }

  /** Dropping one set and then another is dropping their union. */
  lemma {:induction false} ExceptTwice(s: seq<string>, first: set<string>, second: set<string>)
    ensures Except(Except(s, first), second) == Except(s, first + second)
    decreases |s|
  {
    if s != [] {
      ExceptTwice(s[..|s| - 1], first, second);
      ExceptAppend(Except(s[..|s| - 1], first), [s[|s| - 1]], second);
    }
  }

  /** Dropping the only occurrence of `x` joins what stood before and after it. */
  lemma ExceptMiddle(pre: seq<string>, x: string, post: seq<string>)
    requires x !in pre && x !in post
    ensures Except(pre + [x] + post, {x}) == pre + post
  {
    ExceptAppend(pre + [x], post, {x});
    ExceptAppend(pre, [x], {x});
    ExceptMembers(pre, {x});
    ExceptMembers(post, {x});
    assert Except([x], {x}) == [] by {
      assert [x][..0] == [];
    }
    assert Except(pre, {x}) == pre by {
      assert forall y :: y in pre ==> y !in {x};
    }
    assert Except(post, {x}) == post by {
      assert forall y :: y in post ==> y !in {x};
    }
  }

  /** In a sequence without repeats, dropping the element at `i` removes exactly that position. */
  lemma ExceptOne(s: seq<string>, i: nat)
    requires i < |s| && Distinct(s)
    ensures Except(s, {s[i]}) == s[..i] + s[i + 1..]
  {
    var x, pre, post := s[i], s[..i], s[i + 1..];
    assert s == pre + [x] + post;
    assert x !in pre by {
      forall j | 0 <= j < |pre| ensures pre[j] != x { assert pre[j] == s[j]; }
    }
    assert x !in post by {
      forall j | 0 <= j < |post| ensures post[j] != x { assert post[j] == s[i + 1 + j]; }
    }
    ExceptMiddle(pre, x, post);
  }

  /** `s` without `x`, the rest in order (a dictionary's key order after `pop`). */
  function Without(s: seq<string>, x: string): (r: seq<string>)
    ensures forall i :: 0 <= i < |s| && s[i] == x && Distinct(s) ==> r == s[..i] + s[i + 1..]
    ensures x !in s ==> r == s
  {
    assert forall i :: 0 <= i < |s| && s[i] == x && Distinct(s) ==> Except(s, {x}) == s[..i] + s[i + 1..] by {
      forall i | 0 <= i < |s| && s[i] == x && Distinct(s) {
        ExceptOne(s, i);
      }
    }
    ExceptMembers(s, {x});
    Except(s, {x})
  }

  /** What a start routine hands to `Proc(...)`. */
  datatype ProcSpec = ProcSpec(name: string, args: seq<string>, cwd: string, env: map<string, string>, autoRestart: bool)

  /** The probes and prompt answer a port-conflict check sees (see `Ports.CheckPortConflict`). */
  datatype PortProbe = PortProbe(openBefore: bool, openAfter: bool, source: Ports.ListenerSource,
                                 consent: Ports.Consent, killOk: int -> bool)

  /** `ensure_redis`'s decision: an open port, then a usable Docker, then the 40 readiness probes decide. */
  function RedisDecision(openNow: bool, dockerUsable: bool, readyAt: Option<nat>): (o: RedisOutcome)
    ensures o.CameUp? <==> !openNow && dockerUsable && readyAt.Some? && readyAt.value < RedisProbes
    ensures o.CameUp? ==> o.probe == readyAt.value
  {
    if openNow then AlreadyAvailable
    else if !dockerUsable then NoDocker
    else if readyAt.Some? && readyAt.value < RedisProbes then CameUp(readyAt.value)
    else NotReachable
  }

  /** A child record: `Proc`. */
  class Proc {
    const name: string
    const args: seq<string>
    const cwd: string
    const env: map<string, string>
    const autoRestart: bool
    var handle: Option<Handle>
    var status: Status
    var startTime: Option<int>
    var restartCount: nat
    var lastError: Option<string>

    /** A new record: stopped, never launched, no restarts, no error. */
    constructor(name: string, args: seq<string>, cwd: string, env: map<string, string>, autoRestart: bool)
      ensures this.name == name && this.args == args && this.cwd == cwd && this.env == env
      ensures View() == ProcView(None, Stopped, autoRestart, 0, None) && startTime == None
    {
      this.name := name;
      this.args := args;
      this.cwd := cwd;
      this.env := env;
      this.autoRestart := autoRestart;
      handle := None;
      status := Stopped;
      startTime := None;
      restartCount := 0;
      lastError := None;
    }

    function View(): ProcView
      reads this
    {
      ProcView(handle, status, autoRestart, restartCount, lastError)
    }

    /** The monitor's step for this record: `Tick`, and whether a restart is scheduled. */
    method Observe(poll: Poll) returns (restart: bool)
      modifies this
      ensures View() == Tick(old(View()), poll)
      ensures restart == RestartDue(old(View()), poll)
      ensures startTime == old(startTime)
    {
      restart := false;
      if handle.Some? && poll(handle.value).Some? && status == Running {
        status := Failed;
        lastError := Some(ExitMessage(poll(handle.value).value));
        if autoRestart && restartCount < MaxRestarts {
          restartCount := restartCount + 1;
          restart := true;
        }
      }
    }
  }

  /**
   * The monitor's loop over a snapshot of the table (`list(procs.items())`): every record gets
   * its `Tick`, and the keys of the records that scheduled a restart come back in table order.
   */
  method ObserveAll(keys: seq<string>, table: map<string, Proc>, poll: Poll) returns (restarts: seq<string>)
    requires Distinct(keys) && forall k :: k in table <==> k in keys
    requires forall k, k' :: k in table && k' in table && k != k' ==> table[k] != table[k']
    modifies table.Values
    ensures forall k :: k in table ==> table[k].View() == Tick(old(table[k].View()), poll)
    ensures restarts == TickRestarts(keys, old(map k | k in table :: table[k].View()), poll)
  {
    ghost var before := map k | k in table :: table[k].View();
    restarts := [];
    var i := 0;
    while i < |keys|
      invariant 0 <= i <= |keys|
      invariant forall k :: k in table ==> table[k].View() == (if k in keys[..i] then Tick(before[k], poll) else before[k])
      invariant restarts == TickRestarts(keys[..i], before, poll)
    {
      var key := keys[i];
      assert key !in keys[..i];
      TickRestartsStep(keys, i, before, poll);
      var restart := table[key].Observe(poll);
      if restart {
        restarts := restarts + [key];
      }
      i := i + 1;
    }
    assert keys[..i] == keys;
  }

  /** `StackController`: the process table (`procs`, with its key order) and the routines over it. */
  class StackController {
    const cfg: Commands.Paths
    /** The launcher's own environment, copied into every child's. */
    const environ: map<string, string>
    var procs: map<string, Proc>
    /** The table's key order, as a dictionary iterates it (insertion order). */
    var order: seq<string>

    ghost predicate Valid()
      reads this, procs.Values
    {
      (forall k :: k in procs <==> k in order) &&
      Distinct(order) &&
      (forall k, k' :: k in procs && k' in procs && k != k' ==> procs[k] != procs[k']) &&
      (forall k :: k in procs ==> Tracked(procs[k].View()))
    }

    /** The table's records as values. */
    function Views(): (m: map<string, ProcView>)
      reads this, procs.Values
      ensures m.Keys == procs.Keys
    {
      map k | k in procs :: procs[k].View()
    }

    /** A record under `key` whose child has not exited. */
    predicate Live(key: string, poll: Poll)
      reads this, procs.Values
    {
      key in procs && procs[key].handle.Some? && poll(procs[key].handle.value).None?
    }

    constructor(cfg: Commands.Paths, environ: map<string, string>)
      ensures Valid() && procs == map[] && order == []
      ensures this.cfg == cfg && this.environ == environ
    {
      this.cfg := cfg;
      this.environ := environ;
      procs := map[];
      order := [];
    }

    /**
     * `_spawn`: a key whose child is alive is left alone. Otherwise the record goes through
     * STARTING; a missing executable leaves it FAILED with the error and untracked; any other
     * launch error escapes with the record STARTING; a launch makes it RUNNING with its handle and
     * start time and puts it in the table, replacing an exited record under the same key.
     */
    method Spawn(key: string, proc: Proc, poll: Poll, launch: LaunchResult, now: int) returns (outcome: SpawnOutcome)
      requires Valid() && proc !in procs.Values && proc.restartCount <= MaxRestarts
      modifies this, proc
      ensures Valid()
      ensures outcome == SpawnOutcomeOf(old(Live(key, poll)), launch)
      ensures outcome == Started ==>
                procs == old(procs)[key := proc] &&
                order == (if key in old(procs) then old(order) else old(order) + [key]) &&
                proc.View() == old(proc.View()).(handle := Some(launch.h), status := Running) &&
                proc.startTime == Some(now)
      ensures outcome != Started ==> procs == old(procs) && order == old(order)
      ensures outcome == AlreadyRunning ==> proc.View() == old(proc.View()) && proc.startTime == old(proc.startTime)
      ensures outcome == NotFound ==>
                proc.View() == old(proc.View()).(status := Failed, lastError := Some(launch.message)) &&
                proc.startTime == old(proc.startTime)
      ensures outcome == Raised ==> proc.View() == old(proc.View()).(status := Starting) && proc.startTime == old(proc.startTime)
    {
      if Live(key, poll) {
        return AlreadyRunning;
      }
      proc.status := Starting;
      match launch {
        case FileMissing(message) =>
          proc.status := Failed;
          proc.lastError := Some(message);
          return NotFound;
        case LaunchRaised(_) =>
          return Raised;
        case Launched(h) =>
          proc.startTime := Some(now);
          Register(key, proc, h);
          return Started;
      }
    }

    /** The end of a successful `_spawn`: the record gets its handle, becomes RUNNING and enters the table. */
    method Register(key: string, proc: Proc, h: Handle)
      requires Valid() && proc !in procs.Values && proc.restartCount <= MaxRestarts
      modifies this, proc
      ensures Valid()
      ensures procs == old(procs)[key := proc]
      ensures order == if key in old(procs) then old(order) else old(order) + [key]
      ensures proc.View() == old(proc.View()).(handle := Some(h), status := Running)
      ensures proc.startTime == old(proc.startTime)
    {
      proc.handle := Some(h);
      proc.status := Running;
      if key !in procs {
        DistinctAppend(order, key);
        order := order + [key];
      }
      procs := procs[key := proc];
      assert Tracked(proc.View());
    }

    /**
     * `_terminate`: an untracked key is left alone. A running child gets SIGTERM, then up to 20
     * polls 0.2 s apart, then SIGKILL if it is still alive; an already exited one is only
     * forgotten. Either way the record ends STOPPED and leaves the table.
     */
    method Terminate(key: string, poll: Poll, exitAfter: Handle -> Option<nat>) returns (result: StopResult)
      requires Valid()
      modifies this, if key in procs then {procs[key]} else {}
      ensures Valid()
      ensures procs == old(procs) - {key} && order == Without(old(order), key)
      ensures key !in old(procs) <==> result == Untracked
      ensures key in old(procs) ==>
                var p := old(procs[key]);
                var h := old(p.handle.value);
                p.View() == old(p.View()).(status := Stopped) &&
                (result == Reaped <==> poll(h).Some?) &&
                (result.Terminated? ==>
                   result.waits == (if ExitSeen(exitAfter(h), TermPolls) then exitAfter(h).value else TermPolls) &&
                   (result.killed <==> !ExitSeen(exitAfter(h), TermPolls)))
    {
      if key !in procs {
        return Untracked;
      }
      var proc := procs[key];
      var h := proc.handle.value;
      if poll(h).None? {
        var i := 0;
        while i < TermPolls && !ExitSeen(exitAfter(h), i)
          invariant 0 <= i <= TermPolls
          invariant forall j :: 0 <= j < i ==> !ExitSeen(exitAfter(h), j)
        {
          i := i + 1;
        }
        if ExitSeen(exitAfter(h), TermPolls) {
          var n := exitAfter(h).value;
          assert ExitSeen(exitAfter(h), n);
          assert i == n;
        }
        result := Terminated(i, !ExitSeen(exitAfter(h), i));
      } else {
        result := Reaped;
      }
      proc.status := Stopped;
      procs := procs - {key};
      ExceptMembers(order, {key});
      order := Without(order, key);
    }

    /**
     * One pass of the monitor thread, over a snapshot of the table in key order: each running
     * record whose child has exited becomes FAILED with its exit code, and, when it restarts
     * automatically and has budget left, counts one more restart and has its key returned so that
     * `_restart_proc` is called for it.
     */
    method MonitorTick(poll: Poll) returns (restarts: seq<string>)
      requires Valid()
      modifies procs.Values
      ensures Valid()
      ensures forall k :: k in procs ==> procs[k].View() == Tick(old(procs[k].View()), poll)
      ensures restarts == TickRestarts(order, old(Views()), poll)
    {
      restarts := ObserveAll(order, procs, poll);
      forall k | k in procs
        ensures Tracked(procs[k].View())
      {
        TickKeepsTracked(old(procs[k].View()), poll);
      }
    }

    // ---------- start routines ----------

    /** The record of `key` was launched from `spec` with handle `h` at `now` and runs with no restarts. */
    predicate Runs(key: string, spec: ProcSpec, h: Handle, now: int)
      reads this, procs.Values
    {
      key in procs && procs[key].name == spec.name && procs[key].args == spec.args &&
      procs[key].cwd == spec.cwd && procs[key].env == spec.env && procs[key].startTime == Some(now) &&
      procs[key].View() == ProcView(Some(h), Running, spec.autoRestart, 0, None)
    }

    /**
     * The table after a record entered it under `key`: `key` is added (a new key at the end of
     * the order, a known one where it was) and every other entry is as it was.
     */
    predicate Added(key: string, before: map<string, Proc>, beforeOrder: seq<string>)
      reads this
    {
      procs.Keys == before.Keys + {key} &&
      (forall k :: k in before && k != key ==> procs[k] == before[k]) &&
      order == if key in before then beforeOrder else beforeOrder + [key]
    }

    /** `Proc(...)` followed by `_spawn(key, proc)`, the tail of every start routine. */
    method StartService(key: string, spec: ProcSpec, poll: Poll, launch: LaunchResult, now: int) returns (outcome: SpawnOutcome)
      requires Valid()
      modifies this
      ensures Valid()
      ensures outcome == SpawnOutcomeOf(old(Live(key, poll)), launch)
      ensures outcome == Started ==>
                Runs(key, spec, launch.h, now) && fresh(procs[key]) && Added(key, old(procs), old(order))
      ensures outcome != Started ==> procs == old(procs) && order == old(order)
    {
      var proc := new Proc(spec.name, spec.args, spec.cwd, spec.env, spec.autoRestart);
      outcome := Spawn(key, proc, poll, launch, now);
    }

    function MigrateSpec(): ProcSpec {
      ProcSpec("migrate", Commands.MigrateArgs(cfg), cfg.projectRoot, environ, false)
    }

    function RedisSpec(): ProcSpec {
      ProcSpec("redis(docker)", Commands.RedisArgs(cfg), cfg.projectRoot, environ, false)
    }

    function DaphneSpec(): ProcSpec {
      ProcSpec("daphne", Commands.DaphneArgs(cfg), cfg.projectRoot, environ["PYTHONUNBUFFERED" := "1"], true)
    }

    function BeatSpec(): ProcSpec {
      ProcSpec("celery-beat", Commands.BeatArgs(cfg), cfg.projectRoot, environ, true)
    }

    function WorkerSpec(): ProcSpec {
      ProcSpec("celery-worker", Commands.WorkerArgs(cfg), cfg.projectRoot, environ, true)
    }

    function FrontendSpec(): ProcSpec {
      ProcSpec("frontend", Commands.FrontendArgs(cfg), cfg.frontendDir, environ, true)
    }

    /**
     * The `Proc(...)` arguments of the start routines: the services that restart automatically
     * are exactly those `_restart_proc` dispatches, only the frontend runs in FRONTEND_DIR, and
     * only the server's environment differs from the launcher's, by PYTHONUNBUFFERED=1.
     */
    lemma SpecsOfServices()
      ensures MigrateSpec().autoRestart == AutoRestarts(Commands.Migrate)
      ensures RedisSpec().autoRestart == AutoRestarts(Commands.Redis)
      ensures DaphneSpec().autoRestart == AutoRestarts(Commands.Daphne)
      ensures BeatSpec().autoRestart == AutoRestarts(Commands.CeleryBeat)
      ensures WorkerSpec().autoRestart == AutoRestarts(Commands.CeleryWorker)
      ensures FrontendSpec().autoRestart == AutoRestarts(Commands.Frontend)
      ensures FrontendSpec().cwd == cfg.frontendDir
      ensures MigrateSpec().cwd == RedisSpec().cwd == DaphneSpec().cwd == BeatSpec().cwd == WorkerSpec().cwd == cfg.projectRoot
      ensures DaphneSpec().env == environ["PYTHONUNBUFFERED" := "1"]
      ensures MigrateSpec().env == RedisSpec().env == BeatSpec().env == WorkerSpec().env == FrontendSpec().env == environ
    {
    }

    /** `migrate_db`: one migration run under the key "migrate", never restarted. */
    method MigrateDb(poll: Poll, launch: LaunchResult, now: int) returns (outcome: SpawnOutcome)
      requires Valid()
      modifies this
      ensures Valid()
      ensures outcome == SpawnOutcomeOf(old(Live("migrate", poll)), launch)
      ensures outcome == Started ==>
                Runs("migrate", MigrateSpec(), launch.h, now) && fresh(procs["migrate"]) && Added("migrate", old(procs), old(order))
      ensures outcome != Started ==> procs == old(procs) && order == old(order)
    {
      outcome := StartService("migrate", MigrateSpec(), poll, launch, now);
    }

    /**
     * `ensure_redis`: nothing when Redis already answers or Docker is not configured or missing;
     * otherwise the container is spawned and up to 40 probes, 0.25 s apart, wait for it.
     * `readyAt` is the first probe that finds the port open.
     */
    method EnsureRedis(openNow: bool, dockerExists: bool, readyAt: Option<nat>, poll: Poll, launch: LaunchResult, now: int)
      returns (outcome: RedisOutcome, spawned: Option<SpawnOutcome>)
      requires Valid()
      modifies this
      ensures Valid()
      ensures spawned.None? <==> openNow || cfg.dockerExe == "" || !dockerExists
      ensures spawned.Some? ==> spawned.value == SpawnOutcomeOf(old(Live("redis_docker", poll)), launch)
      ensures spawned == Some(Started) ==>
                Runs("redis_docker", RedisSpec(), launch.h, now) && fresh(procs["redis_docker"]) &&
                Added("redis_docker", old(procs), old(order))
      ensures spawned != Some(Started) ==> procs == old(procs) && order == old(order)
      ensures outcome == if spawned == Some(Raised) then LaunchEscaped
                         else RedisDecision(openNow, cfg.dockerExe != "" && dockerExists, readyAt)
    {
      if openNow {
        return AlreadyAvailable, None;
      }
      if cfg.dockerExe == "" || !dockerExists {
        return NoDocker, None;
      }
      var o := StartService("redis_docker", RedisSpec(), poll, launch, now);
      spawned := Some(o);
      if o == Raised {
        return LaunchEscaped, spawned;
      }
      var i := 0;
      while i < RedisProbes && !UpAt(readyAt, i)
        invariant 0 <= i <= RedisProbes
        invariant forall j :: 0 <= j < i ==> !UpAt(readyAt, j)
      {
        i := i + 1;
      }
      assert readyAt.Some? && readyAt.value < i ==> !UpAt(readyAt, readyAt.value);
      if i < RedisProbes {
        outcome := CameUp(i);
      } else {
        outcome := NotReachable;
      }
    }

    /**
     * `start_daphne`: the port-conflict check runs first, but its verdict does not stop the
     * server from being spawned.
     */
    method StartDaphne(probe: PortProbe, poll: Poll, launch: LaunchResult, now: int)
      returns (inUse: bool, outcome: SpawnOutcome)
      requires Valid()
      modifies this
      ensures Valid()
      ensures inUse == (probe.openBefore && (Ports.Listeners(cfg.daphnePort, probe.source) == [] || probe.openAfter))
      ensures outcome == SpawnOutcomeOf(old(Live("daphne", poll)), launch)
      ensures outcome == Started ==>
                Runs("daphne", DaphneSpec(), launch.h, now) && fresh(procs["daphne"]) && Added("daphne", old(procs), old(order))
      ensures outcome != Started ==> procs == old(procs) && order == old(order)
    {
      var attempted;
      inUse, attempted := Ports.CheckPortConflict(cfg.daphnePort, "Daphne", probe.openBefore, probe.openAfter,
                                         probe.source, probe.consent, probe.killOk);
      outcome := StartService("daphne", DaphneSpec(), poll, launch, now);
    }

    /** `start_celery_beat`: the scheduler, restarted automatically. */
    method StartCeleryBeat(poll: Poll, launch: LaunchResult, now: int) returns (outcome: SpawnOutcome)
      requires Valid()
      modifies this
      ensures Valid()
      ensures outcome == SpawnOutcomeOf(old(Live("celery_beat", poll)), launch)
      ensures outcome == Started ==>
                Runs("celery_beat", BeatSpec(), launch.h, now) && fresh(procs["celery_beat"]) && Added("celery_beat", old(procs), old(order))
      ensures outcome != Started ==> procs == old(procs) && order == old(order)
    {
      outcome := StartService("celery_beat", BeatSpec(), poll, launch, now);
    }

    /** `start_celery_worker`: the worker, restarted automatically. */
    method StartCeleryWorker(poll: Poll, launch: LaunchResult, now: int) returns (outcome: SpawnOutcome)
      requires Valid()
      modifies this
      ensures Valid()
      ensures outcome == SpawnOutcomeOf(old(Live("celery_worker", poll)), launch)
      ensures outcome == Started ==>
                Runs("celery_worker", WorkerSpec(), launch.h, now) && fresh(procs["celery_worker"]) && Added("celery_worker", old(procs), old(order))
      ensures outcome != Started ==> procs == old(procs) && order == old(order)
    {
      outcome := StartService("celery_worker", WorkerSpec(), poll, launch, now);
    }

    /** What `start_frontend` decides for the table as it stands. */
    function FrontendGate(probe: PortProbe, poll: Poll, launch: LaunchResult): FrontendGate
      reads this, procs.Values
    {
      var listeners := Ports.Listeners(cfg.frontendPort, probe.source);
      FrontendDecision(Live("frontend", poll), probe.openBefore, listeners,
                       Ports.KillSucceeds(Ports.Dedup(listeners), probe.consent, probe.killOk),
                       probe.openAfter, launch)
    }

    /**
     * `start_frontend`: the gate of `FrontendDecision` (a live managed frontend; an open port
     * with no identified listener; a refused or failed kill; a port still open after the kill),
     * then the dev server.
     */
    method StartFrontend(probe: PortProbe, poll: Poll, launch: LaunchResult, now: int) returns (gate: FrontendGate)
      requires Valid()
      modifies this
      ensures Valid()
      ensures gate == old(FrontendGate(probe, poll, launch))
      ensures gate == Spawned(Started) ==>
                Runs("frontend", FrontendSpec(), launch.h, now) && fresh(procs["frontend"]) &&
                Added("frontend", old(procs), old(order))
      ensures gate != Spawned(Started) ==> procs == old(procs) && order == old(order)
    {
      if Live("frontend", poll) {
        return AlreadyManaged;
      }
      var listeners := Ports.Listeners(cfg.frontendPort, probe.source);
      if probe.openBefore {
        var pids := Ports.FindPidsOnPort(cfg.frontendPort, probe.source);
        assert pids == [] <==> listeners == [] by {
          if listeners != [] {
            assert listeners[0].pid in Ports.Pids(listeners);
          }
        }
        if pids == [] {
          return ListenerUnknown;
        }
        var killed, _ := Ports.PromptKillPids(cfg.frontendPort, pids, "Frontend", probe.consent, probe.killOk);
        if !killed {
          return ConflictNotResolved;
        }
        if probe.openAfter {
          return PortStillInUse;
        }
      }
      var o := StartService("frontend", FrontendSpec(), poll, launch, now);
      gate := Spawned(o);
    }

    /** Whether the start routine of `s` builds a new record now: `_spawn`'s launch, behind the frontend's gate. */
    predicate RebuildsNow(s: Commands.Service, probe: PortProbe, poll: Poll, launch: LaunchResult)
      reads this, procs.Values
    {
      if s == Commands.Frontend then FrontendGate(probe, poll, launch) == Spawned(Started)
      else !Live(Commands.Key(s), poll) && launch.Launched?
    }

    /**
     * The start routine of an automatically restarted service whose key is in the table: the
     * key stays where it is, and the record under it is either left alone or replaced by a new
     * running one with no restarts.
     */
    method Rerun(s: Commands.Service, probe: PortProbe, poll: Poll, launch: LaunchResult, now: int)
      requires Valid() && AutoRestarts(s) && Commands.Key(s) in procs
      modifies this
      ensures Valid()
      ensures procs.Keys == old(procs).Keys && order == old(order)
      ensures forall k :: k in old(procs) && k != Commands.Key(s) ==> procs[k] == old(procs)[k]
      ensures old(RebuildsNow(s, probe, poll, launch)) ==>
                fresh(procs[Commands.Key(s)]) &&
                procs[Commands.Key(s)].View() == ProcView(Some(launch.h), Running, true, 0, None)
      ensures !old(RebuildsNow(s, probe, poll, launch)) ==> procs == old(procs)
    {
      var started: bool;
      match s {
        case Daphne =>
          var _, o := StartDaphne(probe, poll, launch, now);
          started := o == Started;
        case CeleryBeat =>
          var o := StartCeleryBeat(poll, launch, now);
          started := o == Started;
        case CeleryWorker =>
          var o := StartCeleryWorker(poll, launch, now);
          started := o == Started;
        case Frontend =>
          var gate := StartFrontend(probe, poll, launch, now);
          started := gate == Spawned(Started);
      }
      if started {
        AddedAgain(Commands.Key(s), old(procs), old(order));
      }
    }

    /** Adding a key the table already had keeps its keys, their order and the other entries. */
    lemma AddedAgain(key: string, before: map<string, Proc>, beforeOrder: seq<string>)
      requires key in before && Added(key, before, beforeOrder)
      ensures procs.Keys == before.Keys && order == beforeOrder
      ensures forall k :: k in before && k != key ==> procs[k] == before[k]
    {
    }

    /**
     * `_restart_proc`: nothing for a key no longer in the table; otherwise the start routine of
     * the server, the scheduler, the worker or the frontend runs again and builds a new record,
     * whose restart count starts again at zero.
     */
    method RestartProc(key: string, probe: PortProbe, poll: Poll, launch: LaunchResult, now: int)
      returns (dispatched: Option<Commands.Service>)
      requires Valid()
      modifies this
      ensures Valid()
      ensures dispatched == if key in old(procs) then RestartTarget(key) else None
      ensures procs.Keys == old(procs).Keys && order == old(order)
      ensures forall k :: k in old(procs) && k != key ==> procs[k] == old(procs)[k]
      ensures dispatched.Some? && old(RebuildsNow(dispatched.value, probe, poll, launch)) ==>
                fresh(procs[key]) && procs[key].View() == ProcView(Some(launch.h), Running, true, 0, None)
      ensures dispatched.None? || !old(RebuildsNow(dispatched.value, probe, poll, launch)) ==> procs == old(procs)
    {
      if key !in procs {
        return None;
      }
      dispatched := RestartTarget(key);
      if dispatched.Some? {
        RestartTargetsAutoRestart(dispatched.value);
        Rerun(dispatched.value, probe, poll, launch, now);
      }
    }

    // ---------- shutdown ----------

    /** One step of `stop_all`: `_terminate(key)`, seen only through what the shutdown relies on. */
    method StopKey(key: string, poll: Poll, exitAfter: Handle -> Option<nat>) returns (result: StopResult)
      requires Valid()
      modifies this, if key in procs then {procs[key]} else {}
      ensures Valid()
      ensures procs == old(procs) - {key} && order == Without(old(order), key)
      ensures forall k :: k in procs ==> procs[k].View() == old(procs[k].View())
      ensures result == Untracked <==> key !in old(procs)
      ensures key in old(procs) ==> old(procs)[key].status == Stopped
    {
      result := Terminate(key, poll, exitAfter);
    }

    /**
     * Part way through `StopKeys`: the table is `table` without the keys in `done`, in the same
     * order; the records left show `views`, and those under the keys in `done` are STOPPED.
     */
    ghost predicate StoppedSoFar(table: map<string, Proc>, tableOrder: seq<string>, views: map<string, ProcView>,
                                 done: set<string>)
      reads this, procs.Values, table.Values
    {
      procs == table - done && order == Except(tableOrder, done) &&
      (forall k :: k in procs ==> k in views && procs[k].View() == views[k]) &&
      (forall k, k' :: k in table && k' in table && k != k' ==> table[k] != table[k']) &&
      (forall k :: k in table && k in done ==> table[k].status == Stopped)
    }

    /** The step of `StopKeys` for `key`, not yet stopped: the table loses `key` too. */
    method StopNext(key: string, poll: Poll, exitAfter: Handle -> Option<nat>, ghost table: map<string, Proc>,
                    ghost tableOrder: seq<string>, ghost views: map<string, ProcView>, ghost done: set<string>)
      returns (result: StopResult)
      requires Valid() && key !in done && StoppedSoFar(table, tableOrder, views, done)
      modifies this, if key in procs then {procs[key]} else {}
      ensures Valid() && StoppedSoFar(table, tableOrder, views, done + {key})
      ensures result == Untracked <==> key !in table
    {
      RemoveTwice(table, done, key);
      ExceptTwice(tableOrder, done, {key});
      assert forall k :: k in table && k in done ==> key !in procs || table[k] != procs[key];
      result := StopKey(key, poll, exitAfter);
    }

    /**
     * `_terminate` for each of `keys` in turn. Afterwards none of them is in the table and every
     * record that was under one of them is STOPPED.
     */
    method StopKeys(keys: seq<string>, poll: Poll, exitAfter: Handle -> Option<nat>) returns (results: seq<StopResult>)
      requires Valid() && Distinct(keys)
      modifies this, procs.Values
      ensures Valid()
      ensures procs == old(procs) - (set k | k in keys) && order == Except(old(order), set k | k in keys)
      ensures forall k :: k in procs ==> procs[k].View() == old(procs[k].View())
      ensures |results| == |keys|
      ensures forall i :: 0 <= i < |keys| ==> (results[i] == Untracked <==> keys[i] !in old(procs))
      ensures forall k :: k in old(procs) && k in keys ==> old(procs)[k].status == Stopped
    {
      ghost var table, tableOrder, views := procs, order, Views();
      ghost var done: set<string> := {};
      ExceptNothing(tableOrder);
      results := [];
      var i := 0;
      while i < |keys|
        invariant 0 <= i <= |keys|
        invariant done == set k | k in keys[..i]
        invariant Valid() && StoppedSoFar(table, tableOrder, views, done)
        invariant |results| == i
        invariant forall j :: 0 <= j < i ==> (results[j] == Untracked <==> keys[j] !in table)
      {
        var key := keys[i];
        PrefixElements(keys, i);
        var r := StopNext(key, poll, exitAfter, table, tableOrder, views, done);
        results := results + [r];
        done := done + {key};
        i := i + 1;
      }
      assert keys[..i] == keys;
    }

    /** `stop_all`'s worker: `StopKeys` over the fixed stop order. */
    method StopAll(poll: Poll, exitAfter: Handle -> Option<nat>) returns (results: seq<StopResult>)
      requires Valid()
      modifies this, procs.Values
      ensures Valid()
      ensures procs == old(procs) - (set k | k in Commands.StopOrder)
      ensures order == Except(old(order), set k | k in Commands.StopOrder)
      ensures forall k :: k in procs ==> procs[k].View() == old(procs[k].View())
      ensures forall s: Commands.Service :: Commands.Key(s) !in procs
      ensures forall k :: k in old(procs) && k in Commands.StopOrder ==> old(procs)[k].status == Stopped
    {
      Commands.StopOrderDistinct();
      results := StopKeys(Commands.StopOrder, poll, exitAfter);
      forall s: Commands.Service
        ensures Commands.Key(s) !in procs
      {
        Commands.StopOrderCoversEveryService(s);
      }
    }
  }
}
