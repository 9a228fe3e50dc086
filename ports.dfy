/**
 * Port-conflict handling of `StackController`: finding who listens on a port
 * (`_find_pids_on_port`, through psutil or by parsing `lsof` output), keeping one entry per pid,
 * asking the operator before killing anything (`_prompt_kill_pids`), and the verdict of
 * `check_port_conflict`. Probes, the process table of the OS and the operator's answer are inputs.
 */
module Ports {
  import opened Wrappers
  import opened Text

  /** One listener: pid, process name and a command-line snippet. */
  datatype Listener = Listener(pid: int, name: string, cmd: string)

  /** What psutil reports of a process: its name and its command line. */
  datatype ProcInfo = ProcInfo(name: string, cmdline: seq<string>)

  /**
   * One entry of `psutil.net_connections(kind='inet')`: the local port (`None` for an empty
   * local address), whether it is in LISTEN state, the owning pid if known, and what looking
   * the process up gave (`None` where `psutil.Process(pid)`, `name()` or `cmdline()` raised).
   */
  datatype Conn = Conn(localPort: Option<int>, listening: bool, pid: Option<int>, info: Option<ProcInfo>)

  /**
   * Where listeners are looked up: psutil when it is installed (`None` when
   * `net_connections` raised), otherwise the text `lsof` printed (`None` when running it raised).
   */
  datatype ListenerSource = Psutil(conns: Option<seq<Conn>>) | Lsof(output: Option<string>)

  /** The operator's side of the kill prompt. */
  datatype Consent =
    | NoRoot             // no Tk root: headless, the conflict is only logged
    | DialogRaised       // the yes/no dialog raised
    | Answered(yes: bool)

  /** The longest command-line snippet kept. */
  const CmdLimit := 300

  function Take(s: string, n: nat): (r: string)
    ensures |r| <= n && |r| <= |s| && r == s[..|r|]
    ensures |s| <= n ==> r == s
  {
    if |s| <= n then s else s[..n]
  }

  // ---------- collecting listeners ----------

  /**
   * What one psutil connection contributes for `port`: a listener exactly when it listens there
   * with a known pid, named after the process and with the first `CmdLimit` characters of its
   * command line, or "unknown" with no command line when the process could not be looked up.
   */
  function PsutilEntry(port: int, c: Conn): (r: Option<Listener>)
    ensures r.Some? <==> ListensOn(port, c)
    ensures r.Some? ==> c.pid == Some(r.value.pid) && |r.value.cmd| <= CmdLimit
    ensures r.Some? && c.info.Some? ==>
              var full := Join(" ", c.info.value.cmdline);
              r.value.name == c.info.value.name &&
              |r.value.cmd| == (if |full| <= CmdLimit then |full| else CmdLimit) && r.value.cmd == full[..|r.value.cmd|]
    ensures r.Some? && c.info.None? ==> r.value.name == "unknown" && r.value.cmd == ""
  {
    if ListensOn(port, c) then
      match c.info
      case Some(i) => Some(Listener(c.pid.value, i.name, Take(Join(" ", i.cmdline), CmdLimit)))
      case None => Some(Listener(c.pid.value, "unknown", ""))
    else None
  }

  /** The listeners psutil reports on `port`, in report order: at most one per connection. */
  function PsutilListeners(port: int, conns: seq<Conn>): (r: seq<Listener>)
    ensures |r| <= |conns|
  {
    if conns == [] then []
    else
      var front := PsutilListeners(port, conns[..|conns| - 1]);
      match PsutilEntry(port, conns[|conns| - 1])
      case Some(l) => front + [l]
      case None => front
  }

  /** Does `c` report a listener on `port` with a known pid? */
  predicate ListensOn(port: int, c: Conn) {
    c.localPort == Some(port) && c.listening && c.pid.Some?
  }

  /** Every psutil listener comes from a listening connection on `port` with a known pid, with at most `CmdLimit` characters of command line. */
  lemma {:induction false} PsutilListenersSound(port: int, conns: seq<Conn>)
    ensures forall l :: l in PsutilListeners(port, conns) ==>
              |l.cmd| <= CmdLimit && exists k :: 0 <= k < |conns| && ListensOn(port, conns[k]) && conns[k].pid == Some(l.pid)
  {
    if conns != [] {
      var n := |conns| - 1;
      var front := conns[..n];
      PsutilListenersSound(port, front);
      var e := PsutilEntry(port, conns[n]);
      assert PsutilListeners(port, conns) == PsutilListeners(port, front) + (if e.Some? then [e.value] else []);
      forall l | l in PsutilListeners(port, conns)
        ensures |l.cmd| <= CmdLimit && exists k :: 0 <= k < |conns| && ListensOn(port, conns[k]) && conns[k].pid == Some(l.pid)
      {
        if l in PsutilListeners(port, front) {
          var k :| 0 <= k < |front| && ListensOn(port, front[k]) && front[k].pid == Some(l.pid);
          assert conns[k] == front[k];
        } else {
          assert e == Some(l);
          assert ListensOn(port, conns[n]);
        }
      }
    }
  }

  /** Every listening connection on `port` with a known pid yields a listener with that pid. */
  lemma {:induction false} PsutilListenersComplete(port: int, conns: seq<Conn>)
    ensures forall k :: 0 <= k < |conns| && ListensOn(port, conns[k]) ==>
              exists l :: l in PsutilListeners(port, conns) && Some(l.pid) == conns[k].pid
  {
    if conns != [] {
      var n := |conns| - 1;
      var front := conns[..n];
      PsutilListenersComplete(port, front);
      var e := PsutilEntry(port, conns[n]);
      assert PsutilListeners(port, conns) == PsutilListeners(port, front) + (if e.Some? then [e.value] else []);
      forall k | 0 <= k < |conns| && ListensOn(port, conns[k])
        ensures exists l :: l in PsutilListeners(port, conns) && Some(l.pid) == conns[k].pid
      {
        if k < n {
          assert conns[k] == front[k];
          var l :| l in PsutilListeners(port, front) && Some(l.pid) == front[k].pid;
          assert l in PsutilListeners(port, conns);
        } else {
          assert e.value in PsutilListeners(port, conns);
        }
      }
    }
  }

  /** One line of `lsof` output: a listener when it has two fields and the second is all digits. */
  function LsofEntry(line: string): (r: Option<Listener>)
    ensures r.Some? ==> |Fields(line)| >= 2 && IsDigits(Fields(line)[1]) &&
                        r.value == Listener(DecimalValue(Fields(line)[1]), Fields(line)[0], "")
    ensures r.None? ==> |Fields(line)| < 2 || !IsDigits(Fields(line)[1])
  {
    var parts := Fields(line);
    if |parts| >= 2 && IsDigits(parts[1]) then Some(Listener(DecimalValue(parts[1]), parts[0], ""))
    else None
  }

  /**
   * The listeners parsed from the lines of `lsof` output after its header line: at most one
   * per line, none with a command line.
   */
  function LsofListeners(lines: seq<string>): (r: seq<Listener>)
    ensures |r| <= |lines|
    ensures forall k :: 0 <= k < |r| ==> r[k].cmd == ""
  {
    if lines == [] then []
    else
      var front := LsofListeners(lines[..|lines| - 1]);
      match LsofEntry(lines[|lines| - 1])
      case Some(l) => front + [l]
      case None => front
  }

  /** The lines of `lsof` output after its header line. */
  function LsofBody(out: string): seq<string> {
    var lines := SplitLines(out);
    if lines == [] then [] else lines[1..]
  }

  /**
   * The listeners in the text `lsof` printed: one for each line after the header whose second
   * field is a pid, and nothing else; none of them carries a command line.
   */
  function LsofOutput(out: string): (r: seq<Listener>)
    ensures forall l :: l in r ==> l.cmd == "" && l.pid >= 0
    ensures forall l :: l in r ==> exists line :: line in LsofBody(out) && LsofEntry(line) == Some(l)
    ensures forall line :: line in LsofBody(out) && LsofEntry(line).Some? ==> LsofEntry(line).value in r
  {
    LsofListenersSound(LsofBody(out));
    LsofListenersComplete(LsofBody(out));
    LsofListeners(LsofBody(out))
  }

  /**
   * Every listener `_find_pids_on_port` collects before de-duplication, in order: none when the
   * lookup raised; from psutil, only processes listening on `port`; from `lsof`, no command lines.
   */
  function Listeners(port: int, source: ListenerSource): (r: seq<Listener>)
    ensures source == Psutil(None) || source == Lsof(None) ==> r == []
    ensures forall l :: l in r ==> |l.cmd| <= CmdLimit
    ensures source.Psutil? && source.conns.Some? ==>
              var conns := source.conns.value;
              forall l :: l in r ==>
                exists k :: 0 <= k < |conns| && ListensOn(port, conns[k]) && conns[k].pid == Some(l.pid)
    ensures source.Lsof? ==> forall l :: l in r ==> l.cmd == ""
  {
    match source
    case Psutil(None) => []
    case Psutil(Some(conns)) =>
      PsutilListenersSound(port, conns);
      PsutilListeners(port, conns)
    case Lsof(None) => []
    case Lsof(Some(out)) => LsofOutput(out)
  }

  /** The first line of `lsof` output is its column header and contributes nothing. */
  lemma LsofSkipsHeader(header: string, body: string)
    requires NoLineBreak(header)
    ensures LsofOutput(header + "\n" + body) == LsofListeners(SplitLines(body))
  {
    SplitLinesFirst(header, body);
    assert ([header] + SplitLines(body))[1..] == SplitLines(body);
  }

  /** Every parsed listener comes from a line whose second field is a pid. */
  lemma {:induction false} LsofListenersSound(lines: seq<string>)
    ensures forall l :: l in LsofListeners(lines) ==> exists line :: line in lines && LsofEntry(line) == Some(l)
  {
    if lines != [] {
      var front, last := lines[..|lines| - 1], lines[|lines| - 1];
      LsofListenersSound(front);
      forall l | l in LsofListeners(lines)
        ensures exists line :: line in lines && LsofEntry(line) == Some(l)
      {
        if l in LsofListeners(front) {
          var line :| line in front && LsofEntry(line) == Some(l);
          assert line in lines;
        } else {
          assert LsofEntry(last) == Some(l);
        }
      }
    }
  }

  /** Every line whose second field is a pid yields its listener. */
  lemma {:induction false} LsofListenersComplete(lines: seq<string>)
    ensures forall line :: line in lines && LsofEntry(line).Some? ==> LsofEntry(line).value in LsofListeners(lines)
  {
    if lines != [] {
      var front, last := lines[..|lines| - 1], lines[|lines| - 1];
      LsofListenersComplete(front);
      assert lines == front + [last];
    }
  }

  // ---------- de-duplication by pid ----------

  /** The pids of `s`, in order. */
  function Pids(s: seq<Listener>): (r: seq<int>)
    ensures |r| == |s| && forall i :: 0 <= i < |s| ==> r[i] == s[i].pid
  {
    seq(|s|, i requires 0 <= i < |s| => s[i].pid)
  }

  predicate DistinctPids(s: seq<Listener>) {
    forall i, j :: 0 <= i < j < |s| ==> s[i].pid != s[j].pid
  }

  /** Index `i` holds the first entry of `s` with its pid. */
  predicate FirstOfPid(s: seq<Listener>, i: int) {
    0 <= i < |s| && forall k :: 0 <= k < i ==> s[k].pid != s[i].pid
  }

  /** The de-duplication of `_find_pids_on_port`: the first entry per pid, in order. */
  function Dedup(s: seq<Listener>): (r: seq<Listener>)
    ensures forall p :: p in Pids(r) <==> p in Pids(s)
    ensures DistinctPids(r)
    ensures |r| <= |s|
  {
    if s == [] then []
    else
      var front := s[..|s| - 1];
      var last := s[|s| - 1];
      assert Pids(s) == Pids(front) + [last.pid];
      var d := Dedup(front);
      if last.pid in Pids(front) then d
      else
        var r := d + [last];
        assert Pids(r) == Pids(d) + [last.pid];
        r
  }

  /** Appending one entry keeps the first entries of the prefix and adds itself if its pid is new. */
  lemma FirstOfPidExtend(s: seq<Listener>)
    requires s != []
    ensures forall i :: 0 <= i < |s| - 1 ==> (FirstOfPid(s[..|s| - 1], i) <==> FirstOfPid(s, i))
    ensures FirstOfPid(s, |s| - 1) <==> s[|s| - 1].pid !in Pids(s[..|s| - 1])
  {
    var front := s[..|s| - 1];
    if s[|s| - 1].pid in Pids(front) {
      var k :| 0 <= k < |front| && Pids(front)[k] == s[|s| - 1].pid;
      assert s[k].pid == s[|s| - 1].pid;
    }
  }

  /**
   * The de-duplicated list is exactly the first entries per pid of the input, in input order:
   * `idx` gives, for each kept entry, its strictly increasing position in the input.
   */
  lemma {:induction false} DedupKeepsFirst(s: seq<Listener>) returns (idx: seq<int>)
    ensures |idx| == |Dedup(s)|
    ensures forall j :: 0 <= j < |idx| ==> FirstOfPid(s, idx[j]) && Dedup(s)[j] == s[idx[j]]
    ensures forall j, j' :: 0 <= j < j' < |idx| ==> idx[j] < idx[j']
    ensures forall i :: FirstOfPid(s, i) ==> i in idx
  {
    if s == [] {
      idx := [];
    } else {
      var n := |s| - 1;
      var front := s[..n];
      var idx0 := DedupKeepsFirst(front);
      FirstOfPidExtend(s);
      if s[n].pid in Pids(front) {
        idx := idx0;
        assert Dedup(s) == Dedup(front);
      } else {
        idx := idx0 + [n];
        assert Dedup(s) == Dedup(front) + [s[n]];
      }
    }
  }

  /** A list whose pids are already distinct is left as it is. */
  lemma {:induction false} DedupOfDistinct(s: seq<Listener>)
    requires DistinctPids(s)
    ensures Dedup(s) == s
  {
    if s != [] {
      var front := s[..|s| - 1];
      DedupOfDistinct(front);
      assert s[|s| - 1].pid !in Pids(front);
      assert front + [s[|s| - 1]] == s;
    }
  }

  /** The psutil loop of `_find_pids_on_port`. */
  method CollectPsutil(port: int, conns: seq<Conn>) returns (results: seq<Listener>)
    ensures results == PsutilListeners(port, conns)
  {
    results := [];
    var i := 0;
    while i < |conns|
      invariant 0 <= i <= |conns|
      invariant results == PsutilListeners(port, conns[..i])
    {
      assert conns[..i + 1][..i] == conns[..i];
      var entry := PsutilEntry(port, conns[i]);
      if entry.Some? {
        results := results + [entry.value];
      }
      i := i + 1;
    }
    assert conns[..i] == conns;
  }

  /** The `lsof` fallback loop of `_find_pids_on_port`: every line after the header. */
  method CollectLsof(out: string) returns (results: seq<Listener>)
    ensures results == LsofOutput(out)
  {
    results := [];
    var lines := SplitLines(out);
    if lines != [] {
      var body := lines[1..];
      var i := 0;
      while i < |body|
        invariant 0 <= i <= |body|
        invariant results == LsofListeners(body[..i])
      {
        assert body[..i + 1][..i] == body[..i];
        var entry := LsofEntry(body[i]);
        if entry.Some? {
          results := results + [entry.value];
        }
        i := i + 1;
      }
      assert body[..i] == body;
    }
  }

  /** The de-duplication loop of `_find_pids_on_port`, with its `seen` set. */
  method DedupByPid(results: seq<Listener>) returns (uniq: seq<Listener>)
    ensures uniq == Dedup(results)
    ensures DistinctPids(uniq)
    ensures forall p :: p in Pids(uniq) <==> p in Pids(results)
  {
    var seen: set<int> := {};
    uniq := [];
    var i := 0;
    while i < |results|
      invariant 0 <= i <= |results|
      invariant uniq == Dedup(results[..i])
      invariant forall p :: p in seen <==> p in Pids(results[..i])
    {
      var l := results[i];
      assert results[..i + 1][..i] == results[..i];
      assert Pids(results[..i + 1]) == Pids(results[..i]) + [l.pid];
      if l.pid !in seen {
        uniq := uniq + [l];
        seen := seen + {l.pid};
      }
      i := i + 1;
    }
    assert results[..i] == results;
  }

  /** `_find_pids_on_port`: collect the listeners on `port`, then keep the first entry per pid. */
  method FindPidsOnPort(port: int, source: ListenerSource) returns (uniq: seq<Listener>)
    ensures uniq == Dedup(Listeners(port, source))
    ensures DistinctPids(uniq)
    ensures forall p :: p in Pids(uniq) <==> p in Pids(Listeners(port, source))
  {
    var results: seq<Listener> := [];
    match source {
      case Psutil(None) =>
      case Psutil(Some(conns)) =>
        results := CollectPsutil(port, conns);
      case Lsof(None) =>
      case Lsof(Some(out)) =>
        results := CollectLsof(out);
    }
    uniq := DedupByPid(results);
  }

  // ---------- asking before killing ----------

  /** The operator agreed to the kill. */
  predicate Consented(consent: Consent) {
    consent == Answered(true)
  }

  /** `_prompt_kill_pids` reports success: consent was given and at least one kill went through. */
  predicate KillSucceeds(pids: seq<Listener>, consent: Consent, killOk: int -> bool) {
    pids != [] && Consented(consent) && exists i :: 0 <= i < |pids| && killOk(pids[i].pid)
  }

  /**
   * `_prompt_kill_pids`: nothing is killed for an empty list, headless, on a failed dialog or on
   * "no"; after a "yes" every listed pid gets a kill attempt, in order. `killOk(pid)` tells
   * whether that attempt (terminate, bounded wait, forced kill) went through without raising.
   */
  method PromptKillPids(port: int, pids: seq<Listener>, serviceName: string, consent: Consent, killOk: int -> bool)
    returns (killedAny: bool, attempted: seq<int>)
    ensures !(pids != [] && Consented(consent)) ==> attempted == []
    ensures pids != [] && Consented(consent) ==> attempted == Pids(pids)
    ensures killedAny == KillSucceeds(pids, consent, killOk)
  {
    if pids == [] {
      return false, [];
    }
    var answer := match consent case Answered(yes) => yes case NoRoot => false case DialogRaised => false;
    if !answer {
      return false, [];
    }
    killedAny, attempted := false, [];
    var i := 0;
    while i < |pids|
      invariant 0 <= i <= |pids|
      invariant attempted == Pids(pids[..i])
      invariant killedAny <==> exists k :: 0 <= k < i && killOk(pids[k].pid)
    {
      assert Pids(pids[..i + 1]) == Pids(pids[..i]) + [pids[i].pid];
      attempted := attempted + [pids[i].pid];
      if killOk(pids[i].pid) {
        killedAny := true;
      }
      i := i + 1;
    }
    assert pids[..i] == pids;
  }

  /**
   * `check_port_conflict`: true when the port stays in use. A closed port is no conflict; an open
   * port with no identified listener is one; otherwise, after the prompt, the re-probe decides.
   * `openBefore` and `openAfter` are the two TCP probes.
   */
  method CheckPortConflict(port: int, serviceName: string, openBefore: bool, openAfter: bool,
                           source: ListenerSource, consent: Consent, killOk: int -> bool)
    returns (inUse: bool, attempted: seq<int>)
    ensures inUse == (openBefore && (Listeners(port, source) == [] || openAfter))
    ensures attempted != [] ==> openBefore && Consented(consent) && Listeners(port, source) != []
    ensures attempted == if openBefore && Listeners(port, source) != [] && Consented(consent)
                         then Pids(Dedup(Listeners(port, source))) else []
  {
    attempted := [];
    if openBefore {
      var pids := FindPidsOnPort(port, source);
      assert pids == [] <==> Listeners(port, source) == [] by {
        if Listeners(port, source) != [] {
          assert Listeners(port, source)[0].pid in Pids(Listeners(port, source));
        }
      }
      if pids != [] {
        var _, att := PromptKillPids(port, pids, serviceName, consent, killOk);
        attempted := att;
        return openAfter, attempted;
      }
      return true, attempted;
    }
    return false, attempted;
  }
}
