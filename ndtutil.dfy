/** The supervisor bridge of lib/ndtutil.js: the resolved environment of one application,
    the table of svc control words, the status probe and its classification, and the
    wait-until-down poller. The external svc/svstat processes are replaced by a Supervisor
    object that records every command line it is handed and answers from a script. */
module NdtUtil {
  import opened Js
  import opened Paths

  // ---------------------------------------------------------------------------
  // Application definitions and the resolved environment

  datatype LogDef = LogDef(user: string, command: string)

  /** The contents of a dt.json file. */
  datatype AppDef = AppDef(
    name: string,
    cwd: Path,
    user: string,
    command: string,
    env: Dict<string>,
    log: LogDef)

  /** What `env.app` holds: a falsy value, the empty object `{}` used when no dt.json
      exists, or a complete definition. */
  datatype AppValue = Falsy | Empty | Def(def: AppDef)

  predicate AppTruthy(v: AppValue) {
    !v.Falsy?
  }

  /** `app.name` as it appears inside a string or as an object key. */
  function NameOf(v: AppValue): string {
    if v.Def? then v.def.name else "undefined"
  }

  /** The global options; "" stands for an option that was not given. */
  datatype Program = Program(cwd: Path, bin: Path, service: Path)

  datatype SvcPaths = SvcPaths(bin: Path, folder: Path)

  datatype Env = Env(
    cwd: Path,
    defFile: Path,
    app: AppValue,
    appFolder: Path,
    appLink: Path,
    svc: SvcPaths)

  const DefaultBin: Path := "/usr/bin/svc"
  const DefaultServiceDir: Path := "/service"

  /** `s || fallback` for a string option. */
  function Or(s: string, fallback: string): string {
    if s != "" then s else fallback
  }

  /** getEnv. `definition` is the parsed dt.json of the working directory when that file
      exists; `appOverride` is the registry entry a caller passes, Falsy when none. */
  function GetEnv(program: Program, processCwd: Path, definition: Option<AppValue>,
                  appOverride: AppValue): Env
  {
    var cwd := Or(program.cwd, processCwd);
    var app := if AppTruthy(appOverride) then appOverride
               else if definition.Some? then definition.value
               else Empty;
    var serviceDir := Or(program.service, DefaultServiceDir);
    Env(cwd, Join(cwd, "dt.json"), app, Join(cwd, "dt"),
        Join(serviceDir, NameOf(app)), SvcPaths(Or(program.bin, DefaultBin), serviceDir))
  }

  /** Where getEnv puts things: the definition file and the scaffold folder are the
      children dt.json and dt of the working directory, the supervision link is the
      child of the service directory named after the app; the app is the override when
      it is truthy, else the parsed dt.json, else `{}`; given bin and service options
      are used as they are, and otherwise default to /usr/bin/svc and /service. */
  lemma GetEnvLayout(program: Program, processCwd: Path, definition: Option<AppValue>,
                     appOverride: AppValue)
    requires processCwd != ""
    ensures var e := GetEnv(program, processCwd, definition, appOverride);
      && e.cwd == (if program.cwd != "" then program.cwd else processCwd)
      && Dirname(e.defFile) == e.cwd && BaseName(e.defFile) == "dt.json"
      && Dirname(e.appFolder) == e.cwd && BaseName(e.appFolder) == "dt"
      && (program.bin == "" ==> e.svc.bin == "/usr/bin/svc")
      && (program.service == "" ==> e.svc.folder == "/service")
      && ('/' !in NameOf(e.app) ==> Dirname(e.appLink) == e.svc.folder)
      && (AppTruthy(appOverride) ==> e.app == appOverride)
      && (!AppTruthy(appOverride) && definition.None? ==> e.app == Empty)
      && (!AppTruthy(appOverride) && definition.Some? ==> e.app == definition.value)
      && (program.bin != "" ==> e.svc.bin == program.bin)
      && (program.service != "" ==> e.svc.folder == program.service)
  {
    var e := GetEnv(program, processCwd, definition, appOverride);
    DirnameOfJoin(e.cwd, "dt.json");
    DirnameOfJoin(e.cwd, "dt");
    BaseNameOfJoin(e.cwd, "dt.json");
    BaseNameOfJoin(e.cwd, "dt");
    if '/' !in NameOf(e.app) {
      DirnameOfJoin(e.svc.folder, NameOf(e.app));
    }
  }

  // ---------------------------------------------------------------------------
  // svc control words

  /** The one table of lifecycle words svc understands and the flag each becomes. */
  const SvcFlags: map<string, char> := map[
    "up" := 'u', "down" := 'd', "once" := 'o', "pause" := 'p', "continue" := 'c',
    "hangup" := 'h', "alarm" := 'a', "interrupt" := 'i', "terminate" := 't',
    "kill" := 'k', "exit" := 'x']

  const UnknownAction := "Action is not defined"

  /** svc's command line for a lifecycle word, or the error it throws for any other word. */
  function SvcCommand(env: Env, action: string): Result<string> {
    if action in SvcFlags then Ok(env.svc.bin + " -" + [SvcFlags[action]] + " " + env.appLink)
    else Err(UnknownAction)
  }

  /** Exactly the eleven lifecycle words are accepted; any other word is refused with
      "Action is not defined". */
  lemma SvcCommandAccepts(env: Env, action: string)
    ensures SvcCommand(env, action).Ok? <==>
      action in {"up", "down", "once", "pause", "continue", "hangup", "alarm",
                 "interrupt", "terminate", "kill", "exit"}
    ensures SvcCommand(env, action).Err? ==> SvcCommand(env, action).error == "Action is not defined"
  {
    assert SvcFlags.Keys == {"up", "down", "once", "pause", "continue", "hangup", "alarm",
                             "interrupt", "terminate", "kill", "exit"};
  }

  /** The words the lifecycle actions use map to the svc flags -u, -d, -a and -x. */
  lemma SvcCommandFlags(env: Env)
    ensures SvcCommand(env, "up") == Ok(env.svc.bin + " -u " + env.appLink)
    ensures SvcCommand(env, "down") == Ok(env.svc.bin + " -d " + env.appLink)
    ensures SvcCommand(env, "alarm") == Ok(env.svc.bin + " -a " + env.appLink)
    ensures SvcCommand(env, "exit") == Ok(env.svc.bin + " -x " + env.appLink)
  {
    var bin, link := env.svc.bin, env.appLink;
    assert bin + " -" + ['u'] + " " + link == bin + " -u " + link;
    assert bin + " -" + ['d'] + " " + link == bin + " -d " + link;
    assert bin + " -" + ['a'] + " " + link == bin + " -a " + link;
    assert bin + " -" + ['x'] + " " + link == bin + " -x " + link;
  }

  /** Different words yield different command lines: the flag sits right after `bin -`. */
  lemma SvcCommandInjective(env: Env, action: string, other: string)
    requires SvcCommand(env, action).Ok? && SvcCommand(env, action) == SvcCommand(env, other)
    ensures action == other
  {
    var n := |env.svc.bin| + 2;
    assert SvcCommand(env, action).value[n] == SvcFlags[action];
    assert SvcCommand(env, other).value[n] == SvcFlags[other];
    assert SvcFlags.Keys == {"up", "down", "once", "pause", "continue", "hangup", "alarm",
                             "interrupt", "terminate", "kill", "exit"};
  }

  // ---------------------------------------------------------------------------
  // Status probe

  /** svstat lives next to svc and is run on the supervision link. */
  function StatusCommand(env: Env): string {
    Dirname(env.svc.bin) + "/svstat " + env.appLink
  }

  /** svcStatusWithName's row: the name and the status text with its first newline
      turned into a space, then trimmed. */
  function StatusRow(name: string, text: string): (string, string) {
    (name, Trim(ReplaceFirst(text, '\n', ' ')))
  }

  /** What svcStatusWithName yields for a launch's reply: the row of the joined output,
      or the launch's failure. */
  function StatusResult(name: string, reply: Reply): Result<(string, string)> {
    if reply.Done? then Ok(StatusRow(name, Concat(reply.out))) else Err(reply.reason)
  }

  /** Only the first newline is replaced: a status text with a second newline between
      non-blank parts keeps that newline in its row. */
  lemma StatusRowKeepsSecondNewline(a: string, b: string, c: string)
    requires '\n' !in a && !Blank(a) && !Blank(c)
    ensures StatusRow("", a + "\n" + b + "\n" + c).1 == Trim(a + " " + b + "\n" + c)
    ensures '\n' in StatusRow("", a + "\n" + b + "\n" + c).1
  {
    ReplaceFirstAfter(a, b + "\n" + c);
    assert a + "\n" + b + "\n" + c == a + "\n" + (b + "\n" + c);
    assert a + " " + b + "\n" + c == a + " " + (b + "\n" + c);
    var want := a + " " + b + "\n" + c;
    var i :| 0 <= i < |a| && !IsSpace(a[i]);
    var j :| 0 <= j < |c| && !IsSpace(c[j]);
    var q := |a| + 1 + |b|;
    assert want[i] == a[i];
    assert want[q + 1 + j] == c[j];
    TrimKeepsInterior(want, i, q, q + 1 + j);
  }

  lemma ReplaceFirstAfter(a: string, rest: string)
    requires '\n' !in a
    ensures ReplaceFirst(a + "\n" + rest, '\n', ' ') == a + " " + rest
  {
    var text := a + "\n" + rest;
    IndexOfFirst(text, '\n');
    assert text[|a|] == '\n';
    assert forall i :: 0 <= i < |a| ==> text[i] == a[i];
    assert text[|a| := ' '] == a + " " + rest;
  }

  /** Trimming keeps every character that has a non-whitespace character on each side. */
  lemma TrimKeepsInterior(s: string, i: nat, q: nat, j: nat)
    requires i < q < j < |s| && !IsSpace(s[i]) && !IsSpace(s[j])
    ensures s[q] in Trim(s)
  {
    var t := Trim(s);
    TrimShape(s);
    var x := |s| - |TrimStart(s)|;
    assert t[q - x] == s[q];
  }

  /** svcIsUp's test: the text matches /down/i, in any case and anywhere. */
  predicate ReportsDown(text: string) {
    ContainsDown(text)
  }

  /** The test looks for the word anywhere and in any case: svstat's report for a
      running service that carries a `down` marker file still reads as down. */
  lemma NormallyDownReadsAsDown(link: string, pid: string, seconds: string)
    ensures ReportsDown(link + ": up (pid " + pid + ") " + seconds + " seconds, normally down\n")
    ensures ReportsDown("DOWN") && ReportsDown("Down")
  {
    var s := link + ": up (pid " + pid + ") " + seconds + " seconds, normally down\n";
    var k := |s| - 5;
    assert s[k..k + 4] == "down";
    assert DownAt(s, k);
    assert DownAt("DOWN", 0);
    assert DownAt("Down", 0);
  }

  // ---------------------------------------------------------------------------
  // The supervisor's answers and the wait-until-down poller

  /** What launching a command gives back: its output parts, or a failure. */
  datatype Reply = Done(out: seq<string>) | Failed(reason: string)

  datatype Reading = ReadDown | ReadUp | ReadFailed

  /** How one status check of svcWaitDown ends. */
  function Read(r: Reply): Reading {
    if r.Failed? then ReadFailed
    else if ReportsDown(Concat(r.out)) then ReadDown
    else ReadUp
  }

  /** Stopped: a check saw "down" and the wait resolved. TimedOut: it rejected with
      'Service did not stop'. Hung: a probe failed and nothing settles the wait. */
  datatype Verdict = Stopped | TimedOut | Hung

  datatype WaitRun = WaitRun(verdict: Verdict, checks: nat)

  const DidNotStop := "Service did not stop"

  /** `if(!timeout) timeout = 120`: an absent or zero timeout becomes 120. */
  function EffectiveTimeout(timeout: int): int {
    if timeout == 0 then 120 else timeout
  }

  function Max(a: int, b: int): int {
    if a < b then b else a
  }

  /** The reading of the k-th check of a poll whose first check is answered by script(base). */
  function ReadingAt(script: nat -> Reply, base: nat, k: nat): Reading {
    Read(script(base + k))
  }

  /** The poll, continued after `misses` checks that read up: the next check is
      answered by script(base + misses). */
  function WaitFrom(script: nat -> Reply, base: nat, limit: int, misses: nat): WaitRun
    decreases if limit > misses then limit - misses else 0
  {
    var reading := Read(script(base + misses));
    if reading == ReadFailed then WaitRun(Hung, misses + 1)
    else if reading == ReadDown then WaitRun(Stopped, misses + 1)
    else if misses + 1 > limit then WaitRun(TimedOut, misses + 1)
    else WaitFrom(script, base, limit, misses + 1)
  }

  /** Every check before the last read up; the last one decides: a down reading
      resolves, a failed probe hangs, and an up reading rejects, which happens only at
      check max(1, limit + 1). */
  lemma {:induction false} WaitFromSettles(script: nat -> Reply, base: nat, limit: int, misses: nat)
    requires misses == 0 || misses <= limit
    ensures var w := WaitFrom(script, base, limit, misses);
      && misses < w.checks <= Max(1, limit + 1)
      && (forall k: nat :: misses <= k < w.checks - 1 ==> ReadingAt(script, base, k) == ReadUp)
      && (w.verdict == Stopped <==> ReadingAt(script, base, w.checks - 1) == ReadDown)
      && (w.verdict == Hung <==> ReadingAt(script, base, w.checks - 1) == ReadFailed)
      && (w.verdict == TimedOut ==> w.checks == Max(1, limit + 1))
    decreases if limit > misses then limit - misses else 0
  {
    var reading := Read(script(base + misses));
    if reading == ReadUp && misses + 1 <= limit {
      WaitFromSettles(script, base, limit, misses + 1);
    }
  }

  /** svcWaitDown resolves at the first check that reads down, provided that check
      comes within the bound and every earlier one read up. */
  lemma WaitResolvesAtFirstDown(script: nat -> Reply, base: nat, timeout: int, k: nat)
    requires k < Max(1, EffectiveTimeout(timeout) + 1)
    requires forall j: nat :: j < k ==> ReadingAt(script, base, j) == ReadUp
    requires ReadingAt(script, base, k) == ReadDown
    ensures WaitFrom(script, base, EffectiveTimeout(timeout), 0) == WaitRun(Stopped, k + 1)
  {
    WaitFromSettles(script, base, EffectiveTimeout(timeout), 0);
  }

  /** A service whose status never reads down is given up on after timeout + 1 checks;
      a zero timeout means 121 checks, never one. */
  lemma WaitGivesUpAfterTimeoutPlusOne(script: nat -> Reply, base: nat, timeout: int)
    requires forall j: nat :: j <= Max(0, EffectiveTimeout(timeout)) ==> ReadingAt(script, base, j) == ReadUp
    ensures WaitFrom(script, base, EffectiveTimeout(timeout), 0) ==
            WaitRun(TimedOut, Max(1, EffectiveTimeout(timeout) + 1))
    ensures timeout == 0 ==> WaitFrom(script, base, EffectiveTimeout(timeout), 0).checks == 121
  {
    var limit := EffectiveTimeout(timeout);
    var w := WaitFrom(script, base, limit, 0);
    WaitFromSettles(script, base, limit, 0);
    assert ReadingAt(script, base, w.checks - 1) == ReadUp;
  }

  function Repeat(s: string, n: nat): (r: seq<string>)
    ensures |r| == n && forall i :: 0 <= i < n ==> r[i] == s
  {
    seq(n, _ => s)
  }

  /** The external supervisor as seen through the process launcher: `sent` lists every
      command line launched so far, and the k-th launch is answered by script(k). */
  class Supervisor {
    var sent: seq<string>
    const script: nat -> Reply

    constructor (script: nat -> Reply)
      ensures this.script == script && sent == []
    {
      this.script := script;
      sent := [];
    }

    /** execute: launch one command line. */
    method Execute(command: string) returns (reply: Reply)
      modifies this
      ensures sent == old(sent) + [command]
      ensures reply == script(|old(sent)|)
    {
      reply := script(|sent|);
      sent := sent + [command];
    }

    /** svc: an unknown word throws before anything is launched; a known word launches
        exactly its svc command line. */
    method Svc(env: Env, action: string) returns (r: Result<Reply>)
      modifies this
      ensures SvcCommand(env, action).Err? ==> r == Err(UnknownAction) && sent == old(sent)
      ensures SvcCommand(env, action).Ok? ==>
                r == Ok(script(|old(sent)|)) && sent == old(sent) + [SvcCommand(env, action).value]
    {
      var command := SvcCommand(env, action);
      if command.Err? {
        return Err(UnknownAction);
      }
      var reply := Execute(command.value);
      r := Ok(reply);
    }

    /** svcStatus: run svstat and join its output parts; a failed launch is an error. */
    method Status(env: Env) returns (r: Result<string>)
      modifies this
      ensures sent == old(sent) + [StatusCommand(env)]
      ensures script(|old(sent)|).Done? ==> r == Ok(Concat(script(|old(sent)|).out))
      ensures script(|old(sent)|).Failed? ==> r == Err(script(|old(sent)|).reason)
    {
      var reply := Execute(StatusCommand(env));
      if reply.Failed? {
        return Err(reply.reason);
      }
      r := Ok(Concat(reply.out));
    }

    /** svcStatusWithName. */
    method StatusWithName(name: string, env: Env) returns (r: Result<(string, string)>)
      modifies this
      ensures sent == old(sent) + [StatusCommand(env)]
      ensures r == StatusResult(name, script(|old(sent)|))
    {
      var status := Status(env);
      if status.Err? {
        return Err(status.error);
      }
      r := Ok(StatusRow(name, status.value));
    }

    /** svcIsUp: despite its name, true when the status reads down. */
    method IsUp(env: Env) returns (r: Result<bool>)
      modifies this
      ensures sent == old(sent) + [StatusCommand(env)]
      ensures Read(script(|old(sent)|)) == ReadFailed <==> r.Err?
      ensures r.Ok? ==> (r.value <==> Read(script(|old(sent)|)) == ReadDown)
    {
      var status := Status(env);
      if status.Err? {
        return Err(status.error);
      }
      r := Ok(ReportsDown(status.value));
    }

    /** svcWaitDown: one status check per tick, one one-second delay between
        consecutive checks, and the run the spec function WaitFrom predicts. */
    method WaitDown(env: Env, timeout: int) returns (run: WaitRun, delays: nat)
      modifies this
      ensures run == WaitFrom(script, |old(sent)|, EffectiveTimeout(timeout), 0)
      ensures sent == old(sent) + Repeat(StatusCommand(env), run.checks)
      ensures delays + 1 == run.checks
    {
      var limit := timeout;
      if limit == 0 {
        limit := 120;
      }
      ghost var base := |sent|;
      var i := 0;
      delays := 0;
      while true
        invariant i == 0 || i <= limit
        invariant |sent| == base + i
        invariant sent == old(sent) + Repeat(StatusCommand(env), i)
        invariant WaitFrom(script, base, limit, i) == WaitFrom(script, base, limit, 0)
        invariant delays == i
        decreases if limit > i then limit - i else 0
      {
        var down := IsUp(env);
        if down.Err? {
          return WaitRun(Hung, i + 1), delays;
        }
        if down.value {
          return WaitRun(Stopped, i + 1), delays;
        }
        i := i + 1;
        if i > limit {
          return WaitRun(TimedOut, i), delays;
        }
        delays := delays + 1;
      }
    }
  }
}
