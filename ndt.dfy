/** The orchestration logic of lib/ndt.js: normalising an action's result for the
    `all` table, the macro allow-list, saving and unsaving registry entries, the
    fan-out of `list` and `all` over the registry in key order, `generate`'s parsing
    of environment lines and its default definition, and the `<app> [action]`
    dispatch. */
module Ndt {
  import opened Js
  import opened Paths
  import opened NdtUtil
  import opened Registry

  // ---------------------------------------------------------------------------
  // actionWithName

  /** The text an action's resolved value is shown as: arrays are joined with spaces,
      a falsy value becomes '', and anything that is not a string is inspected. */
  function Shown(result: JsValue): (shown: string)
    ensures result.Str? && Truthy(result) ==> shown == result.s
    ensures result.Arr? && JoinWith(result.items, " ") != "" ==> shown == JoinWith(result.items, " ")
    ensures !Truthy(result) || (result.Arr? && JoinWith(result.items, " ") == "") ==> shown == ""
    ensures (result.Bool? || result.Num? || result.Obj?) && Truthy(result) ==> shown == Inspect(result)
  {
    var joined := if result.Arr? then Str(JoinWith(result.items, " ")) else result;
    var truthy := if Truthy(joined) then joined else Str("");
    if truthy.Str? then truthy.s else Inspect(truthy)
  }

  /** A blank text is replaced by 'Success', so the result is never blank. */
  function SuccessIfBlank(shown: string): (text: string)
    ensures !Blank(text)
    ensures Blank(shown) ==> text == "Success"
    ensures !Blank(shown) ==> text == shown
  {
    assert !IsSpace("Success"[0]);
    TrimShape(shown);
    if Trim(shown) == "" then "Success" else shown
  }

  /** The text that stands for an action's resolved value in the `all` table. */
  function ResultText(result: JsValue): (text: string)
    ensures !Blank(text)
  {
    SuccessIfBlank(Shown(result))
  }

  /** A non-blank string is kept as it is, an array whose joined text is not blank
      becomes that text, any other truthy value reads as its inspection (`true` reads
      'true'), and every falsy value reads 'Success', as does a blank string or an empty array. */
  lemma ResultTextCases(result: JsValue)
    ensures result.Str? && !Blank(result.s) ==> ResultText(result) == result.s
    ensures result.Arr? && !Blank(JoinWith(result.items, " ")) ==>
              ResultText(result) == JoinWith(result.items, " ")
    ensures !Truthy(result) ==> ResultText(result) == "Success"
    ensures result.Str? && Blank(result.s) ==> ResultText(result) == "Success"
    ensures result == Arr([]) ==> ResultText(result) == "Success"
    ensures (result.Bool? || result.Num? || result.Obj?) && Truthy(result) && !Blank(Inspect(result)) ==>
              ResultText(result) == Inspect(result)
    ensures result == Bool(true) ==> ResultText(result) == "true"
  {
    assert Blank("");
    assert !IsSpace("true"[0]) && !Blank("true");
    if result.Str? {
      assert !Blank(result.s) ==> result.s != "";
    } else if result.Arr? {
      assert !Blank(JoinWith(result.items, " ")) ==> JoinWith(result.items, " ") != "";
    }
  }

  /** actionWithName: the action's outcome with a resolved value turned into
      `[name, text]`; a rejection or a pending action passes through. */
  function ActionWithName(name: string, outcome: Settled<JsValue>): (r: Settled<(string, string)>)
    ensures r.Resolved? <==> outcome.Resolved?
    ensures r.Resolved? ==> r.value == (name, ResultText(outcome.value)) && !Blank(r.value.1)
    ensures outcome.Rejected? ==> r == Rejected(outcome.reason)
    ensures outcome.Pending? ==> r == Pending
  {
    match outcome
    case Resolved(v) => Resolved((name, ResultText(v)))
    case Rejected(reason) => Rejected(reason)
    case Pending => Pending
  }

  // ---------------------------------------------------------------------------
  // The macro allow-list

  /** The actions `all` accepts, in the order and spelling of the source. */
  const AllowedMacroActions: seq<string> := [
    "start", "restart", "status", "stop", "once", "pause", "continue",
    "hangup", "alaram", "interrupt", "kill", "exit"]

  /** The keys of lib/actions/index.js: the names `actions[name]` can run. */
  const ActionModules: set<string> := {
    "alarm", "continue", "exit", "hangup", "install", "interrupt", "kill", "once",
    "pause", "restart", "start", "status", "stop"}

  function MacroNotAllowed(action: string): string {
    "Macro action not allowed: " + action
  }

  /** What calling `actions[name]` throws when the name has no action module. */
  function NotAFunction(action: string): string {
    "TypeError: actions[action] is not a function (" + action + ")"
  }

  /** The allow-list's spelling: 'alarm' is refused while the misspelt 'alaram' passes
      though no action module carries that name; install, remove, save, generate and
      terminate are refused; every other allowed word names an action module. */
  lemma AllowListSpelling()
    ensures "alarm" !in AllowedMacroActions && "alaram" in AllowedMacroActions
    ensures "alaram" !in ActionModules
    ensures forall w :: w in ["install", "remove", "save", "unsave", "generate", "terminate"] ==>
              w !in AllowedMacroActions
    ensures forall w :: w in AllowedMacroActions && w != "alaram" ==> w in ActionModules
  {
  }

  // ---------------------------------------------------------------------------
  // save and unsave

  /** save's update: the entry named after the app becomes the app; no other entry changes. */
  function SaveApp(apps: Dict<AppValue>, app: AppValue): (r: Dict<AppValue>)
    ensures NameOf(app) in r.vals && r.vals[NameOf(app)] == app
    ensures forall k :: k != NameOf(app) ==>
              (k in r.vals <==> k in apps.vals) && (k in apps.vals ==> r.vals[k] == apps.vals[k])
    ensures NameOf(app) in apps.vals ==> r.keys == apps.keys
  {
    Put(apps, NameOf(app), app)
  }

  /** unsave's update: the entry named after the app is gone; no other entry changes
      and the remaining keys keep their order. */
  function UnsaveApp(apps: Dict<AppValue>, app: AppValue): (r: Dict<AppValue>)
    ensures NameOf(app) !in r.vals
    ensures forall k :: k != NameOf(app) ==>
              (k in r.vals <==> k in apps.vals) && (k in apps.vals ==> r.vals[k] == apps.vals[k])
    ensures r.keys == Without(apps.keys, NameOf(app))
  {
    Remove(apps, NameOf(app))
  }

  /** unsave undoes save: saving then unsaving an app leaves the registry as unsaving
      alone would, and exactly as it was when the app had not been saved before. */
  lemma UnsaveUndoesSave(apps: Dict<AppValue>, app: AppValue)
    ensures UnsaveApp(SaveApp(apps, app), app) == UnsaveApp(apps, app)
    ensures NameOf(app) !in apps.vals ==> UnsaveApp(SaveApp(apps, app), app) == apps
  {
    RemoveAfterPut(apps, NameOf(app), app);
    if NameOf(app) !in apps.vals {
      WithoutAbsent(apps.keys, NameOf(app));
    }
  }

  /** The registry document as dbGet hands it over. */
  function Loaded(file: Option<Db>, now: int): Db {
    if file.Some? then file.value else Fresh(now)
  }

  /** save: read the registry, set the entry named after the app, write it back stamped. */
  method Save(store: Store, env: Env, readAt: int, savedAt: int) returns (saved: Db)
    modifies store
    ensures var db := Loaded(old(store.file), readAt);
      saved == Db(SaveApp(db.apps, env.app), db.createdAt, savedAt) && store.file == Some(saved)
  {
    var db := store.Get(readAt);
    var apps := SaveApp(db.apps, env.app);
    saved := store.Save(db.(apps := apps), savedAt);
  }

  /** unsave: read the registry, delete the entry named after the app, write it back stamped. */
  method Unsave(store: Store, env: Env, readAt: int, savedAt: int) returns (saved: Db)
    modifies store
    ensures var db := Loaded(old(store.file), readAt);
      saved == Db(UnsaveApp(db.apps, env.app), db.createdAt, savedAt) && store.file == Some(saved)
  {
    var db := store.Get(readAt);
    var apps := UnsaveApp(db.apps, env.app);
    saved := store.Save(db.(apps := apps), savedAt);
  }

  // ---------------------------------------------------------------------------
  // Fan-out over the registry

  /** P.all over outcomes listed in registry key order: the first rejection rejects
      the whole, otherwise a pending entry leaves the whole pending, otherwise the
      whole resolves with every value in order. */
  function AllSettled<T>(outcomes: seq<Settled<T>>): (r: Settled<seq<T>>)
    ensures r.Resolved? <==> forall i :: 0 <= i < |outcomes| ==> outcomes[i].Resolved?
    ensures r.Resolved? ==>
              |r.value| == |outcomes| && forall i :: 0 <= i < |outcomes| ==> r.value[i] == outcomes[i].value
    ensures r.Rejected? <==> exists i :: 0 <= i < |outcomes| && outcomes[i].Rejected?
    ensures r.Rejected? ==>
              exists i :: 0 <= i < |outcomes| && outcomes[i] == Rejected(r.reason) &&
                          forall j :: 0 <= j < i ==> !outcomes[j].Rejected?
  {
    if outcomes == [] then Resolved([])
    else if outcomes[0].Rejected? then Rejected(outcomes[0].reason)
    else
      var rest := AllSettled(outcomes[1..]);
      assert forall i :: 1 <= i < |outcomes| ==> outcomes[i] == outcomes[1..][i - 1];
      if rest.Rejected? then
        var i :| 0 <= i < |outcomes[1..]| && outcomes[1..][i] == Rejected(rest.reason) &&
                 forall j :: 0 <= j < i ==> !outcomes[1..][j].Rejected?;
        assert outcomes[i + 1] == Rejected(rest.reason);
        rest
      else if outcomes[0].Pending? || rest.Pending? then Pending
      else Resolved([outcomes[0].value] + rest.value)
  }

  lemma AppendAssoc<T>(a: seq<T>, b: seq<T>, c: seq<T>)
    ensures a + (b + c) == (a + b) + c
  {
  }

  /** Every registry key has an application: what db.apps always satisfies. */
  predicate AppsListed(keys: seq<string>, vals: map<string, AppValue>) {
    forall j :: 0 <= j < |keys| ==> keys[j] in vals
  }

  /** The application stored under the i-th registry key. */
  function EntryAt(keys: seq<string>, vals: map<string, AppValue>, i: nat): AppValue
    requires i < |keys| && keys[i] in vals
  {
    vals[keys[i]]
  }

  /** The environment an entry is operated in: getEnv with the entry as override. */
  function EntryEnv(program: Program, processCwd: Path, definition: Option<AppValue>,
                    keys: seq<string>, vals: map<string, AppValue>, i: nat): Env
    requires i < |keys| && keys[i] in vals
  {
    GetEnv(program, processCwd, definition, EntryAt(keys, vals, i))
  }

  /** How svcStatusWithName settles on a launch's reply. */
  function StatusOutcome(name: string, reply: Reply): Settled<(string, string)> {
    Settle(StatusResult(name, reply))
  }

  /** A promise for a status row that fulfils with r's value or rejects with its error. */
  function Settle(r: Result<(string, string)>): Settled<(string, string)> {
    if r.Ok? then Resolved(r.value) else Rejected(r.error)
  }


  /** The status probes listDatabase launches for the first n entries, in key order. */
  function ListProbes(program: Program, processCwd: Path, definition: Option<AppValue>,
                      keys: seq<string>, vals: map<string, AppValue>, n: nat): (probes: seq<string>)
    requires n <= |keys| && AppsListed(keys, vals)
    ensures |probes| == n
  {
    if n == 0 then []
    else ListProbes(program, processCwd, definition, keys, vals, n - 1) +
         [StatusCommand(EntryEnv(program, processCwd, definition, keys, vals, n - 1))]
  }

  /** Probe i of listDatabase is the status command under entry i's own environment. */
  lemma {:induction false} ListProbesAt(program: Program, processCwd: Path, definition: Option<AppValue>,
                                        keys: seq<string>, vals: map<string, AppValue>, n: nat, i: nat)
    requires i < n <= |keys| && AppsListed(keys, vals)
    ensures ListProbes(program, processCwd, definition, keys, vals, n)[i] ==
            StatusCommand(EntryEnv(program, processCwd, definition, keys, vals, i))
  {
    if i < n - 1 {
      ListProbesAt(program, processCwd, definition, keys, vals, n - 1, i);
    }
  }

  /** The rows listDatabase gathers for the first n entries when its probes are answered
      from launch `base` on. */
  function ListOutcomes(keys: seq<string>, vals: map<string, AppValue>, script: nat -> Reply,
                        base: nat, n: nat): (outcomes: seq<Settled<(string, string)>>)
    requires n <= |keys| && AppsListed(keys, vals)
    ensures |outcomes| == n
  {
    if n == 0 then []
    else ListOutcomes(keys, vals, script, base, n - 1) +
         [StatusOutcome(NameOf(EntryAt(keys, vals, n - 1)), script(base + n - 1))]
  }

  /** Row i of listDatabase is named after entry i's app and settles as launch base + i did. */
  lemma {:induction false} ListOutcomesAt(keys: seq<string>, vals: map<string, AppValue>,
                                          script: nat -> Reply, base: nat, n: nat, i: nat)
    requires i < n <= |keys| && AppsListed(keys, vals)
    ensures ListOutcomes(keys, vals, script, base, n)[i] ==
            StatusOutcome(NameOf(EntryAt(keys, vals, i)), script(base + i))
  {
    if i < n - 1 {
      ListOutcomesAt(keys, vals, script, base, n - 1, i);
    }
  }

  /** One iteration of listDatabase: the status of entry i, under its own environment,
      extends the probes and the rows by one. */
  method ProbeEntry(sv: Supervisor, keys: seq<string>, vals: map<string, AppValue>, i: nat,
                    program: Program, processCwd: Path, definition: Option<AppValue>,
                    ghost start: seq<string>)
    returns (o: Settled<(string, string)>)
    requires i < |keys| && AppsListed(keys, vals)
    requires sv.sent == start + ListProbes(program, processCwd, definition, keys, vals, i)
    modifies sv
    ensures sv.sent == start + ListProbes(program, processCwd, definition, keys, vals, i + 1)
    ensures ListOutcomes(keys, vals, sv.script, |start|, i + 1) ==
            ListOutcomes(keys, vals, sv.script, |start|, i) + [o]
  {
    var app := vals[keys[i]];
    var env := GetEnv(program, processCwd, definition, app);
    ghost var probes := ListProbes(program, processCwd, definition, keys, vals, i);
    var row := sv.StatusWithName(NameOf(app), env);
    AppendAssoc(start, probes, [StatusCommand(env)]);
    o := Settle(row);
    assert o == StatusOutcome(NameOf(app), sv.script(|start| + i));
  }

  /** The loop of listDatabase: one status probe per entry, issued in key order. */
  method ProbeEntries(sv: Supervisor, keys: seq<string>, vals: map<string, AppValue>,
                      program: Program, processCwd: Path, definition: Option<AppValue>)
    returns (outcomes: seq<Settled<(string, string)>>)
    requires AppsListed(keys, vals)
    modifies sv
    ensures sv.sent == old(sv.sent) + ListProbes(program, processCwd, definition, keys, vals, |keys|)
    ensures outcomes == ListOutcomes(keys, vals, sv.script, |old(sv.sent)|, |keys|)
  {
    ghost var start := sv.sent;
    outcomes := [];
    var i := 0;
    while i < |keys|
      invariant 0 <= i <= |keys|
      invariant sv.sent == start + ListProbes(program, processCwd, definition, keys, vals, i)
      invariant outcomes == ListOutcomes(keys, vals, sv.script, |start|, i)
    {
      var o := ProbeEntry(sv, keys, vals, i, program, processCwd, definition, start);
      outcomes := outcomes + [o];
      i := i + 1;
    }
  }

  /** listDatabase: one status probe per registry entry, issued in key order, and
      P.all over the `[name, status]` rows. */
  method ListDatabase(sv: Supervisor, db: Db, program: Program, processCwd: Path,
                      definition: Option<AppValue>) returns (r: Settled<seq<(string, string)>>)
    modifies sv
    ensures AppsListed(db.apps.keys, db.apps.vals)
    ensures sv.sent == old(sv.sent) +
              ListProbes(program, processCwd, definition, db.apps.keys, db.apps.vals, |db.apps.keys|)
    ensures r == AllSettled(ListOutcomes(db.apps.keys, db.apps.vals, sv.script, |old(sv.sent)|,
                                         |db.apps.keys|))
  {
    var outcomes := ProbeEntries(sv, db.apps.keys, db.apps.vals, program, processCwd, definition);
    r := AllSettled(outcomes);
  }

  /** The per-entry outcomes of `all`: actionWithName over each entry in key order.
      `perform` stands for the action modules, whose code is not part of this model. */
  function AllJobs(keys: seq<string>, vals: map<string, AppValue>, action: string, program: Program,
                   processCwd: Path, definition: Option<AppValue>,
                   perform: (string, Env) -> Settled<JsValue>): (jobs: seq<Settled<(string, string)>>)
    requires AppsListed(keys, vals)
    ensures |jobs| == |keys|
    ensures forall i :: 0 <= i < |jobs| ==>
              jobs[i] == ActionWithName(NameOf(EntryAt(keys, vals, i)),
                                        perform(action, EntryEnv(program, processCwd, definition, keys, vals, i)))
  {
    seq(|keys|, i requires 0 <= i < |keys| =>
      ActionWithName(NameOf(EntryAt(keys, vals, i)),
                     perform(action, EntryEnv(program, processCwd, definition, keys, vals, i))))
  }

  /** The loop of `all` for an action that has a module: every entry runs it, in key order. */
  method RunEntries(keys: seq<string>, vals: map<string, AppValue>, action: string, program: Program,
                    processCwd: Path, definition: Option<AppValue>,
                    perform: (string, Env) -> Settled<JsValue>)
    returns (outcomes: seq<Settled<(string, string)>>)
    requires AppsListed(keys, vals)
    ensures outcomes == AllJobs(keys, vals, action, program, processCwd, definition, perform)
  {
    ghost var jobs := AllJobs(keys, vals, action, program, processCwd, definition, perform);
    outcomes := [];
    var i := 0;
    while i < |keys|
      invariant 0 <= i <= |keys|
      invariant outcomes == jobs[..i]
    {
      var app := vals[keys[i]];
      var env := GetEnv(program, processCwd, definition, app);
      outcomes := outcomes + [ActionWithName(NameOf(app), perform(action, env))];
      assert jobs[..i + 1] == jobs[..i] + [jobs[i]];
      i := i + 1;
    }
    assert jobs[..i] == jobs;
  }

  /** The `all` handler once the registry is read: a word off the allow-list is refused
      before any entry is touched; an allowed word with no action module throws on the
      first entry (so only an empty registry gets through); otherwise every entry runs
      the action, in key order, under P.all. */
  method All(db: Db, action: string, program: Program, processCwd: Path,
             definition: Option<AppValue>, perform: (string, Env) -> Settled<JsValue>)
    returns (r: Settled<seq<(string, string)>>)
    ensures action !in AllowedMacroActions ==> r == Rejected(MacroNotAllowed(action))
    ensures action in AllowedMacroActions && action !in ActionModules ==>
              r == (if db.apps.keys == [] then Resolved([]) else Rejected(NotAFunction(action)))
    ensures action in AllowedMacroActions && action in ActionModules ==>
              r == AllSettled(AllJobs(db.apps.keys, db.apps.vals, action, program, processCwd,
                                      definition, perform))
  {
    if action !in AllowedMacroActions {
      return Rejected(MacroNotAllowed(action));
    }
    if action !in ActionModules {
      return if db.apps.keys == [] then Resolved([]) else Rejected(NotAFunction(action));
    }
    var outcomes := RunEntries(db.apps.keys, db.apps.vals, action, program, processCwd, definition, perform);
    r := AllSettled(outcomes);
  }

  /** When every entry's action resolves, `all` yields one row per registry entry, in
      key order, each named after its app and never blank. */
  lemma AllRowsInKeyOrder(keys: seq<string>, vals: map<string, AppValue>, action: string,
                          program: Program, processCwd: Path, definition: Option<AppValue>,
                          perform: (string, Env) -> Settled<JsValue>)
    requires AppsListed(keys, vals)
    requires AllSettled(AllJobs(keys, vals, action, program, processCwd, definition, perform)).Resolved?
    ensures var rows := AllSettled(AllJobs(keys, vals, action, program, processCwd, definition, perform)).value;
      |rows| == |keys| &&
      forall i :: 0 <= i < |rows| ==> rows[i].0 == NameOf(EntryAt(keys, vals, i)) && !Blank(rows[i].1)
  {
    var jobs := AllJobs(keys, vals, action, program, processCwd, definition, perform);
    var rows := AllSettled(jobs).value;
    forall i | 0 <= i < |rows|
      ensures rows[i].0 == NameOf(EntryAt(keys, vals, i)) && !Blank(rows[i].1)
    {
      assert jobs[i].Resolved?;
      assert rows[i] == jobs[i].value;
    }
  }

  // ---------------------------------------------------------------------------
  // generate

  /** What `null.length` throws when a line does not match the pattern. */
  const NullLength := "TypeError: Cannot read property 'length' of null"

  /** The line matches /^([^=]+)=([^\n]*)$/ with its '=' at index i: a non-empty key free
      of '=', then '=', then a value free of newlines. */
  predicate SplitsAt(line: string, i: nat) {
    0 < i < |line| && line[i] == '=' && '=' !in line[..i] && '\n' !in line[i + 1..]
  }

  /** The index of the first '=' in s, or |s| when there is none. */
  function FirstEquals(s: string): (i: nat)
    ensures i <= |s| && '=' !in s[..i]
    ensures i < |s| ==> s[i] == '='
  {
    if s == [] then 0
    else if s[0] == '=' then 0
    else
      var i := 1 + FirstEquals(s[1..]);
      assert s[..i] == [s[0]] + s[1..][..i - 1];
      i
  }

  /** The env-line match: the key and the value around the first '=', or the error the
      length test throws on a line the pattern does not match. */
  function ParseEnvLine(line: string): (r: Result<(string, string)>)
    ensures r.Ok? <==> exists i: nat :: SplitsAt(line, i)
    ensures r.Ok? ==>
              line == r.value.0 + "=" + r.value.1 && r.value.0 != "" && '=' !in r.value.0 && '\n' !in r.value.1
    ensures r.Err? ==> r.error == NullLength
  {
    var i := FirstEquals(line);
    SplitOnlyAtFirst(line);
    if 0 < i < |line| && '\n' !in line[i + 1..] then
      assert SplitsAt(line, i);
      assert line == line[..i] + "=" + line[i + 1..];
      Ok((line[..i], line[i + 1..]))
    else
      Err(NullLength)
  }

  /** The pattern can only split a line at its first '='. */
  lemma SplitOnlyAtFirst(line: string)
    ensures forall j: nat :: SplitsAt(line, j) ==> j == FirstEquals(line)
  {
  }

  /** Every one of the first n lines matches the pattern. */
  predicate ParsedUpTo(lines: seq<string>, n: nat) {
    n <= |lines| && forall j :: 0 <= j < n ==> ParseEnvLine(lines[j]).Ok?
  }

  function KeyOf(line: string): string
    requires ParseEnvLine(line).Ok?
  {
    ParseEnvLine(line).value.0
  }

  function ValueOf(line: string): string
    requires ParseEnvLine(line).Ok?
  {
    ParseEnvLine(line).value.1
  }

  /** One of the first n lines sets the key k. */
  predicate SetBy(lines: seq<string>, n: nat, k: string)
    requires ParsedUpTo(lines, n)
  {
    exists j :: 0 <= j < n && KeyOf(lines[j]) == k
  }

  /** Line j is the last of the first n lines that sets its key. */
  predicate LastFor(lines: seq<string>, j: nat, n: nat)
    requires j < n && ParsedUpTo(lines, n)
  {
    forall m :: j < m < n ==> KeyOf(lines[m]) != KeyOf(lines[j])
  }

  /** The keys of env are NODE_ENV, which comes first, and the keys the first n lines set. */
  ghost predicate KeysFrom(env: Dict<string>, lines: seq<string>, n: nat)
    requires ParsedUpTo(lines, n)
  {
    && |env.keys| > 0 && env.keys[0] == "NODE_ENV"
    && forall k :: k in env.vals <==> k == "NODE_ENV" || SetBy(lines, n, k)
  }

  /** Each key holds the value of the last of the first n lines that sets it. */
  ghost predicate LastWins(env: Dict<string>, lines: seq<string>, n: nat)
    requires ParsedUpTo(lines, n)
  {
    forall j :: 0 <= j < n && LastFor(lines, j, n) ==>
                KeyOf(lines[j]) in env.vals && env.vals[KeyOf(lines[j])] == ValueOf(lines[j])
  }

  /** NODE_ENV stays 'production' unless one of the first n lines sets it. */
  ghost predicate DefaultKept(env: Dict<string>, lines: seq<string>, n: nat)
    requires ParsedUpTo(lines, n)
  {
    !SetBy(lines, n, "NODE_ENV") ==> "NODE_ENV" in env.vals && env.vals["NODE_ENV"] == "production"
  }

  /** env is what the first n lines make of {NODE_ENV: 'production'}. */
  ghost predicate Describes(env: Dict<string>, lines: seq<string>, n: nat)
    requires ParsedUpTo(lines, n)
  {
    KeysFrom(env, lines, n) && LastWins(env, lines, n) && DefaultKept(env, lines, n)
  }

  const InitialEnv: Dict<string> := RawDict(["NODE_ENV"], map["NODE_ENV" := "production"])

  lemma KeysStep(env: Dict<string>, lines: seq<string>, n: nat)
    requires ParsedUpTo(lines, n + 1) && KeysFrom(env, lines, n)
    ensures KeysFrom(Put(env, KeyOf(lines[n]), ValueOf(lines[n])), lines, n + 1)
  {
    var k := KeyOf(lines[n]);
    var next := Put(env, k, ValueOf(lines[n]));
    forall x ensures x in next.vals <==> x == "NODE_ENV" || SetBy(lines, n + 1, x) {
      if SetBy(lines, n + 1, x) && x != k {
        var j :| 0 <= j < n + 1 && KeyOf(lines[j]) == x;
        assert SetBy(lines, n, x);
      }
      if x == k {
        assert SetBy(lines, n + 1, x);
      }
      if SetBy(lines, n, x) {
        var j :| 0 <= j < n && KeyOf(lines[j]) == x;
        assert SetBy(lines, n + 1, x);
      }
    }
  }

  lemma LastWinsStep(env: Dict<string>, lines: seq<string>, n: nat)
    requires ParsedUpTo(lines, n + 1) && LastWins(env, lines, n)
    ensures LastWins(Put(env, KeyOf(lines[n]), ValueOf(lines[n])), lines, n + 1)
  {
    var k := KeyOf(lines[n]);
    var next := Put(env, k, ValueOf(lines[n]));
    forall j | 0 <= j < n + 1 && LastFor(lines, j, n + 1)
      ensures KeyOf(lines[j]) in next.vals && next.vals[KeyOf(lines[j])] == ValueOf(lines[j])
    {
      if j < n {
        var kj := KeyOf(lines[j]);
        assert kj != k;
        assert LastFor(lines, j, n);
        assert env.vals[kj] == ValueOf(lines[j]);
      }
    }
  }

  lemma DefaultKeptStep(env: Dict<string>, lines: seq<string>, n: nat)
    requires ParsedUpTo(lines, n + 1) && DefaultKept(env, lines, n)
    ensures DefaultKept(Put(env, KeyOf(lines[n]), ValueOf(lines[n])), lines, n + 1)
  {
    if !SetBy(lines, n + 1, "NODE_ENV") {
      assert KeyOf(lines[n]) != "NODE_ENV";
    }
  }

  /** The env-line sniffer of generate, over the lines read from stdin: env starts as
      {NODE_ENV: 'production'}; every line sets its key to its value, later lines
      overwriting earlier ones; a line that does not match throws. */
  method ParseEnvLines(lines: seq<string>) returns (r: Result<Dict<string>>)
    ensures r.Ok? <==> ParsedUpTo(lines, |lines|)
    ensures r.Err? ==> r.error == NullLength
    ensures r.Ok? ==> Describes(r.value, lines, |lines|)
  {
    var env := InitialEnv;
    var i := 0;
    while i < |lines|
      invariant 0 <= i <= |lines| && ParsedUpTo(lines, i)
      invariant Describes(env, lines, i)
    {
      var parts := ParseEnvLine(lines[i]);
      if parts.Err? {
        return Err(parts.error);
      }
      KeysStep(env, lines, i);
      LastWinsStep(env, lines, i);
      DefaultKeptStep(env, lines, i);
      env := Put(env, parts.value.0, parts.value.1);
      i := i + 1;
    }
    r := Ok(env);
  }

  /** The generate options; "" stands for an option that was not given. */
  datatype GenerateOptions = GenerateOptions(
    appName: string, user: string, command: string, logUser: string, logCommand: string)

  const NoOptions := GenerateOptions("", "", "", "", "")

  /** The definition generate writes: every option falls back to its default, and the
      log user falls back to the global user option before 'node'. */
  function GenerateApp(cwd: Path, opts: GenerateOptions, programUser: string, env: Dict<string>)
    : AppDef
  {
    AppDef(
      Or(opts.appName, BaseName(cwd)),
      cwd,
      Or(opts.user, "node"),
      Or(opts.command, "node app"),
      env,
      LogDef(Or(opts.logUser, Or(programUser, "node")),
             Or(opts.logCommand, "multilog s16777215 t " + Join(cwd, "log"))))
  }

  /** With no options the definition is named after the working directory, runs
      'node app' as node, and logs with multilog into cwd/log as node. */
  lemma GenerateDefaults(cwd: Path, env: Dict<string>)
    ensures GenerateApp(cwd, NoOptions, "", env) ==
      AppDef(BaseName(cwd), cwd, "node", "node app", env,
             LogDef("node", "multilog s16777215 t " + cwd + "/log"))
  {
  }

  /** A given option is used as it is; the log user falls back to the global user
      option and only then to 'node'. */
  lemma GenerateOptionsWin(cwd: Path, opts: GenerateOptions, programUser: string, env: Dict<string>)
    ensures var app := GenerateApp(cwd, opts, programUser, env);
      && app.cwd == cwd && app.env == env
      && (opts.appName != "" ==> app.name == opts.appName)
      && (opts.user != "" ==> app.user == opts.user)
      && (opts.command != "" ==> app.command == opts.command)
      && (opts.logCommand != "" ==> app.log.command == opts.logCommand)
      && (opts.logUser != "" ==> app.log.user == opts.logUser)
      && (opts.logUser == "" && programUser != "" ==> app.log.user == programUser)
      && (opts.logUser == "" && programUser == "" ==> app.log.user == "node")
  {
  }

  function AlreadyExists(defFile: Path): string {
    defFile + " already exists, and force is not enabled"
  }

  /** generate: the env lines are read first (only with --stdin; otherwise env is just
      NODE_ENV); then an existing dt.json is refused unless the global force option is
      set; otherwise the definition is built from the options and their defaults. */
  function Generate(env: Env, defFileExists: bool, programForce: bool, programUser: string,
                    opts: GenerateOptions, stdin: Option<seq<string>>,
                    parsed: Result<Dict<string>>): (r: Result<AppDef>)
    ensures r.Ok? <==> (stdin.None? || parsed.Ok?) && !(defFileExists && !programForce)
    ensures stdin.Some? && parsed.Err? ==> r == Err(parsed.error)
    ensures (stdin.None? || parsed.Ok?) && defFileExists && !programForce ==>
              r == Err(AlreadyExists(env.defFile))
    ensures r.Ok? ==>
              r.value == GenerateApp(env.cwd, opts, programUser, if stdin.Some? then parsed.value else InitialEnv)
    ensures r.Ok? ==>
              r.value.cwd == env.cwd && r.value.env == (if stdin.Some? then parsed.value else InitialEnv)
  {
    if stdin.Some? && parsed.Err? then Err(parsed.error)
    else if defFileExists && !programForce then Err(AlreadyExists(env.defFile))
    else Ok(GenerateApp(env.cwd, opts, programUser, if stdin.Some? then parsed.value else InitialEnv))
  }

  /** A definition generated without a name option is installed under the link named
      after its working directory. */
  lemma GeneratedAppLink(program: Program, cwd: Path, env: Dict<string>)
    requires cwd != ""
    ensures var app := GenerateApp(cwd, NoOptions, "", env);
      GetEnv(program, cwd, Some(Def(app)), Falsy).appLink ==
        Join(Or(program.service, DefaultServiceDir), BaseName(cwd))
  {
  }

  // ---------------------------------------------------------------------------
  // The `<app> [action]` dispatch and the svc commands

  /** What the wildcard command does: print help, list the registry, run an action
      module on a saved app, or reject (unhandled) because the action has no module. */
  datatype Dispatch = ShowHelp | ShowList | Run(action: string, app: AppValue) | Unhandled(reason: string)

  /** The wildcard handler; "" stands for an absent app name or action. */
  function Wildcard(appName: string, action: string, apps: Dict<AppValue>): (d: Dispatch)
    ensures d == ShowHelp <==> appName == "" && action == ""
    ensures d == ShowList <==>
              !(appName == "" && action == "") && (appName !in apps.vals || !AppTruthy(apps.vals[appName]))
    ensures d.Run? ==>
              appName in apps.vals && d.app == apps.vals[appName] &&
              d.action == (if action == "" then "status" else action) && d.action in ActionModules
    ensures d.Unhandled? ==> action !in ActionModules && action != ""
  {
    if appName == "" && action == "" then ShowHelp
    else
      var act := if action == "" then "status" else action;
      if appName !in apps.vals || !AppTruthy(apps.vals[appName]) then ShowList
      else if act !in ActionModules then Unhandled(NotAFunction(act))
      else Run(act, apps.vals[appName])
  }

  /** The commands registered through svcAction, in registration order. */
  const ServiceCommands: seq<string> := [
    "start", "status", "restart", "stop", "once", "pause", "continue",
    "hangup", "alarm", "interrupt", "kill", "exit"]

  /** What a svcAction command launches: an action module and the environment it runs in. */
  datatype Launch = Launch(action: string, env: Env)

  /** The svcAction handler for `command`: the start module, in getEnv's environment
      with no app override, whatever the command's name. */
  function ServiceCommand(command: string, program: Program, processCwd: Path,
                          definition: Option<AppValue>): Launch
  {
    Launch("start", GetEnv(program, processCwd, definition, Falsy))
  }

  /** Every svc command launches the same thing, the start module on the working
      directory's dt.json (or `{}`), so `ndt stop` starts the service; the same word
      after a saved app name dispatches to its own module instead. */
  lemma ServiceCommandsAllStart(appName: string, apps: Dict<AppValue>, program: Program,
                                processCwd: Path, definition: Option<AppValue>)
    requires appName in apps.vals && AppTruthy(apps.vals[appName])
    ensures forall c, d :: c in ServiceCommands && d in ServiceCommands ==>
              ServiceCommand(c, program, processCwd, definition) ==
              ServiceCommand(d, program, processCwd, definition)
    ensures forall c :: c in ServiceCommands ==>
              var l := ServiceCommand(c, program, processCwd, definition);
              l.action == "start" && l.env.app == (if definition.Some? then definition.value else Empty)
    ensures Wildcard(appName, "stop", apps) == Run("stop", apps.vals[appName])
    ensures appName != "" ==> Wildcard(appName, "", apps) == Run("status", apps.vals[appName])
  {
    assert "stop" in ActionModules && "status" in ActionModules;
  }
}
