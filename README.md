# ndt service lifecycle controller — a Dafny model

ndt is a command-line bridge between an operator and daemons supervised by daemontools.
This project models the lifecycle controller at its centre:

- resolving an application's environment from its `dt.json` and the global options;
- scaffolding the supervision folder `dt/` and linking it into the service directory (`install`);
- sending control words to `svc` and classifying `svstat` output;
- polling until a service reads down, and the compound `stop` and `restart` built on it;
- the JSON registry of saved applications (`save`, `unsave`, `flush`);
- the fan-out of `list` and `all` over that registry, the macro allow-list, the result
  normalisation of `actionWithName`, `generate`'s environment-line parser and default
  definition, the `<app> [action]` dispatch, and the wiring of the per-action commands.

Modules, one per file:

- `Js` (js.dfy): the JavaScript runtime behaviour the tool relies on. It covers `trim`, a
  first-match `replace`, `/down/i`, `Array.join`, truthiness, plain objects with their
  key order, and the three ways a promise can end (resolved, rejected, never settled).
- `Paths` (paths.dfy): joins, `dirname`, `basename` and containment of paths.
- `NdtUtil` (ndtutil.dfy): `getEnv`, the `svc` word table, the status row, the down test,
  and the wait-until-down poller.
  - The poller is specified by the function `WaitFrom`.
  - The `Supervisor` class stands in for the child processes. It records every command
    line launched in `sent` and answers launch k from `script(k)`.
- `Registry` (registry.dfy): the registry file as a `Store` object whose `file` field holds
  the document or nothing.
- `Actions` (actions.dfy): `stop` and `restart` as methods over a `Supervisor`.
- `Install` (install.dfy): the filesystem as a `FileSystem` object over a map from paths to
  nodes.
  - Each primitive step comes with its specification function.
  - The `Install` method is proved equal to the function `InstallRun`.
  - Lemmas about `InstallRun` state what install leaves on disk, what it never touches,
    how it fails, and that a forced reinstall over a successful install changes nothing.
- `Ndt` (ndt.dfy): the command handlers of `lib/ndt.js` once their inputs are read.

Behaviour of the code worth knowing:

- `svcWaitDown` replaces a zero timeout by 120 (`if(!timeout)`), so a zero timeout never
  times out on the first check. It gives up after 121 checks instead.
- `all` joins the per-entry promises with `P.all` and no per-entry `catch`. The first
  rejection rejects the whole command, so one entry's failure is not isolated.
- The log run script runs the logger as `app.user`, not as `app.log.user`.
- A failed status probe inside the poller is never caught. The wait neither resolves nor
  rejects, and the model calls this `Hung` (`Pending` for stop and restart).
- `svcIsUp` is true when the status reads *down*. The poller resolves on that, and
  `ReportsDown` keeps the literal case-insensitive match anywhere in the text.
- The allow-list of `all` spells `alaram`. `alarm` is refused, and `alaram` passes but has
  no action module, so it throws on the first registry entry.
- Every per-action command (`stop`, `restart`, …) runs the `start` module.

Some definitions stand for JavaScript and Node primitives and are used as building blocks
rather than stated as properties of ndt. Their contracts describe the primitive itself:

- `Js.EmptyDict` is `{}`; `Js.Put` is `o[k] = v`; `Js.Remove` is `delete o[k]`.
- `Registry.Fresh` is the document dbGet creates; `Registry.Stamped` is the `updatedAt`
  stamp of dbSave.
- `Install.RemoveTree`, `UnlinkAt`, `MkdirAt`, `WriteAt`, `ChmodAt` and `SymlinkAt` are
  `rmdir`, `fs.unlink`, `fs.mkdir`, `fs.writeFile`, `fs.chmod` and `fs.symlink` on the map
  of nodes. `Install.FirstErr` is how `P.all` settles two steps.

The rows below name the lemmas that state what these primitives keep true: the last write
wins, deleting is idempotent, and every filesystem step keeps each node inside a directory.

## Model

| member | source | states |
|---|---|---|
| Js.Trim | lib/ndtutil.js:71 | String.prototype.trim; TrimShape states it |
| Js.TrimStartShape | lib/ndtutil.js:71 | trimming the start leaves a suffix of the text that does not start with whitespace, and everything dropped is whitespace |
| Js.TrimEndShape | lib/ndtutil.js:71 | trimming the end leaves a prefix that does not end with whitespace, and everything dropped is whitespace |
| Js.TrimInfix | lib/ndtutil.js:71 | trim leaves an infix of the text outside which every character is whitespace |
| Js.TrimShape | lib/ndtutil.js:71 | trim leaves such an infix, it has no whitespace at either end, and it is empty exactly when the text is blank |
| Js.IndexOfFirst | lib/ndtutil.js:71 | no occurrence of the character comes before the index found |
| Js.ReplaceFirst | lib/ndtutil.js:71 | only the first newline is replaced, and a text without one is unchanged |
| Js.ContainsDown | lib/ndtutil.js:84 | /down/i matches exactly when four consecutive characters spell "down" in any case |
| Js.PutOverwrites | lib/ndt.js:195 | of two assignments to one key the last wins, key order included; assigning the value a key already holds changes nothing |
| Js.Without | lib/ndt.js:214 | the remaining keys are exactly the others, no more of them than before, still distinct |
| Js.RemoveAbsent | lib/ndt.js:214 | deleting a key the object lacks leaves it unchanged, key order included |
| Js.RemoveIdempotent | lib/ndt.js:214 | deleting a key twice is deleting it once, and deleting a missing key changes nothing |
| Js.RemoveAfterPut | lib/ndt.js:195-214 | deleting a key undoes assigning it |
| Paths.BaseName | lib/ndt.js:163 | basename never contains a '/' |
| Paths.DirnameOfJoin | lib/ndtutil.js:126-129 | cwd + '/dt.json', cwd + '/dt' and serviceDir + '/' + name are children of the directory they were joined to |
| Paths.BaseNameOfJoin | lib/ndtutil.js:126-128 | the basename of such a join is the joined name |
| NdtUtil.GetEnv | lib/ndtutil.js:118-137 | the definition of getEnv; GetEnvLayout states where it puts things |
| NdtUtil.GetEnvLayout | lib/ndtutil.js:118-137 | the cwd option wins over the process cwd; dt.json and dt sit in cwd; the link sits in the service dir when the name has no '/'; given bin and service options are used, else /usr/bin/svc and /service; a truthy override app wins, else the parsed dt.json, else {} |
| NdtUtil.SvcCommand | lib/ndtutil.js:31-45 | the definition of svc's command line per control word; SvcCommandAccepts, SvcCommandFlags and SvcCommandInjective state it |
| NdtUtil.StatusCommand | lib/ndtutil.js:55 | svstat next to the svc binary, run on the link; Supervisor.Status and Ndt.ListProbesAt state its use |
| NdtUtil.StatusRow | lib/ndtutil.js:71 | the status row; StatusRowKeepsSecondNewline and Supervisor.StatusWithName state it |
| NdtUtil.WaitFrom | lib/ndtutil.js:95-109 | the specification of the poller; WaitFromSettles, WaitResolvesAtFirstDown and WaitGivesUpAfterTimeoutPlusOne state it, and Supervisor.WaitDown is proved to follow it |
| NdtUtil.SvcCommandAccepts | lib/ndtutil.js:31-44 | exactly the eleven control words are accepted; every other word fails with "Action is not defined" |
| NdtUtil.SvcCommandFlags | lib/ndtutil.js:32-42 | up, down, alarm and exit become `bin -u link`, `bin -d link`, `bin -a link`, `bin -x link` |
| NdtUtil.SvcCommandInjective | lib/ndtutil.js:31-43 | different control words give different command lines |
| NdtUtil.StatusRowKeepsSecondNewline | lib/ndtutil.js:71 | only the first newline of the status becomes a space; a second one between non-blank parts survives into the row |
| NdtUtil.ReplaceFirstAfter | lib/ndtutil.js:71 | the first newline, after a newline-free prefix, becomes a space and the rest is untouched |
| NdtUtil.TrimKeepsInterior | lib/ndtutil.js:71 | trim keeps every character with non-whitespace on both sides |
| NdtUtil.NormallyDownReadsAsDown | lib/ndtutil.js:84 | the down test matches anywhere and in any case, so svstat's "up … normally down" reads as down |
| NdtUtil.WaitFromSettles | lib/ndtutil.js:95-109 | every check but the last read up; the last decides: down resolves, a failed probe hangs, up rejects only at check max(1, timeout + 1) |
| NdtUtil.WaitResolvesAtFirstDown | lib/ndtutil.js:99-103 | the wait resolves at the first check that reads down within the bound, after exactly that many checks |
| NdtUtil.WaitGivesUpAfterTimeoutPlusOne | lib/ndtutil.js:96-103 | a status that never reads down is given up on after timeout + 1 checks; a zero timeout means 121 checks |
| NdtUtil.Supervisor.Execute | lib/ndtutil.js:18-21 | one launch: the command is appended to the trace and answered by the next script entry |
| NdtUtil.Supervisor.Svc | lib/ndtutil.js:30-46 | an unknown word throws before anything is launched; a known word launches exactly its svc command line |
| NdtUtil.Supervisor.Status | lib/ndtutil.js:54-59 | svstat next to svc is launched on the link; its output parts are joined, and a failed launch is an error |
| NdtUtil.Supervisor.StatusWithName | lib/ndtutil.js:68-73 | the row is the name and the status with its first newline made a space, trimmed |
| NdtUtil.Supervisor.IsUp | lib/ndtutil.js:81-86 | fails exactly when the probe fails; otherwise true exactly when the status reads down |
| NdtUtil.Supervisor.WaitDown | lib/ndtutil.js:95-109 | the run WaitFrom predicts with timeout 0 read as 120, one status probe per check, one one-second delay between consecutive checks |
| Registry.Store.Get | lib/ndtutil.js:153-172 | an existing registry is returned untouched; a missing one is created fresh and returned |
| Registry.Store.Save | lib/ndtutil.js:190-196 | the file becomes the stamped document, which is also handed back |
| Registry.Store.Destroy | lib/ndtutil.js:179-182 | the file is gone afterwards; a missing file is an ENOENT failure |
| Registry.GetTwice | lib/ndtutil.js:153-172 | two reads give the same document and a registry is created at most once |
| Registry.FlushThenGet | lib/ndtutil.js:153-182 | a flush succeeds exactly when a registry existed, and the next read starts from a fresh empty registry |
| Actions.WaitAfterDown | lib/actions/stop.js:13 | the wait stop and restart run after down, with the default timeout; WaitAfterDownBounds bounds it |
| Actions.WaitTraceCommands | lib/actions/stop.js:10-15 | a down-then-wait trace holds only the down command and status probes |
| Actions.WaitAfterDownBounds | lib/actions/stop.js:13 | the default wait probes at least once and at most 121 times |
| Actions.Stop | lib/actions/stop.js:10-15 | a failed down rejects after one command; otherwise down and the wait's probes are sent, never an up; it resolves, rejects with "Service did not stop", or stays pending as the wait ends |
| Actions.Restart | lib/actions/restart.js:10-18 | up is sent only after the wait saw the service down, and restart then settles as up does; a failed down or a timed-out wait rejects with nothing more sent; a failed probe leaves it pending |
| Js.JoinWith | lib/ndt.js:58 | Array.prototype.join; Ndt.Shown and ResultTextCases state its use |
| Js.Inspect | lib/ndt.js:60 | util.inspect of a boolean, a number or an object; Ndt.Shown and ResultTextCases state its use |
| Ndt.Shown | lib/ndt.js:58-60 | a truthy string is shown as itself, an array as its space-joined text, any other truthy value as util.inspect of it, and a falsy value or empty join as '' |
| Ndt.SuccessIfBlank | lib/ndt.js:61 | a blank text becomes 'Success', any other is kept, so the result is never blank |
| Ndt.ResultText | lib/ndt.js:58-61 | the text shown for a result is never blank |
| Ndt.ResultTextCases | lib/ndt.js:58-61 | a non-blank string or joined array is kept; another truthy value reads as its non-blank inspection (`true` reads 'true'); falsy values, blank strings and empty arrays read 'Success' |
| Ndt.ActionWithName | lib/ndt.js:55-64 | a resolved action gives [name, non-blank text]; a rejection passes through with its reason; a pending action stays pending |
| Ndt.AllowListSpelling | lib/ndt.js:15-17 | 'alarm' is refused and the misspelt 'alaram' is allowed with no module behind it; install, remove, save, unsave, generate and terminate are refused; every other allowed word names an action module |
| Ndt.SaveApp | lib/ndt.js:195 | the entry named after the app becomes the app, no other entry changes, and an existing key keeps its place |
| Ndt.UnsaveApp | lib/ndt.js:214 | the entry named after the app is gone; the others are unchanged and keep their order |
| Ndt.UnsaveUndoesSave | lib/ndt.js:192-216 | unsave after save equals unsave alone, and restores the registry when the app was not saved before |
| Ndt.Save | lib/ndt.js:190-197 | the registry read (or created) gets the app's entry and is written back stamped with the save time |
| Ndt.Unsave | lib/ndt.js:209-216 | the registry read (or created) loses the app's entry and is written back stamped with the save time |
| Ndt.AllSettled | lib/ndt.js:252 | P.all resolves exactly when every outcome resolves, with all values in order; it rejects exactly when one rejects, with the first rejection's reason |
| Ndt.ListProbes | lib/ndt.js:244-251 | one probe per registry entry |
| Ndt.ListProbesAt | lib/ndt.js:246-250 | probe i is the status command in entry i's own environment |
| Ndt.ListOutcomes | lib/ndt.js:246-252 | one row outcome per registry entry |
| Ndt.ListOutcomesAt | lib/ndt.js:246-250 | row i is named after entry i's app and settles as launch base + i did |
| Ndt.ProbeEntry | lib/ndt.js:247-250 | one iteration of the list loop extends the probes and the rows by entry i's |
| Ndt.ProbeEntries | lib/ndt.js:243-251 | the list loop sends exactly the per-entry probes in key order and gathers the matching rows |
| Ndt.ListDatabase | lib/ndt.js:239-253 | list probes every entry in key order and settles as P.all over the rows |
| Ndt.AllJobs | lib/ndt.js:283-291 | one actionWithName outcome per entry, in key order, under each entry's own environment |
| Ndt.RunEntries | lib/ndt.js:282-291 | the loop of `all` produces exactly those outcomes |
| Ndt.All | lib/ndt.js:276-293 | a word off the allow-list is refused before any entry runs; an allowed word without a module fails on the first entry; otherwise P.all over every entry's outcome |
| Ndt.AllRowsInKeyOrder | lib/ndt.js:283-292 | when `all` resolves it has one row per entry, in key order, named after its app, never blank |
| Ndt.FirstEquals | lib/ndt.js:141 | the index found is the first '=' of the line, or its length when there is none |
| Ndt.ParseEnvLine | lib/ndt.js:141-147 | a line is accepted exactly when it splits as key=value with a non-empty key free of '=' and a value free of newlines; otherwise the null match throws |
| Ndt.SplitOnlyAtFirst | lib/ndt.js:141 | the pattern can only split a line at its first '=' |
| Ndt.ParseEnvLines | lib/ndt.js:134-149 | all lines parse or the read fails with the null-match error; the env then has NODE_ENV first, exactly the keys the lines set, the last line's value per key, and 'production' unless a line sets NODE_ENV |
| Ndt.GenerateDefaults | lib/ndt.js:162-173 | with no options the definition is named after cwd, runs 'node app' as node, and logs with multilog into cwd/log as node |
| Ndt.GenerateApp | lib/ndt.js:162-173 | the definition generate builds from the options and their defaults; GenerateDefaults and GenerateOptionsWin state it |
| Ndt.GenerateOptionsWin | lib/ndt.js:162-173 | every given option is used as given; the log user is the logUser option, else the global user, else 'node' |
| Ndt.Generate | lib/ndt.js:156-177 | a failed stdin read or an existing dt.json without force fails, in that order; otherwise the result is GenerateApp of cwd, the options, the global user and the parsed (or default) env |
| Ndt.GeneratedAppLink | lib/ndt.js:162-173 | a definition generated without a name is linked under the service directory with the basename of its cwd |
| Ndt.Wildcard | lib/ndt.js:325-343 | help exactly when both are absent; the list exactly when the app is not saved; otherwise the saved app's action, 'status' by default; a word without a module is unhandled |
| Ndt.ServiceCommand | lib/ndt.js:30-45 | the svcAction handler: the start module in getEnv's environment without an override |
| Ndt.ServiceCommandsAllStart | lib/ndt.js:30-45 | every per-action command launches the same thing whatever its name, the start module on the working directory's dt.json (or {}), while the same word after a saved app name runs its own module |
| Install.DotTailIsDirName | lib/actions/install.js:55-57 | the scan writeFile uses reports a directory name exactly when the last component is empty, '.' or '..' |
| Install.RemoveTreeKeepsWellFormed | lib/actions/install.js:30 | removing a whole tree leaves every remaining node inside a directory |
| Install.UnlinkKeepsWellFormed | lib/actions/install.js:31 | unlink removes only a non-directory, so no node loses its parent directory |
| Install.MkdirKeepsWellFormed | lib/actions/install.js:37 | mkdir adds a directory only inside an existing directory, so every node stays inside one |
| Install.WriteKeepsWellFormed | lib/actions/install.js:57 | writeFile creates a file only inside an existing directory |
| Install.ChmodKeepsWellFormed | lib/actions/install.js:86-87 | chmod adds and removes no node |
| Install.SymlinkKeepsWellFormed | lib/actions/install.js:94 | symlink creates a link only inside an existing directory |
| Install.FileSystem.ExistsSync | lib/actions/install.js:21 | existsSync follows a chain of links up to 40 hops, so a dangling link or a cycle does not exist |
| Install.ExistsSyncCases | lib/actions/install.js:21 | a missing path does not exist, a file or directory does, a link exists exactly when its target resolves, and a dangling or self link does not |
| Install.FileSystem.Rmdir | lib/actions/install.js:30 | the tree under the path is removed |
| Install.FileSystem.Unlink | lib/actions/install.js:31 | result and new state as UnlinkAt |
| Install.FileSystem.Mkdir | lib/actions/install.js:37 | result and new state as MkdirAt |
| Install.FileSystem.WriteFile | lib/actions/install.js:57 | result and new state as WriteAt |
| Install.FileSystem.Chmod | lib/actions/install.js:86-87 | result and new state as ChmodAt |
| Install.FileSystem.Symlink | lib/actions/install.js:94 | result and new state as SymlinkAt |
| Install.EnvWriteAt | lib/actions/install.js:49-58 | write j of the env loop is env/<key j> holding value j and a newline |
| Install.EnvFileInEnvDir | lib/actions/install.js:55 | every env file lies inside env/ |
| Install.WriteEnvEntry | lib/actions/install.js:52-58 | one iteration of the env loop adds the write for key i |
| Install.WriteEnv | lib/actions/install.js:49-59 | the env loop writes one file per key in key order and settles with the first failure |
| Install.Install | lib/actions/install.js:17-96 | result and new filesystem are those of InstallRun |
| Install.ScaffoldPaths | lib/actions/install.js:43-87 | log/, env/, log/run and run lie in the folder, the fixed paths are outside env/, and the two run files differ |
| Install.InstallFrame | lib/actions/install.js:17-96 | install changes nothing outside the folder and the link, whatever happens |
| Install.ScaffoldFrame | lib/actions/install.js:34-95 | the scaffold changes nothing outside the folder and the link |
| Install.WriteFilesErrors | lib/actions/install.js:49-59 | the env writes fail only with a filesystem code |
| Install.ScriptsErrors | lib/actions/install.js:61-95 | the script, chmod and link steps fail only with a filesystem code |
| Install.ScaffoldErrors | lib/actions/install.js:34-95 | after the checks, install fails only with a filesystem code or the missing-env error |
| Install.InstallRefusal | lib/actions/install.js:20-26 | "already exists" exactly when folder or link is present without -f; "failed to load" exactly when that passes and the app is falsy; either way nothing changes |
| Install.SubdirsLayout | lib/actions/install.js:37-45 | the folder was free in a directory, and exactly folder, log/ and env/ are added |
| Install.ScriptsLayout | lib/actions/install.js:61-95 | both run scripts hold their exact text with mode 755 and the link points at the folder |
| Install.ContentsEnvFile | lib/actions/install.js:49-59 | each key's env file holds its value and a newline after the scaffold |
| Install.ScaffoldLayout | lib/actions/install.js:34-95 | a successful scaffold leaves the whole layout: folder, log/, env/, the env files, both scripts at 755, and the link |
| Install.InstallLayout | lib/actions/install.js:17-96 | a successful install leaves that layout |
| Install.EnvWritesDistinct | lib/actions/install.js:50-55 | distinct env keys give distinct env files |
| Install.WriteFilesKeys | lib/actions/install.js:52-58 | successful writes add exactly the written paths |
| Install.WriteFileAt | lib/actions/install.js:52-58 | with distinct paths, each written file holds its content after all the writes |
| Install.ScaffoldKeys | lib/actions/install.js:34-95 | a successful scaffold adds exactly the folder, log/, env/, both run scripts, the env files and the link, and removes nothing |
| Install.ScaffoldEnvMode | lib/actions/install.js:57 | env files written into an empty folder get mode 0o666 |
| Install.ClearedEmpty | lib/actions/install.js:28-32 | when the install succeeds, its removals succeed and leave nothing inside the folder (with -f it was cleared; without, there was none) |
| Install.ScaffoldExact | lib/actions/install.js:34-95 | into an empty folder, the scaffold leaves exactly its own paths |
| Install.InstallExact | lib/actions/install.js:17-96 | after a successful install the folder holds exactly the scaffold; old contents are gone and every env file is new |
| Install.ClearAgain | lib/actions/install.js:28-32 | the removals of a second install take the tree back to the state before the first scaffold |
| Install.ForcedReinstall | lib/actions/install.js:17-96 | a forced install over a successful install ends in the same state with the same result |
| Install.WriteFilesKeepWellFormed | lib/actions/install.js:49-59 | the env writes keep every node inside a directory |
| Install.InstallKeepsWellFormed | lib/actions/install.js:17-96 | install, whatever its outcome, leaves every node inside a directory when it found it so, so InstallExact's and ForcedReinstall's assumption holds after each install |
| Install.InstallRun | lib/actions/install.js:17-96 | the definition of install's checks and steps in order; Install is proved equal to it and InstallLayout, InstallFrame, InstallRefusal state what it does |
| Install.LogRunScript | lib/actions/install.js:63-65 | the log run script text; ScriptsLayout proves it is what log/run holds |
| Install.RunScript | lib/actions/install.js:71-78 | the service run script text; ScriptsLayout proves it is what run holds |

## Left out

- Child processes are a `Supervisor` object answering from a script. Command output,
  exit codes and `svc`'s own behaviour are parameters of the model.
- The real filesystem is a map from paths to nodes. Symbolic links in the middle of a path,
  permissions, the umask, and `writeFile` or `chmod` following a link are not modelled.
- The `rmdir` module is modelled as always succeeding on an existing path.
- Failures carry only a code or message, not Node's full error objects.
- `path.resolve` is not modelled. Paths are assumed already normalised and absolute, and
  joins are plain concatenation with '/'.
- JSON reading and writing of `dt.json` and of the registry file are not modelled. A
  registry holds parsed documents, and a `dt.json` that parses to `null` is not modelled.
- The registry file location (`dbFile`) is fixed by the `Store` object.
- Time (`new Date()`) is a parameter, and the one-second `setTimeout` becomes a count of
  delays.
- Concurrency under `P.all` is modelled sequentially. Steps run in the order they are
  started and settle with the first failure in that order. A forced install's `rmdir`
  runs before `unlink`.
- Two step orders are not modelled: concurrent env writes that interleave differently,
  and an `rmdir` that finishes after `unlink`.
- Command-line parsing (commander), the help text, console output, table rendering and
  the `remove` and `flush` handlers' printing are left out.
- `ndt remove` is left out because it only chains stop and unlink.
- Reading standard input is left out. `generate` receives the lines as a sequence.
- The action modules `start`, `status`, `once`, `pause` and the other single-word actions
  are parameters (`perform`), because their code is not part of this model.
- Object keys are ordered by insertion. Two JavaScript details are not modelled: keys that
  look like integers are listed first, and inherited prototype keys exist.
- Env values are strings. Other JSON value types written with `value + '\n'` are not modelled.
- Install: `force` is the command's `-f` flag. The source reads it as `that.force`, where
  `that` is the `this` of the callback given to bluebird's `P.try`
  (lib/actions/install.js:18-22). What bluebird binds there is not part of this model.
- Install.FileSystem.ExistsSync: a chain of more than 40 links counts as missing, as
  Node's ELOOP limit makes it on Linux. Links inside a path are not followed.
- `JsValue.Num` holds an integer. Fractional numbers, NaN (which is falsy) and -0 in an
  action's result are not modelled.
- `AppValue` is falsy, `{}` or a complete definition. A dt.json or registry entry missing
  `log`, `user` or `env` is not modelled. In the source, install then throws a TypeError
  when it reads `app.log.command` (lib/actions/install.js:65).
- Filesystem error codes: when a parent path is a file, Node's mkdir, writeFile and
  symlink give ENOTDIR. The model gives ENOENT for every missing or non-directory parent.
- The `generate` options are declared without a value (lib/ndt.js:116-128), so commander
  records a given option as `true`. The model lets each option carry the string its help
  text describes, with "" for an option not given.
- The global `program` declares no `force` or `user` option (lib/ndt.js:66-73), so as
  written `generate` always sees both unset. The model keeps them as parameters of
  `Generate`.
- `all stop` and `all restart` reach the stop and restart modules only through
  `perform`. Stop and restart are methods over one shared `Supervisor`, and `all` starts
  its entries concurrently, so their interleaving is not modelled.
- Install.InstallExact: stated for a filesystem where every node sits in a directory, with
  the link outside the folder. The source makes no such assumption. InstallKeepsWellFormed
  proves that install itself keeps the first one.
- Install.ForcedReinstall: under the same two assumptions as InstallExact.
- Install.WriteAt: the directory-name test is the scan `DotTail`, not a comparison of the
  last component with "", "." and "..". DotTailIsDirName proves the two equal.
