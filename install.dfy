/** The scaffolder of lib/actions/install.js: an ordered chain of filesystem mutations
    that lays out the dt folder (log/, env/, one file per environment variable, the two
    run scripts) and links it into the service directory. The filesystem is a map from
    paths to nodes held by a FileSystem object; every primitive either succeeds or fails
    with an error code and leaves the map as it was. */
module Install {
  import opened Js
  import opened Paths
  import opened NdtUtil

  // ---------------------------------------------------------------------------
  // The filesystem

  datatype Node = Dir | File(content: string, mode: nat) | Link(target: Path)

  type Nodes = map<Path, Node>

  /** What one step did: its settlement and the filesystem it leaves. */
  datatype Outcome = Outcome(result: Result<()>, nodes: Nodes)

  const EEXIST := "EEXIST"
  const ENOENT := "ENOENT"
  const EISDIR := "EISDIR"

  /** fs.writeFile creates files with mode 0o666. */
  const NewFileMode: nat := 438
  /** The mode '755' that install gives both run scripts. */
  const Executable: nat := 493

  /** p and the same path in b hold the same thing, or are both absent. */
  ghost predicate Agree(a: Nodes, b: Nodes, p: Path) {
    (p in a <==> p in b) && (p in a ==> a[p] == b[p])
  }

  predicate IsDir(n: Nodes, p: Path) {
    p in n && n[p].Dir?
  }

  /** Every node other than a root sits in a directory. */
  ghost predicate WellFormed(n: Nodes) {
    forall p :: p in n && Dirname(p) != p ==> IsDir(n, Dirname(p))
  }

  /** How many symbolic links path resolution follows before it gives up (ELOOP). */
  const MaxSymlinkHops: nat := 40

  /** p resolves to a file or a directory after following at most `hops` links. */
  predicate Resolves(n: Nodes, p: Path, hops: nat)
    decreases hops
  {
    p in n && (n[p].Link? ==> hops > 0 && Resolves(n, n[p].target, hops - 1))
  }

  /** fs.existsSync: the path resolves, following a chain of symbolic links, so a
      dangling link, a chain that ends in one and a cycle of links do not exist. */
  predicate Present(n: Nodes, p: Path) {
    Resolves(n, p, MaxSymlinkHops)
  }

  /** A link that leads back to itself never resolves, however many hops are allowed. */
  lemma {:induction false} SelfLinkUnresolved(n: Nodes, p: Path, hops: nat)
    requires p in n && n[p] == Link(p)
    ensures !Resolves(n, p, hops)
    decreases hops
  {
    if hops > 0 {
      SelfLinkUnresolved(n, p, hops - 1);
    }
  }

  /** What existsSync reports: a missing path and a dangling link do not exist, a file or
      a directory does, a link exists exactly when its target does within one hop fewer,
      and a link to itself does not. */
  lemma ExistsSyncCases(n: Nodes, p: Path)
    ensures p !in n ==> !Present(n, p)
    ensures p in n && !n[p].Link? ==> Present(n, p)
    ensures p in n && n[p].Link? ==>
              (Present(n, p) <==> Resolves(n, n[p].target, MaxSymlinkHops - 1))
    ensures p in n && n[p].Link? && n[p].target !in n ==> !Present(n, p)
    ensures p in n && n[p] == Link(p) ==> !Present(n, p)
  {
    if p in n && n[p] == Link(p) {
      SelfLinkUnresolved(n, p, MaxSymlinkHops);
    }
  }

  /** The text after the last '/'. */
  function FileName(p: Path): string {
    p[LastSlash(p) + 1..]
  }

  /** Names that denote a directory whatever the filesystem holds. */
  predicate DirName(name: string) {
    name == "" || name == "." || name == ".."
  }

  /** Scanning p from the end with `dots` dots already seen: at most two dots, then the
      start or a '/'. DotTail(p, 0) is the form of DirName(FileName(p)) the filesystem
      steps use (see DotTailIsDirName). */
  predicate DotTail(p: Path, dots: nat) {
    if p == [] || p[|p| - 1] == '/' then true
    else if p[|p| - 1] == '.' && dots < 2 then DotTail(p[..|p| - 1], dots + 1)
    else false
  }

  predicate AllDots(s: string) {
    forall k :: 0 <= k < |s| ==> s[k] == '.'
  }

  lemma AllDotsSnoc(s: string, c: char)
    ensures AllDots(s + [c]) <==> AllDots(s) && c == '.'
  {
    if AllDots(s + [c]) {
      assert (s + [c])[|s|] == c;
      forall k | 0 <= k < |s| ensures s[k] == '.' {
        assert (s + [c])[k] == s[k];
      }
    }
  }

  /** DotTail(p, dots) holds exactly when the name after the last '/' is all dots and
      at most 2 - dots long. */
  lemma {:induction false} DotTailAllDots(p: Path, dots: nat)
    requires dots <= 2
    ensures DotTail(p, dots) <==> |FileName(p)| + dots <= 2 && AllDots(FileName(p))
    decreases |p|
  {
    if p == [] || p[|p| - 1] == '/' {
      assert FileName(p) == [];
    } else {
      var q := p[..|p| - 1];
      var c := p[|p| - 1];
      assert DotTail(p, dots) == (c == '.' && dots < 2 && DotTail(q, dots + 1));
      assert LastSlash(p) == LastSlash(q);
      assert FileName(p) == FileName(q) + [c] by {
        assert p == q + [c];
      }
      AllDotsSnoc(FileName(q), c);
      if c == '.' && dots < 2 {
        DotTailAllDots(q, dots + 1);
      }
    }
  }

  /** The recursive check and the name check agree. */
  lemma DotTailIsDirName(p: Path)
    ensures DotTail(p, 0) <==> DirName(FileName(p))
  {
    DotTailAllDots(p, 0);
    var name := FileName(p);
    if |name| == 1 && name[0] == '.' {
      assert name == ".";
    } else if |name| == 2 && name[0] == '.' && name[1] == '.' {
      assert name == "..";
    }
  }

  // ---------------------------------------------------------------------------
  // Primitives

  /** The `rmdir` module: the path and everything inside it are removed. */
  function RemoveTree(n: Nodes, p: Path): (m: Nodes)
    ensures forall q :: q in m <==> q in n && !InTree(q, p)
    ensures forall q :: q in m ==> m[q] == n[q]
  {
    map q | q in n && !InTree(q, p) :: n[q]
  }

  /** fs.unlink: removes a file or a link; a directory or a missing path is an error. */
  function UnlinkAt(n: Nodes, p: Path): (o: Outcome)
    ensures o.result.Ok? <==> p in n && !n[p].Dir?
    ensures o.result.Err? ==> o.nodes == n && o.result.error == (if p in n then EISDIR else ENOENT)
    ensures o.result.Ok? ==> o.nodes == n - {p}
  {
    if p !in n then Outcome(Err(ENOENT), n)
    else if n[p].Dir? then Outcome(Err(EISDIR), n)
    else Outcome(Ok(()), n - {p})
  }

  /** fs.mkdir: the path must be free and its parent a directory. */
  function MkdirAt(n: Nodes, p: Path): (o: Outcome)
    ensures o.result.Ok? <==> p !in n && IsDir(n, Dirname(p))
    ensures o.result.Err? ==> o.nodes == n
    ensures o.result.Ok? ==> o.nodes == n[p := Dir]
  {
    if p in n then Outcome(Err(EEXIST), n)
    else if !IsDir(n, Dirname(p)) then Outcome(Err(ENOENT), n)
    else Outcome(Ok(()), n[p := Dir])
  }

  /** fs.writeFile: the parent must be a directory and the path must not name one; an
      existing file keeps its mode, a new one gets 0o666. */
  /** The mode a written file ends up with: an existing file's own, else 0o666. */
  function KeptMode(n: Nodes, p: Path): nat {
    if p in n && n[p].File? then n[p].mode else NewFileMode
  }

  function WriteAt(n: Nodes, p: Path, content: string): (o: Outcome)
    ensures o.result.Err? ==> o.nodes == n
    ensures o.result.Ok? ==>
              o.nodes == n[p := File(content, KeptMode(n, p))]
  {
    if !IsDir(n, Dirname(p)) then Outcome(Err(ENOENT), n)
    else if DotTail(p, 0) || IsDir(n, p) then Outcome(Err(EISDIR), n)
    else Outcome(Ok(()), n[p := File(content, KeptMode(n, p))])
  }

  /** fs.chmod: sets a file's mode; a missing path is an error. */
  function ChmodAt(n: Nodes, p: Path, mode: nat): (o: Outcome)
    ensures o.result.Ok? <==> p in n
    ensures o.result.Err? ==> o.nodes == n
    ensures o.result.Ok? && n[p].File? ==> o.nodes == n[p := File(n[p].content, mode)]
    ensures o.result.Ok? && !n[p].File? ==> o.nodes == n
  {
    if p !in n then Outcome(Err(ENOENT), n)
    else if n[p].File? then Outcome(Ok(()), n[p := File(n[p].content, mode)])
    else Outcome(Ok(()), n)
  }

  /** fs.symlink: the link path must be free and its parent a directory. */
  function SymlinkAt(n: Nodes, target: Path, p: Path): (o: Outcome)
    ensures o.result.Ok? <==> p !in n && IsDir(n, Dirname(p))
    ensures o.result.Err? ==> o.nodes == n
    ensures o.result.Ok? ==> o.nodes == n[p := Link(target)]
  {
    if p in n then Outcome(Err(EEXIST), n)
    else if !IsDir(n, Dirname(p)) then Outcome(Err(ENOENT), n)
    else Outcome(Ok(()), n[p := Link(target)])
  }

  /** P.all over steps that were all started: the first failure in order, if any. */
  function FirstErr(a: Result<()>, b: Result<()>): (r: Result<()>)
    ensures r.Ok? <==> a.Ok? && b.Ok?
    ensures a.Err? ==> r == a
    ensures a.Ok? && b.Err? ==> r == b
  {
    if a.Err? then a else b
  }

  // ---------------------------------------------------------------------------
  // The scaffold

  function LogDir(folder: Path): Path { folder + "/log" }
  function EnvDir(folder: Path): Path { folder + "/env" }
  function LogRunFile(folder: Path): Path { folder + "/log/run" }
  function RunFile(folder: Path): Path { folder + "/run" }
  function EnvFile(folder: Path, key: string): Path { folder + "/env/" + key }

  /** The log service's run script: multilog under the app's own user. */
  function LogRunScript(app: AppDef): string {
    "#!/bin/sh\nexec setuidgid " + app.user + " " + app.log.command + "\n"
  }

  /** The service's run script. */
  function RunScript(app: AppDef): string {
    "#!/bin/sh\n" +
    "BASE=`pwd`\n" +
    "cd " + app.cwd + "\n" +
    "exec 2>&1\n" +
    "exec envuidgid " + app.user + " envdir ${BASE}/env " + app.command + "\n"
  }

  const AlreadyExists := "Application folder already exists and -f was not passed"
  const FailedToLoad := "Failed to load dt.json"
  /** What Object.keys throws on the `env` of the empty definition `{}`. */
  const NoEnvObject := "TypeError: Cannot convert undefined or null to object"

  /** Every key of the env object has a value. */
  predicate EnvListed(keys: seq<string>, vals: map<string, string>) {
    forall j :: 0 <= j < |keys| ==> keys[j] in vals
  }

  /** A file to write: its path and its content. */
  type FileWrite = (Path, string)

  /** The writes of install's env loop: for each key of the env object, in key order,
      env/<key> holding the value and a newline. */
  function EnvWrites(folder: Path, keys: seq<string>, vals: map<string, string>): (w: seq<FileWrite>)
    requires EnvListed(keys, vals)
    ensures |w| == |keys|
  {
    if keys == [] then []
    else
      var key := keys[|keys| - 1];
      EnvWrites(folder, keys[..|keys| - 1], vals) + [(EnvFile(folder, key), vals[key] + "\n")]
  }

  /** Write j of the env loop is key j's file with key j's value. */
  lemma {:induction false} EnvWriteAt(folder: Path, keys: seq<string>, vals: map<string, string>, j: nat)
    requires EnvListed(keys, vals) && j < |keys|
    ensures EnvWrites(folder, keys, vals)[j] == (EnvFile(folder, keys[j]), vals[keys[j]] + "\n")
  {
    if j < |keys| - 1 {
      EnvWriteAt(folder, keys[..|keys| - 1], vals, j);
    }
  }

  /** The first m writes of w, all started together: each one that can succeed does, and
      the settlement is the first failure in order. */
  function WriteFiles(n: Nodes, w: seq<FileWrite>, m: nat): Outcome
    requires m <= |w|
  {
    if m == 0 then Outcome(Ok(()), n)
    else
      var prev := WriteFiles(n, w, m - 1);
      var x := WriteAt(prev.nodes, w[m - 1].0, w[m - 1].1);
      Outcome(FirstErr(prev.result, x.result), x.nodes)
  }

  lemma EnvFileInEnvDir(folder: Path, key: string)
    ensures Under(EnvFile(folder, key), EnvDir(folder))
  {
    assert EnvFile(folder, key) == EnvDir(folder) + "/" + key;
  }

  /** Everything after the folder is in place: the subfolders, the env files, the run
      scripts, their modes and the link, each step starting only once the one before
      it succeeded. */
  function Scaffold(n: Nodes, folder: Path, link: Path, app: AppValue): Outcome {
    var dirs := Subdirs(n, folder);
    if dirs.result.Err? then dirs else Contents(dirs.nodes, folder, link, app)
  }

  /** The folder, then log/ and env/ started together. */
  function Subdirs(n: Nodes, folder: Path): Outcome {
    var made := MkdirAt(n, folder);
    if made.result.Err? then made
    else
      var logMade := MkdirAt(made.nodes, LogDir(folder));
      var envMade := MkdirAt(logMade.nodes, EnvDir(folder));
      Outcome(FirstErr(logMade.result, envMade.result), envMade.nodes)
  }

  /** What goes into the folder once it stands: the env files (Object.keys of a missing
      env throws), then the scripts and the link. */
  function Contents(n: Nodes, folder: Path, link: Path, app: AppValue): Outcome {
    if !app.Def? then Outcome(Err(NoEnvObject), n)
    else
      var env := app.def.env;
      var envs := WriteFiles(n, EnvWrites(folder, env.keys, env.vals), |env.keys|);
      if envs.result.Err? then envs
      else Scripts(envs.nodes, folder, link, app.def)
  }

  /** The last steps of the scaffold: both run scripts, their modes, then the link. */
  function Scripts(n: Nodes, folder: Path, link: Path, def: AppDef): Outcome {
    var logRun := WriteAt(n, LogRunFile(folder), LogRunScript(def));
    if logRun.result.Err? then logRun
    else
      var run := WriteAt(logRun.nodes, RunFile(folder), RunScript(def));
      if run.result.Err? then run
      else
        var runMode := ChmodAt(run.nodes, RunFile(folder), Executable);
        var logRunMode := ChmodAt(runMode.nodes, LogRunFile(folder), Executable);
        var modes := FirstErr(runMode.result, logRunMode.result);
        if modes.Err? then Outcome(modes, logRunMode.nodes)
        else SymlinkAt(logRunMode.nodes, folder, link)
  }

  /** The removals a forced install starts together: the folder tree, then the link. */
  function Clear(n: Nodes, folder: Path, link: Path, hasFolder: bool, hasLink: bool): Outcome {
    var trimmed := if hasFolder then RemoveTree(n, folder) else n;
    if hasLink then UnlinkAt(trimmed, link) else Outcome(Ok(()), trimmed)
  }

  /** The install action on a filesystem: both existence checks come first, then the
      force check, then the app check, then the removals and the scaffold; a failing step
      ends the chain and nothing is rolled back. */
  function InstallRun(n: Nodes, env: Env, force: bool): Outcome {
    var hasFolder := Present(n, env.appFolder);
    var hasLink := Present(n, env.appLink);
    if (hasFolder || hasLink) && !force then Outcome(Err(AlreadyExists), n)
    else if !AppTruthy(env.app) then Outcome(Err(FailedToLoad), n)
    else
      var cleared := Clear(n, env.appFolder, env.appLink, hasFolder, hasLink);
      if cleared.result.Err? then cleared
      else Scaffold(cleared.nodes, env.appFolder, env.appLink, env.app)
  }

  // ---------------------------------------------------------------------------
  // The filesystem object

  class FileSystem {
    var nodes: Nodes

    constructor (nodes: Nodes)
      ensures this.nodes == nodes
    {
      this.nodes := nodes;
    }

    method ExistsSync(p: Path) returns (b: bool)
      ensures b == Present(nodes, p)
    {
      b := Present(nodes, p);
    }

    method Rmdir(p: Path)
      modifies this
      ensures nodes == RemoveTree(old(nodes), p)
    {
      nodes := map q | q in nodes && !InTree(q, p) :: nodes[q];
    }

    method Unlink(p: Path) returns (r: Result<()>)
      modifies this
      ensures r == UnlinkAt(old(nodes), p).result && nodes == UnlinkAt(old(nodes), p).nodes
    {
      if p !in nodes {
        return Err(ENOENT);
      }
      if nodes[p].Dir? {
        return Err(EISDIR);
      }
      nodes := nodes - {p};
      r := Ok(());
    }

    method Mkdir(p: Path) returns (r: Result<()>)
      modifies this
      ensures r == MkdirAt(old(nodes), p).result && nodes == MkdirAt(old(nodes), p).nodes
    {
      if p in nodes {
        return Err(EEXIST);
      }
      if !IsDir(nodes, Dirname(p)) {
        return Err(ENOENT);
      }
      nodes := nodes[p := Dir];
      r := Ok(());
    }

    method WriteFile(p: Path, content: string) returns (r: Result<()>)
      modifies this
      ensures r == WriteAt(old(nodes), p, content).result
      ensures nodes == WriteAt(old(nodes), p, content).nodes
    {
      if !IsDir(nodes, Dirname(p)) {
        return Err(ENOENT);
      }
      if DotTail(p, 0) || IsDir(nodes, p) {
        return Err(EISDIR);
      }
      nodes := nodes[p := File(content, KeptMode(nodes, p))];
      r := Ok(());
    }

    method Chmod(p: Path, mode: nat) returns (r: Result<()>)
      modifies this
      ensures r == ChmodAt(old(nodes), p, mode).result && nodes == ChmodAt(old(nodes), p, mode).nodes
    {
      if p !in nodes {
        return Err(ENOENT);
      }
      if nodes[p].File? {
        nodes := nodes[p := File(nodes[p].content, mode)];
      }
      r := Ok(());
    }

    method Symlink(target: Path, p: Path) returns (r: Result<()>)
      modifies this
      ensures r == SymlinkAt(old(nodes), target, p).result
      ensures nodes == SymlinkAt(old(nodes), target, p).nodes
    {
      if p in nodes {
        return Err(EEXIST);
      }
      if !IsDir(nodes, Dirname(p)) {
        return Err(ENOENT);
      }
      nodes := nodes[p := Link(target)];
      r := Ok(());
    }
  }

  // ---------------------------------------------------------------------------
  // install

  /** The keys of an env object all have values. */
  lemma EnvObjectListed(env: Dict<string>)
    ensures EnvListed(env.keys, env.vals)
  {
  }

  /** One iteration of install's env-file loop: the write for key i. */
  method WriteEnvEntry(fs: FileSystem, folder: Path, keys: seq<string>, vals: map<string, string>, i: nat,
                       ghost start: Nodes, sofar: Result<()>) returns (r: Result<()>)
    requires i < |keys| && EnvListed(keys, vals)
    requires sofar == WriteFiles(start, EnvWrites(folder, keys, vals), i).result
    requires fs.nodes == WriteFiles(start, EnvWrites(folder, keys, vals), i).nodes
    modifies fs
    ensures r == WriteFiles(start, EnvWrites(folder, keys, vals), i + 1).result
    ensures fs.nodes == WriteFiles(start, EnvWrites(folder, keys, vals), i + 1).nodes
  {
    var key := keys[i];
    EnvWriteAt(folder, keys, vals, i);
    var w := fs.WriteFile(EnvFile(folder, key), vals[key] + "\n");
    r := FirstErr(sofar, w);
  }

  /** The env-file loop of install: one write per key of app.env, in key order. */
  method WriteEnv(fs: FileSystem, folder: Path, env: Dict<string>) returns (r: Result<()>)
    modifies fs
    ensures r == WriteFiles(old(fs.nodes), EnvWrites(folder, env.keys, env.vals), |env.keys|).result
    ensures fs.nodes == WriteFiles(old(fs.nodes), EnvWrites(folder, env.keys, env.vals), |env.keys|).nodes
  {
    var keys, vals := env.keys, env.vals;
    EnvObjectListed(env);
    ghost var start := fs.nodes;
    r := Ok(());
    var i := 0;
    while i < |keys|
      invariant 0 <= i <= |keys|
      invariant r == WriteFiles(start, EnvWrites(folder, keys, vals), i).result
      invariant fs.nodes == WriteFiles(start, EnvWrites(folder, keys, vals), i).nodes
    {
      r := WriteEnvEntry(fs, folder, keys, vals, i, start, r);
      i := i + 1;
    }
  }

  /** lib/actions/install.js. `force` is the command's -f flag. */
  method Install(fs: FileSystem, env: Env, force: bool) returns (r: Result<()>)
    modifies fs
    ensures r == InstallRun(old(fs.nodes), env, force).result
    ensures fs.nodes == InstallRun(old(fs.nodes), env, force).nodes
  {
    var folder, link := env.appFolder, env.appLink;
    var hasFolder := fs.ExistsSync(folder);
    var hasLink := fs.ExistsSync(link);
    if (hasFolder || hasLink) && !force {
      return Err(AlreadyExists);
    }
    if !AppTruthy(env.app) {
      return Err(FailedToLoad);
    }
    if hasFolder {
      fs.Rmdir(folder);
    }
    if hasLink {
      r := fs.Unlink(link);
      if r.Err? {
        return;
      }
    }
    r := fs.Mkdir(folder);
    if r.Err? {
      return;
    }
    var logMade := fs.Mkdir(LogDir(folder));
    var envMade := fs.Mkdir(EnvDir(folder));
    r := FirstErr(logMade, envMade);
    if r.Err? {
      return;
    }
    if !env.app.Def? {
      return Err(NoEnvObject);
    }
    var app := env.app.def;
    r := WriteEnv(fs, folder, app.env);
    if r.Err? {
      return;
    }
    r := fs.WriteFile(LogRunFile(folder), LogRunScript(app));
    if r.Err? {
      return;
    }
    r := fs.WriteFile(RunFile(folder), RunScript(app));
    if r.Err? {
      return;
    }
    var runMode := fs.Chmod(RunFile(folder), Executable);
    var logRunMode := fs.Chmod(LogRunFile(folder), Executable);
    r := FirstErr(runMode, logRunMode);
    if r.Err? {
      return;
    }
    r := fs.Symlink(folder, link);
  }

  // ---------------------------------------------------------------------------
  // Where install writes

  /** Every path install creates lies inside the folder, the env files inside env/, and
      the fixed paths are distinct and outside env/. */
  lemma ScaffoldPaths(folder: Path)
    ensures Under(LogDir(folder), folder) && Under(EnvDir(folder), folder)
    ensures Under(LogRunFile(folder), folder) && Under(RunFile(folder), folder)
    ensures !InTree(LogDir(folder), EnvDir(folder)) && !InTree(LogRunFile(folder), EnvDir(folder))
    ensures !InTree(RunFile(folder), EnvDir(folder))
    ensures LogRunFile(folder) != RunFile(folder)
  {
    var k := |folder|;
    assert LogDir(folder)[..k + 1] == folder + "/";
    assert EnvDir(folder)[..k + 1] == folder + "/";
    assert LogRunFile(folder)[..k + 1] == folder + "/";
    assert RunFile(folder)[..k + 1] == folder + "/";
    assert LogDir(folder)[k + 1] == 'l' && EnvDir(folder)[k + 1] == 'e';
    assert LogRunFile(folder)[k + 1] == 'l' && RunFile(folder)[k + 1] == 'r';
  }

  /** Inside env/ is inside the folder. */
  lemma InEnvDirInFolder(q: Path, folder: Path)
    requires InTree(q, EnvDir(folder))
    ensures Under(q, folder)
  {
    assert (EnvDir(folder) + "/")[..|folder| + 1] == folder + "/";
    assert EnvDir(folder)[..|folder| + 1] == folder + "/";
  }

  /** None of the first m writes of w is to q. */
  predicate Unwritten(w: seq<FileWrite>, m: nat, q: Path)
    requires m <= |w|
  {
    forall j :: 0 <= j < m ==> w[j].0 != q
  }

  /** A path none of the writes is to is left as it was. */
  lemma {:induction false} WriteFilesKeep(n: Nodes, w: seq<FileWrite>, m: nat, q: Path)
    requires m <= |w| && Unwritten(w, m, q)
    ensures Agree(n, WriteFiles(n, w, m).nodes, q)
  {
    if m > 0 {
      WriteFilesKeep(n, w, m - 1, q);
    }
  }

  /** The env loop writes nothing outside env/. */
  lemma EnvUnwritten(folder: Path, keys: seq<string>, vals: map<string, string>, q: Path)
    requires EnvListed(keys, vals) && !Under(q, EnvDir(folder))
    ensures Unwritten(EnvWrites(folder, keys, vals), |keys|, q)
  {
    forall j | 0 <= j < |keys|
      ensures EnvWrites(folder, keys, vals)[j].0 != q
    {
      EnvWriteAt(folder, keys, vals, j);
      EnvFileInEnvDir(folder, keys[j]);
    }
  }

  /** The script steps touch only the two run scripts and the link. */
  lemma ScriptsFrame(n: Nodes, folder: Path, link: Path, def: AppDef)
    ensures forall q :: q != LogRunFile(folder) && q != RunFile(folder) && q != link ==>
              Agree(n, Scripts(n, folder, link, def).nodes, q)
  {
    var lrf, rf := LogRunFile(folder), RunFile(folder);
    var logRun := WriteAt(n, lrf, LogRunScript(def));
    var run := WriteAt(logRun.nodes, rf, RunScript(def));
    var runMode := ChmodAt(run.nodes, rf, Executable);
    var logRunMode := ChmodAt(runMode.nodes, lrf, Executable);
    var linked := SymlinkAt(logRunMode.nodes, folder, link);
    forall q | q != lrf && q != rf && q != link
      ensures Agree(n, Scripts(n, folder, link, def).nodes, q)
    {
      assert Agree(n, logRun.nodes, q);
      assert Agree(logRun.nodes, run.nodes, q);
      assert Agree(run.nodes, runMode.nodes, q);
      assert Agree(runMode.nodes, logRunMode.nodes, q);
      assert Agree(logRunMode.nodes, linked.nodes, q);
    }
  }

  /** b holds what a holds everywhere outside the folder but at the link. */
  ghost predicate SameOutside(a: Nodes, b: Nodes, folder: Path, link: Path) {
    forall q :: !InTree(q, folder) && q != link ==> Agree(a, b, q)
  }

  lemma SameOutsideTrans(a: Nodes, b: Nodes, c: Nodes, folder: Path, link: Path)
    requires SameOutside(a, b, folder, link) && SameOutside(b, c, folder, link)
    ensures SameOutside(a, c, folder, link)
  {
  }

  lemma SubdirsFrame(n: Nodes, folder: Path, link: Path)
    ensures SameOutside(n, Subdirs(n, folder).nodes, folder, link)
  {
    ScaffoldPaths(folder);
  }

  lemma EnvFilesOutside(n: Nodes, folder: Path, link: Path, keys: seq<string>, vals: map<string, string>)
    requires EnvListed(keys, vals)
    ensures SameOutside(n, WriteFiles(n, EnvWrites(folder, keys, vals), |keys|).nodes, folder, link)
  {
    forall q | !InTree(q, folder) && q != link
      ensures Agree(n, WriteFiles(n, EnvWrites(folder, keys, vals), |keys|).nodes, q)
    {
      if Under(q, EnvDir(folder)) {
        InEnvDirInFolder(q, folder);
      } else {
        EnvUnwritten(folder, keys, vals, q);
        WriteFilesKeep(n, EnvWrites(folder, keys, vals), |keys|, q);
      }
    }
  }

  lemma ScriptsOutside(n: Nodes, folder: Path, link: Path, def: AppDef)
    ensures SameOutside(n, Scripts(n, folder, link, def).nodes, folder, link)
  {
    ScaffoldPaths(folder);
    ScriptsFrame(n, folder, link, def);
  }

  lemma ContentsFrame(n: Nodes, folder: Path, link: Path, app: AppValue)
    ensures SameOutside(n, Contents(n, folder, link, app).nodes, folder, link)
  {
    if app.Def? {
      var env := app.def.env;
      var envs := WriteFiles(n, EnvWrites(folder, env.keys, env.vals), |env.keys|);
      EnvFilesOutside(n, folder, link, env.keys, env.vals);
      if envs.result.Ok? {
        ScriptsOutside(envs.nodes, folder, link, app.def);
        SameOutsideTrans(n, envs.nodes, Scripts(envs.nodes, folder, link, app.def).nodes, folder, link);
      }
    }
  }

  /** The scaffold touches nothing outside the folder but the link. */
  lemma ScaffoldFrame(n: Nodes, folder: Path, link: Path, app: AppValue)
    ensures SameOutside(n, Scaffold(n, folder, link, app).nodes, folder, link)
  {
    var dirs := Subdirs(n, folder);
    SubdirsFrame(n, folder, link);
    ContentsFrame(dirs.nodes, folder, link, app);
    if dirs.result.Ok? {
      SameOutsideTrans(n, dirs.nodes, Contents(dirs.nodes, folder, link, app).nodes, folder, link);
    }
  }

  /** install touches nothing outside the folder but the link, whether it succeeds or
      stops half way. */
  lemma InstallFrame(n: Nodes, env: Env, force: bool)
    ensures SameOutside(n, InstallRun(n, env, force).nodes, env.appFolder, env.appLink)
  {
    var hasFolder := Present(n, env.appFolder);
    var hasLink := Present(n, env.appLink);
    var cleared := Clear(n, env.appFolder, env.appLink, hasFolder, hasLink);
    ScaffoldFrame(cleared.nodes, env.appFolder, env.appLink, env.app);
  }

  // ---------------------------------------------------------------------------
  // How install fails

  /** The codes a filesystem step of the scaffold can fail with. */
  predicate ScaffoldError(e: string) {
    e == EEXIST || e == ENOENT || e == EISDIR || e == NoEnvObject
  }

  lemma {:induction false} WriteFilesErrors(n: Nodes, w: seq<FileWrite>, m: nat)
    requires m <= |w|
    ensures WriteFiles(n, w, m).result.Err? ==> ScaffoldError(WriteFiles(n, w, m).result.error)
  {
    if m > 0 {
      WriteFilesErrors(n, w, m - 1);
    }
  }

  lemma ScriptsErrors(n: Nodes, folder: Path, link: Path, def: AppDef)
    ensures Scripts(n, folder, link, def).result.Err? ==>
              ScaffoldError(Scripts(n, folder, link, def).result.error)
  {
    var logRun := WriteAt(n, LogRunFile(folder), LogRunScript(def));
    if logRun.result.Ok? {
      var run := WriteAt(logRun.nodes, RunFile(folder), RunScript(def));
      if run.result.Ok? {
        var runMode := ChmodAt(run.nodes, RunFile(folder), Executable);
        var logRunMode := ChmodAt(runMode.nodes, LogRunFile(folder), Executable);
        if FirstErr(runMode.result, logRunMode.result).Ok? {
          assert Scripts(n, folder, link, def) == SymlinkAt(logRunMode.nodes, folder, link);
        }
      }
    }
  }

  lemma ScaffoldErrors(n: Nodes, folder: Path, link: Path, app: AppValue)
    ensures Scaffold(n, folder, link, app).result.Err? ==>
              ScaffoldError(Scaffold(n, folder, link, app).result.error)
  {
    var dirs := Subdirs(n, folder);
    if dirs.result.Ok? && app.Def? {
      var env := app.def.env;
      var envs := WriteFiles(dirs.nodes, EnvWrites(folder, env.keys, env.vals), |env.keys|);
      WriteFilesErrors(dirs.nodes, EnvWrites(folder, env.keys, env.vals), |env.keys|);
      ScriptsErrors(envs.nodes, folder, link, app.def);
    }
  }

  /** install refuses with "already exists" exactly when the folder or the link is there
      and -f was not given, and with "failed to load" exactly when that check passes but
      dt.json gave nothing; either way the filesystem is untouched. */
  lemma InstallRefusal(n: Nodes, env: Env, force: bool)
    ensures var o := InstallRun(n, env, force);
      o.result == Err(AlreadyExists) <==>
        (Present(n, env.appFolder) || Present(n, env.appLink)) && !force
    ensures var o := InstallRun(n, env, force);
      o.result == Err(FailedToLoad) <==>
        !((Present(n, env.appFolder) || Present(n, env.appLink)) && !force) && !AppTruthy(env.app)
    ensures var o := InstallRun(n, env, force);
      o.result == Err(AlreadyExists) || o.result == Err(FailedToLoad) ==> o.nodes == n
  {
    var hasFolder := Present(n, env.appFolder);
    var hasLink := Present(n, env.appLink);
    var cleared := Clear(n, env.appFolder, env.appLink, hasFolder, hasLink);
    ScaffoldErrors(cleared.nodes, env.appFolder, env.appLink, env.app);
  }

  // ---------------------------------------------------------------------------
  // What a successful install leaves

  /** Three updates at distinct paths: what they hold, what the keys are, and what
      is kept. */
  lemma AddThree(n: Nodes, a: Path, b: Path, c: Path, x: Node, y: Node, z: Node)
    requires a != b && a != c && b != c
    ensures var r := n[a := x][b := y][c := z];
      a in r && r[a] == x && b in r && r[b] == y && c in r && r[c] == z &&
      r.Keys == n.Keys + {a, b, c} &&
      forall q :: q in n && q != a && q != b && q != c ==> q in r && r[q] == n[q]
  {
  }

  /** The two run scripts are different files. */
  lemma RunFilesDistinct(folder: Path)
    ensures LogRunFile(folder) != RunFile(folder)
  {
    assert LogRunFile(folder)[|folder| + 1] == 'l' && RunFile(folder)[|folder| + 1] == 'r';
  }

  /** A successful run of the script steps is the two writes, with their modes, and the
      link, which must have been free. */
  lemma ScriptsSteps(n: Nodes, folder: Path, link: Path, def: AppDef)
    requires Scripts(n, folder, link, def).result.Ok?
    ensures link !in n && link != LogRunFile(folder) && link != RunFile(folder)
    ensures Scripts(n, folder, link, def).nodes ==
              n[LogRunFile(folder) := File(LogRunScript(def), Executable)]
               [RunFile(folder) := File(RunScript(def), Executable)]
               [link := Link(folder)]
  {
    RunFilesDistinct(folder);
    var logRun := WriteAt(n, LogRunFile(folder), LogRunScript(def));
    assert logRun.result.Ok?;
    var n1 := n[LogRunFile(folder) := File(LogRunScript(def), KeptMode(n, LogRunFile(folder)))];
    assert logRun.nodes == n1;
    var run := WriteAt(n1, RunFile(folder), RunScript(def));
    assert run.result.Ok?;
    var n2 := n1[RunFile(folder) := File(RunScript(def), KeptMode(n1, RunFile(folder)))];
    assert run.nodes == n2;
    var runMode := ChmodAt(n2, RunFile(folder), Executable);
    var n3 := n2[RunFile(folder) := File(RunScript(def), Executable)];
    assert runMode.result.Ok? && runMode.nodes == n3;
    var logRunMode := ChmodAt(n3, LogRunFile(folder), Executable);
    var n4 := n3[LogRunFile(folder) := File(LogRunScript(def), Executable)];
    assert logRunMode.result.Ok? && logRunMode.nodes == n4;
    assert Scripts(n, folder, link, def) == SymlinkAt(n4, folder, link);
    assert n4 == n[LogRunFile(folder) := File(LogRunScript(def), Executable)]
                  [RunFile(folder) := File(RunScript(def), Executable)];
  }

  /** Successful script steps add exactly the two run scripts, both executable, and the
      link to the folder, which must have been free; everything else is kept. */
  lemma ScriptsLayout(n: Nodes, folder: Path, link: Path, def: AppDef)
    requires Scripts(n, folder, link, def).result.Ok?
    ensures link !in n
    ensures var r := Scripts(n, folder, link, def).nodes;
      LogRunFile(folder) in r && r[LogRunFile(folder)] == File(LogRunScript(def), Executable) &&
      RunFile(folder) in r && r[RunFile(folder)] == File(RunScript(def), Executable) &&
      link in r && r[link] == Link(folder)
    ensures var r := Scripts(n, folder, link, def).nodes;
      r.Keys == n.Keys + {LogRunFile(folder), RunFile(folder), link}
    ensures var r := Scripts(n, folder, link, def).nodes;
      forall q :: q in n && q != LogRunFile(folder) && q != RunFile(folder) ==> q in r && r[q] == n[q]
  {
    RunFilesDistinct(folder);
    ScriptsSteps(n, folder, link, def);
    AddThree(n, LogRunFile(folder), RunFile(folder), link, File(LogRunScript(def), Executable),
             File(RunScript(def), Executable), Link(folder));
  }

  /** Different keys give different env files. */
  lemma EnvFileInjective(folder: Path, a: string, b: string)
    requires EnvFile(folder, a) == EnvFile(folder, b)
    ensures a == b
  {
    var k := |folder| + 5;
    assert EnvFile(folder, a)[k..] == a;
    assert EnvFile(folder, b)[k..] == b;
  }

  lemma EnvFileDistinct(folder: Path, a: string, b: string)
    requires a != b
    ensures EnvFile(folder, a) != EnvFile(folder, b)
  {
    if EnvFile(folder, a) == EnvFile(folder, b) {
      EnvFileInjective(folder, a, b);
    }
  }

  /** The paths of the first m writes of w. */
  function PathsOf(w: seq<FileWrite>, m: nat): set<Path>
    requires m <= |w|
  {
    if m == 0 then {} else PathsOf(w, m - 1) + {w[m - 1].0}
  }

  /** Successful writes add exactly their paths. */
  lemma {:induction false} WriteFilesKeys(n: Nodes, w: seq<FileWrite>, m: nat)
    requires m <= |w| && WriteFiles(n, w, m).result.Ok?
    ensures WriteFiles(n, w, m).nodes.Keys == n.Keys + PathsOf(w, m)
  {
    if m > 0 {
      WriteFilesKeys(n, w, m - 1);
    }
  }

  /** No two writes of w are to the same path. */
  predicate DistinctPaths(w: seq<FileWrite>) {
    forall i, j :: 0 <= i < j < |w| ==> w[i].0 != w[j].0
  }

  /** Distinct keys give distinct env files. */
  lemma EnvWritesDistinct(folder: Path, keys: seq<string>, vals: map<string, string>)
    requires EnvListed(keys, vals) && DistinctKeys(keys)
    ensures DistinctPaths(EnvWrites(folder, keys, vals))
  {
    var w := EnvWrites(folder, keys, vals);
    forall i, j | 0 <= i < j < |w|
      ensures w[i].0 != w[j].0
    {
      EnvWriteAt(folder, keys, vals, i);
      EnvWriteAt(folder, keys, vals, j);
      EnvFileDistinct(folder, keys[i], keys[j]);
    }
  }

  /** The last write of a successful run of writes. */
  lemma WriteFilesLast(n: Nodes, w: seq<FileWrite>, m: nat)
    requires 0 < m <= |w| && WriteFiles(n, w, m).result.Ok?
    ensures var prev := WriteFiles(n, w, m - 1);
      var p := w[m - 1].0;
      prev.result.Ok? &&
      WriteFiles(n, w, m).nodes == prev.nodes[p := File(w[m - 1].1, KeptMode(prev.nodes, p))]
  {
  }

  /** After successful writes, the last one's file holds its content, with the mode it
      had before or 0o666. */
  lemma WriteFileLast(n: Nodes, w: seq<FileWrite>, m: nat)
    requires 0 < m <= |w| && DistinctPaths(w) && WriteFiles(n, w, m).result.Ok?
    ensures var r := WriteFiles(n, w, m).nodes;
      var p := w[m - 1].0;
      p in r && r[p] == File(w[m - 1].1, KeptMode(n, p))
  {
    WriteFilesLast(n, w, m);
    var p := w[m - 1].0;
    WriteFilesKeep(n, w, m - 1, p);
    KeptModeAgree(n, WriteFiles(n, w, m - 1).nodes, p);
  }

  /** After successful writes, write i's file holds its content, and has mode 0o666 when
      it did not exist before. */
  lemma {:induction false} WriteFileAt(n: Nodes, w: seq<FileWrite>, m: nat, i: nat)
    requires i < m <= |w| && DistinctPaths(w) && WriteFiles(n, w, m).result.Ok?
    ensures var r := WriteFiles(n, w, m).nodes;
      var p := w[i].0;
      p in r && r[p] == File(w[i].1, KeptMode(n, p))
  {
    if i == m - 1 {
      WriteFileLast(n, w, m);
    } else {
      WriteFilesLast(n, w, m);
      WriteFileAt(n, w, m - 1, i);
      var prev := WriteFiles(n, w, m - 1).nodes;
      var last := w[m - 1].0;
      UpdateElsewhere(prev, w[i].0, last, File(w[m - 1].1, KeptMode(prev, last)));
    }
  }

  /** An update at one path leaves another path as it was. */
  lemma UpdateElsewhere(m: Nodes, a: Path, b: Path, v: Node)
    requires a != b && a in m
    ensures a in m[b := v] && m[b := v][a] == m[a]
  {
  }

  /** A path that agrees in two trees gets the same mode when written. */
  lemma KeptModeAgree(a: Nodes, b: Nodes, p: Path)
    requires Agree(a, b, p)
    ensures KeptMode(a, p) == KeptMode(b, p)
  {
  }

  /** Successful folder creation: the folder was free, its parent a directory, and the
      folder, log/ and env/ are now directories. */
  lemma SubdirsLayout(n: Nodes, folder: Path)
    requires Subdirs(n, folder).result.Ok?
    ensures folder !in n && IsDir(n, Dirname(folder))
    ensures Subdirs(n, folder).nodes == n[folder := Dir][LogDir(folder) := Dir][EnvDir(folder) := Dir]
  {
  }

  /** The files of a successful scaffold, on top of the directories it stands in. */
  lemma ContentsFiles(n: Nodes, folder: Path, link: Path, app: AppValue)
    requires Contents(n, folder, link, app).result.Ok?
    ensures app.Def?
    ensures var r := Contents(n, folder, link, app).nodes;
      LogRunFile(folder) in r && r[LogRunFile(folder)] == File(LogRunScript(app.def), Executable) &&
      RunFile(folder) in r && r[RunFile(folder)] == File(RunScript(app.def), Executable) &&
      link in r && r[link] == Link(folder)
    ensures var r := Contents(n, folder, link, app).nodes;
      forall q :: q in n && !Under(q, EnvDir(folder)) && q != LogRunFile(folder) && q != RunFile(folder) ==>
        q in r && r[q] == n[q]
  {
    var env := app.def.env;
    var w := EnvWrites(folder, env.keys, env.vals);
    var envs := WriteFiles(n, w, |env.keys|);
    ScriptsLayout(envs.nodes, folder, link, app.def);
    forall q | !Under(q, EnvDir(folder))
      ensures Agree(n, envs.nodes, q)
    {
      EnvUnwritten(folder, env.keys, env.vals, q);
      WriteFilesKeep(n, w, |env.keys|, q);
    }
  }

  /** Each key's env file after a successful scaffold: its value and a newline. */
  lemma ContentsEnvFile(n: Nodes, folder: Path, link: Path, app: AppValue, i: nat)
    requires Contents(n, folder, link, app).result.Ok?
    requires app.Def? && i < |app.def.env.keys|
    ensures var r := Contents(n, folder, link, app).nodes;
      var p := EnvFile(folder, app.def.env.keys[i]);
      p in r && r[p] == File(app.def.env.vals[app.def.env.keys[i]] + "\n", KeptMode(n, p))
  {
    var env := app.def.env;
    var w := EnvWrites(folder, env.keys, env.vals);
    var envs := WriteFiles(n, w, |env.keys|);
    EnvWritesDistinct(folder, env.keys, env.vals);
    WriteFileAt(n, w, |env.keys|, i);
    EnvWriteAt(folder, env.keys, env.vals, i);
    ScriptsLayout(envs.nodes, folder, link, app.def);
    EnvFileInEnvDir(folder, env.keys[i]);
    ScaffoldPaths(folder);
  }

  /** The layout a successful install leaves: the folder with log/ and env/, both run
      scripts with their exact contents and mode 0o755, the link pointing at the folder,
      and one env file per key of the app's env holding its value and a newline. */
  ghost predicate Laid(r: Nodes, folder: Path, link: Path, def: AppDef) {
    IsDir(r, folder) && IsDir(r, LogDir(folder)) && IsDir(r, EnvDir(folder)) &&
    LogRunFile(folder) in r && r[LogRunFile(folder)] == File(LogRunScript(def), Executable) &&
    RunFile(folder) in r && r[RunFile(folder)] == File(RunScript(def), Executable) &&
    link in r && r[link] == Link(folder) &&
    forall i :: 0 <= i < |def.env.keys| ==>
      EnvFile(folder, def.env.keys[i]) in r && r[EnvFile(folder, def.env.keys[i])].File? &&
      r[EnvFile(folder, def.env.keys[i])].content == def.env.vals[def.env.keys[i]] + "\n"
  }

  lemma ScaffoldLayout(n: Nodes, folder: Path, link: Path, app: AppValue)
    requires Scaffold(n, folder, link, app).result.Ok?
    ensures app.Def? && Laid(Scaffold(n, folder, link, app).nodes, folder, link, app.def)
  {
    var dirs := Subdirs(n, folder);
    SubdirsLayout(n, folder);
    assert Scaffold(n, folder, link, app) == Contents(dirs.nodes, folder, link, app);
    ContentsFiles(dirs.nodes, folder, link, app);
    ScaffoldPaths(folder);
    var r := Contents(dirs.nodes, folder, link, app).nodes;
    var e := app.def.env;
    forall i | 0 <= i < |e.keys|
      ensures EnvFile(folder, e.keys[i]) in r && r[EnvFile(folder, e.keys[i])].File? &&
              r[EnvFile(folder, e.keys[i])].content == e.vals[e.keys[i]] + "\n"
    {
      ContentsEnvFile(dirs.nodes, folder, link, app, i);
    }
  }

  /** A successful install found an app definition and leaves its layout in place. */
  lemma InstallLayout(n: Nodes, env: Env, force: bool)
    requires InstallRun(n, env, force).result.Ok?
    ensures env.app.Def? && Laid(InstallRun(n, env, force).nodes, env.appFolder, env.appLink, env.app.def)
  {
    var c := Clear(n, env.appFolder, env.appLink, Present(n, env.appFolder), Present(n, env.appLink));
    assert InstallRun(n, env, force) == Scaffold(c.nodes, env.appFolder, env.appLink, env.app);
    ScaffoldLayout(c.nodes, env.appFolder, env.appLink, env.app);
  }

  // ---------------------------------------------------------------------------
  // Exactly what a successful install leaves in the folder

  /** Nothing lies inside a directory that is not there, in a well-formed tree. */
  lemma {:induction false} NoDescendants(n: Nodes, p: Path, f: Path)
    requires WellFormed(n) && f != "" && f !in n && Under(p, f)
    ensures p !in n
    decreases |p|
  {
    ParentOfUnder(p, f);
    var d := Dirname(p);
    assert d == p[..LastSlash(p)];
    if d != f {
      NoDescendants(n, d, f);
    }
  }

  /** The paths a scaffold creates inside the folder, w being its env writes. */
  function ScaffoldNodes(folder: Path, w: seq<FileWrite>): set<Path> {
    {folder, LogDir(folder), EnvDir(folder), LogRunFile(folder), RunFile(folder)} + PathsOf(w, |w|)
  }

  /** The env writes of a scaffold for app. */
  function AppEnvWrites(folder: Path, def: AppDef): seq<FileWrite> {
    EnvWrites(folder, def.env.keys, def.env.vals)
  }

  /** A successful scaffold adds its own paths and the link, and removes none. */
  lemma ScaffoldKeys(n: Nodes, folder: Path, link: Path, app: AppValue)
    requires Scaffold(n, folder, link, app).result.Ok?
    ensures app.Def?
    ensures Scaffold(n, folder, link, app).nodes.Keys ==
              n.Keys + ScaffoldNodes(folder, AppEnvWrites(folder, app.def)) + {link}
  {
    var dirs := Subdirs(n, folder);
    SubdirsLayout(n, folder);
    assert Scaffold(n, folder, link, app) == Contents(dirs.nodes, folder, link, app);
    assert dirs.nodes.Keys == n.Keys + {folder, LogDir(folder), EnvDir(folder)};
    ContentsKeys(dirs.nodes, folder, link, app);
  }

  /** Successful contents add the env files, the two run scripts and the link. */
  lemma ContentsKeys(n: Nodes, folder: Path, link: Path, app: AppValue)
    requires Contents(n, folder, link, app).result.Ok?
    ensures app.Def?
    ensures var w := AppEnvWrites(folder, app.def);
      Contents(n, folder, link, app).nodes.Keys ==
        n.Keys + PathsOf(w, |w|) + {LogRunFile(folder), RunFile(folder), link}
  {
    var w := AppEnvWrites(folder, app.def);
    var envs := WriteFiles(n, w, |w|);
    WriteFilesKeys(n, w, |w|);
    ScriptsLayout(envs.nodes, folder, link, app.def);
  }

  /** Where the folder held nothing, each env file a successful scaffold writes is new and
      so has mode 0o666. */
  lemma ScaffoldEnvMode(n: Nodes, folder: Path, link: Path, app: AppValue, i: nat)
    requires forall q :: InTree(q, folder) ==> q !in n
    requires Scaffold(n, folder, link, app).result.Ok?
    requires app.Def? && i < |app.def.env.keys|
    ensures var r := Scaffold(n, folder, link, app).nodes;
      var p := AppEnvWrites(folder, app.def)[i].0;
      p in r && r[p].File? && r[p].mode == NewFileMode
  {
    var dirs := Subdirs(n, folder);
    SubdirsLayout(n, folder);
    assert Scaffold(n, folder, link, app) == Contents(dirs.nodes, folder, link, app);
    var key := app.def.env.keys[i];
    ContentsEnvFile(dirs.nodes, folder, link, app, i);
    EnvWriteAt(folder, app.def.env.keys, app.def.env.vals, i);
    var p := EnvFile(folder, key);
    EnvFileInEnvDir(folder, key);
    InEnvDirInFolder(p, folder);
    assert p !in n;
    assert p != folder && p != LogDir(folder) && p != EnvDir(folder) by {
      assert |p| > |EnvDir(folder)| == |LogDir(folder)| > |folder|;
    }
    assert p !in dirs.nodes;
  }

  /** With force, install first clears the folder; without it, a successful install
      found no folder. Either way the scaffold starts from an empty folder. */
  lemma ClearedEmpty(n: Nodes, env: Env, force: bool)
    requires WellFormed(n) && env.appFolder != "" && env.appFolder != env.appLink
    requires InstallRun(n, env, force).result.Ok?
    ensures var c := Clear(n, env.appFolder, env.appLink, Present(n, env.appFolder), Present(n, env.appLink));
      c.result.Ok? && forall q :: InTree(q, env.appFolder) ==> q !in c.nodes
  {
    var folder := env.appFolder;
    var c := Clear(n, folder, env.appLink, Present(n, folder), Present(n, env.appLink));
    assert Scaffold(c.nodes, folder, env.appLink, env.app).result.Ok?;
    SubdirsLayout(c.nodes, folder);
    if !Present(n, folder) {
      assert folder !in n;
      forall q | Under(q, folder)
        ensures q !in c.nodes
      {
        NoDescendants(n, q, folder);
      }
    }
  }

  /** Inside the folder, r holds exactly the scaffold's paths, and every env file in it
      was created afresh with mode 0o666. */
  ghost predicate ExactlyScaffold(r: Nodes, folder: Path, w: seq<FileWrite>) {
    (forall q :: InTree(q, folder) ==> (q in r <==> q in ScaffoldNodes(folder, w))) &&
    forall i :: 0 <= i < |w| ==> w[i].0 in r && r[w[i].0].File? && r[w[i].0].mode == NewFileMode
  }

  lemma ScaffoldExact(n: Nodes, folder: Path, link: Path, app: AppValue)
    requires forall q :: InTree(q, folder) ==> q !in n
    requires !InTree(link, folder)
    requires Scaffold(n, folder, link, app).result.Ok?
    ensures app.Def? && ExactlyScaffold(Scaffold(n, folder, link, app).nodes, folder, AppEnvWrites(folder, app.def))
  {
    ScaffoldKeys(n, folder, link, app);
    var w := AppEnvWrites(folder, app.def);
    var r := Scaffold(n, folder, link, app).nodes;
    forall i | 0 <= i < |w|
      ensures w[i].0 in r && r[w[i].0].File? && r[w[i].0].mode == NewFileMode
    {
      ScaffoldEnvMode(n, folder, link, app, i);
    }
  }

  /** In a well-formed tree, a successful install leaves exactly the scaffold in the
      folder: whatever was there before is gone, and every env file is new. */
  lemma InstallExact(n: Nodes, env: Env, force: bool)
    requires WellFormed(n) && env.appFolder != "" && !InTree(env.appLink, env.appFolder)
    requires InstallRun(n, env, force).result.Ok?
    ensures env.app.Def? &&
            ExactlyScaffold(InstallRun(n, env, force).nodes, env.appFolder, AppEnvWrites(env.appFolder, env.app.def))
  {
    var folder, link := env.appFolder, env.appLink;
    ClearedEmpty(n, env, force);
    var c := Clear(n, folder, link, Present(n, folder), Present(n, link));
    assert InstallRun(n, env, force) == Scaffold(c.nodes, folder, link, env.app);
    ScaffoldExact(c.nodes, folder, link, env.app);
  }

  // ---------------------------------------------------------------------------
  // Reinstalling

  /** A successful scaffold found the link's place free. */
  lemma ScaffoldLinkFree(n: Nodes, folder: Path, link: Path, app: AppValue)
    requires Scaffold(n, folder, link, app).result.Ok?
    ensures link !in n
  {
    var dirs := Subdirs(n, folder);
    SubdirsLayout(n, folder);
    var w := AppEnvWrites(folder, app.def);
    var envs := WriteFiles(dirs.nodes, w, |w|);
    assert Scaffold(n, folder, link, app) == Scripts(envs.nodes, folder, link, app.def);
    WriteFilesKeys(dirs.nodes, w, |w|);
    ScriptsSteps(envs.nodes, folder, link, app.def);
    assert link !in envs.nodes;
  }

  /** Clearing the folder and the link again gives back the cleared tree c when r differs
      from c only there and c held neither. */
  lemma ClearAgain(c: Nodes, r: Nodes, folder: Path, link: Path)
    requires forall q :: InTree(q, folder) ==> q !in c
    requires link !in c && !InTree(link, folder)
    requires SameOutside(c, r, folder, link)
    requires link in r && !r[link].Dir?
    ensures Clear(r, folder, link, true, true) == Outcome(Ok(()), c)
  {
    var trimmed := RemoveTree(r, folder);
    var again := UnlinkAt(trimmed, link);
    assert again.result.Ok? && again.nodes == trimmed - {link};
    forall q
      ensures q in again.nodes <==> q in c
      ensures q in again.nodes ==> again.nodes[q] == c[q]
    {
      if !InTree(q, folder) && q != link {
        assert Agree(c, r, q);
      }
    }
    assert again.nodes == c;
  }

  /** Installing again with -f over a successful install clears exactly what the first
      one made, so it ends in the same state with the same result. */
  lemma ForcedReinstall(n: Nodes, env: Env)
    requires WellFormed(n) && env.appFolder != "" && !InTree(env.appLink, env.appFolder)
    requires InstallRun(n, env, true).result.Ok?
    ensures InstallRun(InstallRun(n, env, true).nodes, env, true) == InstallRun(n, env, true)
  {
    var folder, link := env.appFolder, env.appLink;
    ClearedEmpty(n, env, true);
    var c := Clear(n, folder, link, Present(n, folder), Present(n, link));
    var r := InstallRun(n, env, true).nodes;
    assert InstallRun(n, env, true) == Scaffold(c.nodes, folder, link, env.app);
    ScaffoldFrame(c.nodes, folder, link, env.app);
    ScaffoldLinkFree(c.nodes, folder, link, env.app);
    InstallLayout(n, env, true);
    ClearAgain(c.nodes, r, folder, link);
    assert Resolves(r, folder, MaxSymlinkHops - 1);
    assert Present(r, folder) && Present(r, link);
  }

  // ---------------------------------------------------------------------------
  // Every step keeps the tree well formed

  /** mkdir adds a directory only inside a directory. */
  lemma MkdirKeepsWellFormed(n: Nodes, p: Path)
    requires WellFormed(n)
    ensures WellFormed(MkdirAt(n, p).nodes)
  {
  }

  /** writeFile puts a file only inside a directory and never replaces a directory. */
  lemma WriteKeepsWellFormed(n: Nodes, p: Path, content: string)
    requires WellFormed(n)
    ensures WellFormed(WriteAt(n, p, content).nodes)
  {
  }

  /** symlink adds a link only inside a directory. */
  lemma SymlinkKeepsWellFormed(n: Nodes, target: Path, p: Path)
    requires WellFormed(n)
    ensures WellFormed(SymlinkAt(n, target, p).nodes)
  {
  }

  /** chmod changes a mode, never what kind of node a path holds. */
  lemma ChmodKeepsWellFormed(n: Nodes, p: Path, mode: nat)
    requires WellFormed(n)
    ensures WellFormed(ChmodAt(n, p, mode).nodes)
  {
  }

  /** unlink removes only a node that is not a directory, so nothing sat inside it. */
  lemma UnlinkKeepsWellFormed(n: Nodes, p: Path)
    requires WellFormed(n)
    ensures WellFormed(UnlinkAt(n, p).nodes)
  {
  }

  /** Removing a whole tree removes whatever sat inside it, so what is left still sits
      in directories. */
  lemma RemoveTreeKeepsWellFormed(n: Nodes, p: Path)
    requires WellFormed(n) && Dirname(p) != p
    ensures WellFormed(RemoveTree(n, p))
  {
    var m := RemoveTree(n, p);
    forall q | q in m && Dirname(q) != q
      ensures IsDir(m, Dirname(q))
    {
      if InTree(Dirname(q), p) {
        ChildInTree(q, p);
      }
    }
  }

  lemma {:induction false} WriteFilesKeepWellFormed(n: Nodes, w: seq<FileWrite>, m: nat)
    requires WellFormed(n) && m <= |w|
    ensures WellFormed(WriteFiles(n, w, m).nodes)
  {
    if m > 0 {
      var prev := WriteFiles(n, w, m - 1);
      WriteFilesKeepWellFormed(n, w, m - 1);
      WriteKeepsWellFormed(prev.nodes, w[m - 1].0, w[m - 1].1);
    }
  }

  lemma ClearKeepsWellFormed(n: Nodes, folder: Path, link: Path, hasFolder: bool, hasLink: bool)
    requires WellFormed(n) && Dirname(folder) != folder
    ensures WellFormed(Clear(n, folder, link, hasFolder, hasLink).nodes)
  {
    var trimmed := if hasFolder then RemoveTree(n, folder) else n;
    RemoveTreeKeepsWellFormed(n, folder);
    UnlinkKeepsWellFormed(trimmed, link);
  }

  lemma SubdirsKeepWellFormed(n: Nodes, folder: Path)
    requires WellFormed(n)
    ensures WellFormed(Subdirs(n, folder).nodes)
  {
    var made := MkdirAt(n, folder);
    MkdirKeepsWellFormed(n, folder);
    var logMade := MkdirAt(made.nodes, LogDir(folder));
    MkdirKeepsWellFormed(made.nodes, LogDir(folder));
    MkdirKeepsWellFormed(logMade.nodes, EnvDir(folder));
  }

  lemma ScriptsKeepWellFormed(n: Nodes, folder: Path, link: Path, def: AppDef)
    requires WellFormed(n)
    ensures WellFormed(Scripts(n, folder, link, def).nodes)
  {
    var logRun := WriteAt(n, LogRunFile(folder), LogRunScript(def));
    WriteKeepsWellFormed(n, LogRunFile(folder), LogRunScript(def));
    var run := WriteAt(logRun.nodes, RunFile(folder), RunScript(def));
    WriteKeepsWellFormed(logRun.nodes, RunFile(folder), RunScript(def));
    var runMode := ChmodAt(run.nodes, RunFile(folder), Executable);
    ChmodKeepsWellFormed(run.nodes, RunFile(folder), Executable);
    var logRunMode := ChmodAt(runMode.nodes, LogRunFile(folder), Executable);
    ChmodKeepsWellFormed(runMode.nodes, LogRunFile(folder), Executable);
    SymlinkKeepsWellFormed(logRunMode.nodes, folder, link);
  }

  lemma ScaffoldKeepsWellFormed(n: Nodes, folder: Path, link: Path, app: AppValue)
    requires WellFormed(n)
    ensures WellFormed(Scaffold(n, folder, link, app).nodes)
  {
    var dirs := Subdirs(n, folder);
    SubdirsKeepWellFormed(n, folder);
    if dirs.result.Ok? && app.Def? {
      var env := app.def.env;
      var w := EnvWrites(folder, env.keys, env.vals);
      WriteFilesKeepWellFormed(dirs.nodes, w, |env.keys|);
      ScriptsKeepWellFormed(WriteFiles(dirs.nodes, w, |env.keys|).nodes, folder, link, app.def);
    }
  }

  /** Whether it succeeds or stops half-way, install leaves every node other than a root
      inside a directory, provided the folder is not a root itself; so a successful
      install meets the assumption of InstallExact and ForcedReinstall again. */
  lemma InstallKeepsWellFormed(n: Nodes, env: Env, force: bool)
    requires WellFormed(n) && Dirname(env.appFolder) != env.appFolder
    ensures WellFormed(InstallRun(n, env, force).nodes)
  {
    var hasFolder := Present(n, env.appFolder);
    var hasLink := Present(n, env.appLink);
    var cleared := Clear(n, env.appFolder, env.appLink, hasFolder, hasLink);
    ClearKeepsWellFormed(n, env.appFolder, env.appLink, hasFolder, hasLink);
    ScaffoldKeepsWellFormed(cleared.nodes, env.appFolder, env.appLink, env.app);
  }
}
