/** `kubectl proxy` management, src-tauri/src/commands/proxy.rs: choosing the
    kubectl binary, locating the kubeconfig file for a context, building the
    argument vector, the single proxy slot, and the readiness poll. */
module Proxy {
  import opened Wrappers
  import opened Text
  import opened Sorting

  const BaseArgs: seq<string> := ["proxy", "--port=8001", "--disable-filter=true"]
  const ContextFlag := "--context="
  const KubeconfigFlag := "--kubeconfig="
  const UnixCandidates: seq<string> := ["/usr/bin/kubectl", "/usr/local/bin/kubectl"]
  const KubeDirName := ".kube"
  const ConfigPrefix := "config"
  /** Attempts of the readiness poll (one every 500 ms). */
  const MaxAttempts: nat := 10
  const NoOutputDetail := "no output captured from kubectl proxy"
  const NotReadyPrefix := "kubectl proxy did not become ready after 10 attempts (5 s).\nProxy output:\n"

  /** One item of `read_dir`: its file name, None when it is not valid
      Unicode.  Whether its path is a directory is read from `Host.directories`. */
  datatype DirEntry = DirEntry(fileName: Option<string>)

  /** What the commands observe of the machine they run on. */
  datatype Host = Host(
    isWindows: bool,                                // cfg!(windows)
    existing: set<string>,                          // paths for which Path::exists holds
    directories: set<string>,                       // paths for which Path::is_dir holds
    homeDir: Option<string>,                        // dirs::home_dir()
    userProfile: Option<string>,                    // the USERPROFILE variable, when it is set
    listings: map<string, seq<Option<DirEntry>>>,   // read_dir per directory; a missing key fails,
                                                    // a None item is an entry that failed
    kubeconfigs: map<string, seq<string>>)          // context names of each file Kubeconfig::read_from
                                                    // parses; a missing key fails to parse

  // ---------------------------------------------------------------------------
  // Searching a candidate list

  /** Position of the first candidate that is in `accepted`; `|candidates|`
      when there is none. */
  function FirstIndex(candidates: seq<string>, accepted: set<string>): (i: nat)
    ensures i <= |candidates|
    ensures i < |candidates| ==> candidates[i] in accepted
    ensures forall j :: 0 <= j < i ==> candidates[j] !in accepted
  {
    if candidates == [] || candidates[0] in accepted then 0
    else
      var i := FirstIndex(candidates[1..], accepted);
      assert forall j :: 1 <= j < i + 1 ==> candidates[j] == candidates[1..][j - 1];
      i + 1
  }

  /** The first candidate that is in `accepted`, as a `for` loop with an early
      `return` finds it. */
  function FirstIn(candidates: seq<string>, accepted: set<string>): (r: Option<string>)
    ensures r.Some? ==> r.value in accepted && r.value in candidates
    ensures r.Some? ==> r.value == candidates[FirstIndex(candidates, accepted)]
    ensures r.None? ==> forall j :: 0 <= j < |candidates| ==> candidates[j] !in accepted
  {
    var i := FirstIndex(candidates, accepted);
    if i < |candidates| then Some(candidates[i]) else None
  }

  lemma {:induction false} FirstIndexAppend(a: seq<string>, b: seq<string>, accepted: set<string>)
    ensures FirstIndex(a + b, accepted) == if FirstIndex(a, accepted) < |a| then FirstIndex(a, accepted) else |a| + FirstIndex(b, accepted)
  {
    if a != [] {
      assert (a + b)[0] == a[0] && (a + b)[1..] == a[1..] + b;
      FirstIndexAppend(a[1..], b, accepted);
    } else {
      assert a + b == b;
    }
  }

  /** Searching two lists one after the other is searching their concatenation. */
  lemma FirstInAppend(a: seq<string>, b: seq<string>, accepted: set<string>)
    ensures FirstIn(a + b, accepted) == if FirstIn(a, accepted).Some? then FirstIn(a, accepted) else FirstIn(b, accepted)
  {
    FirstIndexAppend(a, b, accepted);
    var i := FirstIndex(a, accepted);
    if i == |a| {
      var k := FirstIndex(b, accepted);
      if k < |b| {
        assert (a + b)[|a| + k] == b[k];
      }
    } else {
      assert (a + b)[i] == a[i];
    }
  }

  // ---------------------------------------------------------------------------
  // kubectl_binary

  /** The kubectl program: `kubectl.exe` on Windows; elsewhere the first of the
      two explicit Unix paths that exists, else `kubectl` looked up on PATH. */
  function KubectlBinary(host: Host): (bin: string)
    ensures host.isWindows ==> bin == "kubectl.exe"
    ensures !host.isWindows && "/usr/bin/kubectl" in host.existing ==> bin == "/usr/bin/kubectl"
    ensures !host.isWindows && "/usr/bin/kubectl" !in host.existing && "/usr/local/bin/kubectl" in host.existing
      ==> bin == "/usr/local/bin/kubectl"
    ensures !host.isWindows && "/usr/bin/kubectl" !in host.existing && "/usr/local/bin/kubectl" !in host.existing
      ==> bin == "kubectl"
  {
    if host.isWindows then "kubectl.exe"
    else
      assert UnixCandidates[0] == "/usr/bin/kubectl" && UnixCandidates[1] == "/usr/local/bin/kubectl";
      match FirstIn(UnixCandidates, host.existing)
      case Some(candidate) => candidate
      case None => "kubectl"
  }

  // ---------------------------------------------------------------------------
  // windows_home_in_wsl

  /** The WSL path of the Windows home directory named by USERPROFILE: the
      trimmed value must start with a drive letter and ':'; the drive is
      lower-cased and every '\' after it becomes '/'. */
  function WindowsHomeInWsl(userProfile: Option<string>): (home: Option<string>)
    ensures home.Some? <==> userProfile.Some? && |Trim(userProfile.value)| >= 2 && Trim(userProfile.value)[1] == ':'
    ensures home.Some? ==> var p := Trim(userProfile.value);
      |home.value| == |p| + 4 && home.value[..5] == "/mnt/" && home.value[5] == AsciiLower(p[0])
      && forall k :: 6 <= k < |home.value| ==> home.value[k] == (if p[k - 4] == '\\' then '/' else p[k - 4])
  {
    match userProfile
    case None => None
    case Some(raw) =>
      var p := Trim(raw);
      if |p| < 2 || p[1] != ':' then None
      else
        var rest := ReplaceChar(p[2..], '\\', '/');
        var home := "/mnt/" + [AsciiLower(p[0])] + rest;
        assert forall k :: 6 <= k < |home| ==> home[k] == rest[k - 6];
        Some(home)
  }

  /** A profile made of a drive, ':' and a path that ends in a non-blank
      character is its own trim, so it converts as is. */
  lemma WindowsHomeOfDrive(drive: char, path: string)
    requires !IsWhitespace(drive) && path != [] && !IsWhitespace(path[|path| - 1])
    ensures WindowsHomeInWsl(Some([drive, ':'] + path)) == Some("/mnt/" + [AsciiLower(drive)] + ReplaceChar(path, '\\', '/'))
  {
    ProfileParts(drive, path);
    WindowsHomeOfTrimmed([drive, ':'] + path);
  }

  /** The pieces of a profile made of a drive, ':' and a path that ends in a
      non-blank character; such a profile is its own trim. */
  lemma ProfileParts(drive: char, path: string)
    requires !IsWhitespace(drive) && path != [] && !IsWhitespace(path[|path| - 1])
    ensures var p := [drive, ':'] + path; Trim(p) == p && p[0] == drive && p[1] == ':' && p[1..] == [':'] + path && p[2..] == path
  {
    var p := [drive, ':'] + path;
    assert p[|p| - 1] == path[|path| - 1];
    TrimUntouched(p);
    assert p[1..] == [':'] + path;
    assert p[2..] == path;
  }

  lemma WindowsHomeOfTrimmed(p: string)
    requires Trim(p) == p && |p| >= 2 && p[1] == ':'
    ensures WindowsHomeInWsl(Some(p)) == Some("/mnt/" + [AsciiLower(p[0])] + ReplaceChar(p[2..], '\\', '/'))
  {
  }

  /** A text that starts and ends with a non-blank character is its own trim. */
  lemma TrimUntouched(p: string)
    requires p != [] && !IsWhitespace(p[0]) && !IsWhitespace(p[|p| - 1])
    ensures Trim(p) == p
  {
    assert LeadingWhitespace(p) == 0;
    assert p[0..] == p;
    assert TrailingWhitespaceStart(p) == |p|;
  }

  datatype WslConversion = Converted(path: string) | NotWsl | Panics

  /** windows_home_in_wsl as written: it reads the first two characters, but
      `profile[2..]` cuts at BYTE 2, which is the third character only when
      the first is ASCII; when the first takes two bytes the cut keeps the ':',
      and when it takes more the cut falls inside it and the slice panics. */
  function WindowsHomeInWslAsWritten(userProfile: Option<string>): (r: WslConversion)
    ensures r.Panics? ==> userProfile.Some? && |Trim(userProfile.value)| >= 2 && Utf8Width(Trim(userProfile.value)[0]) > 2
  {
    match userProfile
    case None => NotWsl
    case Some(raw) =>
      var p := Trim(raw);
      if |p| < 2 || p[1] != ':' then NotWsl
      else if Utf8Width(p[0]) == 1 then Converted("/mnt/" + [AsciiLower(p[0])] + ReplaceChar(p[2..], '\\', '/'))
      else if Utf8Width(p[0]) == 2 then Converted("/mnt/" + [AsciiLower(p[0])] + ReplaceChar(p[1..], '\\', '/'))
      else Panics
  }

  /** With an ASCII drive character the code as written and the model agree. */
  lemma AsWrittenAgreesOnAsciiDrive(userProfile: Option<string>)
    requires userProfile.Some? && Trim(userProfile.value) != [] ==> Utf8Width(Trim(userProfile.value)[0]) == 1
    ensures WindowsHomeInWslAsWritten(userProfile) == match WindowsHomeInWsl(userProfile)
      case Some(home) => Converted(home)
      case None => NotWsl
  {
  }

  /** With a two-byte drive character (such as U+00E9) the code as written
      keeps the ':' in the path, which is then one character longer than the
      intended `/mnt/<drive><path>`. */
  lemma AsWrittenKeepsColon(drive: char, path: string)
    requires Utf8Width(drive) == 2 && !IsWhitespace(drive) && path != [] && !IsWhitespace(path[|path| - 1])
    ensures WindowsHomeInWslAsWritten(Some([drive, ':'] + path)) == Converted("/mnt/" + [drive] + ([':'] + ReplaceChar(path, '\\', '/')))
    ensures WindowsHomeInWsl(Some([drive, ':'] + path)) == Some("/mnt/" + [drive] + ReplaceChar(path, '\\', '/'))
  {
    ProfileParts(drive, path);
    AsWrittenOfTrimmed([drive, ':'] + path);
    ReplaceCharCons(':', path, '\\', '/');
    assert AsciiLower(drive) == drive;
    WindowsHomeOfDrive(drive, path);
  }

  lemma AsWrittenOfTrimmed(p: string)
    requires Trim(p) == p && |p| >= 2 && p[1] == ':' && Utf8Width(p[0]) == 2
    ensures WindowsHomeInWslAsWritten(Some(p)) == Converted("/mnt/" + [p[0]] + ReplaceChar(p[1..], '\\', '/'))
  {
  }

  /** With a drive character of three or more bytes (such as U+4E2D) the slice
      as written falls inside the character and panics. */
  lemma AsWrittenPanics(drive: char, path: string)
    requires Utf8Width(drive) > 2 && !IsWhitespace(drive) && path != [] && !IsWhitespace(path[|path| - 1])
    ensures WindowsHomeInWslAsWritten(Some([drive, ':'] + path)) == Panics
    ensures WindowsHomeInWsl(Some([drive, ':'] + path)).Some?
  {
    ProfileParts(drive, path);
  }

  // ---------------------------------------------------------------------------
  // kube_dirs_to_scan, scan_kube_dir_for_configs

  /** `Path::join` of a relative name: a '/' is put between unless the
      directory is empty or already ends in one. */
  function Join(dir: string, name: string): string {
    if dir == [] || dir[|dir| - 1] == '/' then dir + name else dir + "/" + name
  }

  /** The `.kube` directory of the home directory, then that of the Windows
      home under WSL, each only when it is a directory. */
  function KubeDirsToScan(host: Host): (dirs: seq<string>)
    ensures forall d :: d in dirs ==> d in host.directories
    ensures host.homeDir.Some? && Join(host.homeDir.value, KubeDirName) in host.directories
      ==> dirs != [] && dirs[0] == Join(host.homeDir.value, KubeDirName)
    ensures var w := WindowsHomeInWsl(host.userProfile);
      w.Some? && Join(w.value, KubeDirName) in host.directories
      ==> dirs != [] && dirs[|dirs| - 1] == Join(w.value, KubeDirName)
    ensures |dirs| == (if host.homeDir.Some? && Join(host.homeDir.value, KubeDirName) in host.directories then 1 else 0)
      + (var w := WindowsHomeInWsl(host.userProfile);
         if w.Some? && Join(w.value, KubeDirName) in host.directories then 1 else 0)
  {
    var fromHome := match host.homeDir
      case Some(home) => if Join(home, KubeDirName) in host.directories then [Join(home, KubeDirName)] else []
      case None => [];
    var fromWsl := match WindowsHomeInWsl(host.userProfile)
      case Some(home) => if Join(home, KubeDirName) in host.directories then [Join(home, KubeDirName)] else []
      case None => [];
    fromHome + fromWsl
  }

  /** A directory item of `dir` the scan keeps: it could be read, its name is
      Unicode and starts with "config", and its path is not a directory. */
  predicate IsConfigEntry(directories: set<string>, dir: string, e: Option<DirEntry>) {
    e.Some? && e.value.fileName.Some? && Join(dir, e.value.fileName.value) !in directories
    && StartsWith(e.value.fileName.value, ConfigPrefix)
  }

  /** The paths of the kept items, in directory order. */
  function ConfigPaths(directories: set<string>, dir: string, entries: seq<Option<DirEntry>>): (paths: seq<string>)
    ensures |paths| <= |entries|
    ensures forall p :: p in paths <==>
      exists i :: 0 <= i < |entries| && IsConfigEntry(directories, dir, entries[i])
                  && p == Join(dir, entries[i].value.fileName.value)
  {
    if entries == [] then []
    else
      var rest := ConfigPaths(directories, dir, entries[1..]);
      assert forall i :: 1 <= i < |entries| ==> entries[i] == entries[1..][i - 1];
      if IsConfigEntry(directories, dir, entries[0]) then [Join(dir, entries[0].value.fileName.value)] + rest else rest
  }

  /** The files of one directory compare as their names do: sorting the
      joined paths as strings orders them by file name, as sorting `PathBuf`s
      by their components does. */
  lemma JoinOrder(dir: string, a: string, b: string)
    ensures LexLe(Join(dir, a), Join(dir, b)) == LexLe(a, b)
  {
    if dir == [] || dir[|dir| - 1] == '/' {
      LexLeCommonPrefix(dir, a, b);
    } else {
      LexLeCommonPrefix(dir + "/", a, b);
    }
  }

  /** scan_kube_dir_for_configs: the non-directory items of `dir` whose name
      starts with "config", sorted ascending; nothing when `dir` cannot be read. */
  function ScanKubeDirForConfigs(host: Host, dir: string): (paths: seq<string>)
    ensures Sorted(paths)
    ensures forall p :: p in paths <==> (dir in host.listings && p in ConfigPaths(host.directories, dir, host.listings[dir]))
    ensures dir in host.listings ==> multiset(paths) == multiset(ConfigPaths(host.directories, dir, host.listings[dir]))
  {
    if dir !in host.listings then []
    else
      var paths := Sort(ConfigPaths(host.directories, dir, host.listings[dir]));
      assert forall p :: p in paths <==> p in multiset(paths);
      paths
  }

  // ---------------------------------------------------------------------------
  // find_kubeconfig_for_context

  /** Every file the fallback search reads, in the order it reads them: each
      scanned directory in turn, each directory's files sorted. */
  function ScanCandidates(host: Host, dirs: seq<string>): seq<string> {
    if dirs == [] then [] else ScanKubeDirForConfigs(host, dirs[0]) + ScanCandidates(host, dirs[1..])
  }

  lemma {:induction false} ScanCandidatesSplit(host: Host, dirs: seq<string>, n: nat)
    requires n <= |dirs|
    ensures ScanCandidates(host, dirs) == ScanCandidates(host, dirs[..n]) + ScanCandidates(host, dirs[n..])
  {
    if n > 0 {
      ScanCandidatesSplit(host, dirs[1..], n - 1);
      assert dirs[1..][..n - 1] == dirs[..n][1..];
      assert dirs[1..][n - 1..] == dirs[n..];
    } else {
      assert dirs[n..] == dirs;
    }
  }

  /** The files that parse and list `context` among their contexts. */
  function ContextFiles(host: Host, context: string): set<string> {
    set path | path in host.kubeconfigs && context in host.kubeconfigs[path]
  }

  /** find_kubeconfig_for_context: the first scanned file that parses and lists
      the context; files that fail to parse are skipped. */
  method FindKubeconfigForContext(host: Host, context: string) returns (found: Option<string>)
    ensures found == FirstIn(ScanCandidates(host, KubeDirsToScan(host)), ContextFiles(host, context))
  {
    var dirs := KubeDirsToScan(host);
    ghost var accepted := ContextFiles(host, context);
    for d := 0 to |dirs|
      invariant FirstIn(ScanCandidates(host, dirs[..d]), accepted) == None
    {
      var paths := ScanKubeDirForConfigs(host, dirs[d]);
      for k := 0 to |paths|
        invariant FirstIn(paths[..k], accepted) == None
      {
        var path := paths[k];
        if path in host.kubeconfigs {
          if context in host.kubeconfigs[path] {
            FoundInDirectory(host, dirs, d, paths, k, accepted);
            return Some(path);
          }
        }
        NotFoundYet(paths, k, accepted);
      }
      DirectoryExhausted(host, dirs, d, paths, accepted);
    }
    assert dirs[..|dirs|] == dirs;
    return None;
  }

  lemma NotFoundYet(paths: seq<string>, k: nat, accepted: set<string>)
    requires k < |paths| && paths[k] !in accepted && FirstIn(paths[..k], accepted) == None
    ensures FirstIn(paths[..k + 1], accepted) == None
  {
    FirstInAppend(paths[..k], [paths[k]], accepted);
    assert paths[..k + 1] == paths[..k] + [paths[k]];
  }

  lemma DirectoryExhausted(host: Host, dirs: seq<string>, d: nat, paths: seq<string>, accepted: set<string>)
    requires d < |dirs| && paths == ScanKubeDirForConfigs(host, dirs[d])
    requires FirstIn(ScanCandidates(host, dirs[..d]), accepted) == None && FirstIn(paths[..|paths|], accepted) == None
    ensures FirstIn(ScanCandidates(host, dirs[..d + 1]), accepted) == None
  {
    assert paths[..|paths|] == paths;
    ScanCandidatesStep(host, dirs, d);
    FirstInAppend(ScanCandidates(host, dirs[..d]), paths, accepted);
  }

  lemma ScanCandidatesStep(host: Host, dirs: seq<string>, d: nat)
    requires d < |dirs|
    ensures ScanCandidates(host, dirs[..d + 1]) == ScanCandidates(host, dirs[..d]) + ScanKubeDirForConfigs(host, dirs[d])
  {
    ScanCandidatesSplit(host, dirs[..d + 1], d);
    assert dirs[..d + 1][..d] == dirs[..d];
    assert dirs[..d + 1][d..] == [dirs[d]];
    assert ScanCandidates(host, [dirs[d]]) == ScanKubeDirForConfigs(host, dirs[d]) + ScanCandidates(host, []);
  }

  lemma FoundInDirectory(host: Host, dirs: seq<string>, d: nat, paths: seq<string>, k: nat, accepted: set<string>)
    requires d < |dirs| && paths == ScanKubeDirForConfigs(host, dirs[d]) && k < |paths| && paths[k] in accepted
    requires FirstIn(ScanCandidates(host, dirs[..d]), accepted) == None && FirstIn(paths[..k], accepted) == None
    ensures FirstIn(ScanCandidates(host, dirs), accepted) == Some(paths[k])
  {
    FirstAt(paths, k, accepted);
    var before := ScanCandidates(host, dirs[..d]);
    var after := ScanCandidates(host, dirs[d + 1..]);
    ScanCandidatesStep(host, dirs, d);
    ScanCandidatesSplit(host, dirs, d + 1);
    assert ScanCandidates(host, dirs) == before + paths + after;
    FirstInAppend(before, paths, accepted);
    FirstInAppend(before + paths, after, accepted);
  }

  /** The first accepted element is the one found. */
  lemma FirstAt(paths: seq<string>, k: nat, accepted: set<string>)
    requires k < |paths| && paths[k] in accepted && FirstIn(paths[..k], accepted) == None
    ensures FirstIn(paths, accepted) == Some(paths[k])
  {
    assert paths == paths[..k] + paths[k..];
    FirstInAppend(paths[..k], paths[k..], accepted);
  }

  // ---------------------------------------------------------------------------
  // The argument vector

  /** The kubeconfig file for `context`: a non-empty `kubeconfig_file` from the
      frontend, otherwise the result of the directory scan. */
  function ResolveKubeconfig(host: Host, context: string, kubeconfigFile: Option<string>): Option<string> {
    if kubeconfigFile.Some? && kubeconfigFile.value != "" then kubeconfigFile
    else FirstIn(ScanCandidates(host, KubeDirsToScan(host)), ContextFiles(host, context))
  }

  /** The arguments start_kubectl_proxy gives kubectl. */
  function ProxyArgs(host: Host, context: Option<string>, kubeconfigFile: Option<string>): seq<string> {
    match context
    case None => BaseArgs
    case Some(ctx) =>
      match ResolveKubeconfig(host, ctx, kubeconfigFile)
      case Some(path) => BaseArgs + [ContextFlag + ctx, KubeconfigFlag + path]
      case None => BaseArgs + [ContextFlag + ctx]
  }

  /** Builds the vector as the command does, one push at a time. */
  method BuildProxyArgs(host: Host, context: Option<string>, kubeconfigFile: Option<string>) returns (args: seq<string>)
    ensures args == ProxyArgs(host, context, kubeconfigFile)
  {
    args := BaseArgs;
    if context.Some? {
      var ctx := context.value;
      args := args + [ContextFlag + ctx];
      var resolved: Option<string>;
      if kubeconfigFile.Some? && kubeconfigFile.value != "" {
        resolved := kubeconfigFile;
      } else {
        resolved := FindKubeconfigForContext(host, ctx);
      }
      if resolved.Some? {
        args := args + [KubeconfigFlag + resolved.value];
      }
    }
  }

  /** The vector starts with `proxy --port=8001 --disable-filter=true`; without
      a context nothing follows; with one, `--context=<ctx>` is fourth and the
      `--kubeconfig=` argument, when a file was resolved, fifth and last. */
  lemma ProxyArgsShape(host: Host, context: Option<string>, kubeconfigFile: Option<string>)
    ensures var args := ProxyArgs(host, context, kubeconfigFile);
      |args| >= 3 && args[..3] == ["proxy", "--port=8001", "--disable-filter=true"]
      && (context.None? ==> |args| == 3)
      && (context.Some? ==>
            |args| >= 4 && args[3] == "--context=" + context.value
            && (var resolved := ResolveKubeconfig(host, context.value, kubeconfigFile);
                (resolved.None? ==> |args| == 4)
                && (resolved.Some? ==> |args| == 5 && args[4] == "--kubeconfig=" + resolved.value)))
  {
  }

  /** A non-empty explicit file is used whatever the scan would find; an empty
      one counts as absent. */
  lemma ExplicitKubeconfigFirst(host: Host, ctx: string, file: string)
    ensures file != "" ==> ProxyArgs(host, Some(ctx), Some(file)) == BaseArgs + ["--context=" + ctx, "--kubeconfig=" + file]
    ensures ProxyArgs(host, Some(ctx), Some("")) == ProxyArgs(host, Some(ctx), None)
  {
  }

  /** The resolved file is the explicit one, or a single scanned file that
      parses and lists the context. */
  lemma ResolvedKubeconfigOrigin(host: Host, ctx: string, kubeconfigFile: Option<string>)
    ensures var resolved := ResolveKubeconfig(host, ctx, kubeconfigFile);
      resolved.Some? ==>
        (kubeconfigFile.Some? && kubeconfigFile.value != "" && resolved == kubeconfigFile)
        || (resolved.value in ScanCandidates(host, KubeDirsToScan(host))
            && resolved.value in host.kubeconfigs && ctx in host.kubeconfigs[resolved.value])
  {
  }

  /** At most one argument starts with `--kubeconfig=`. */
  lemma AtMostOneKubeconfigArg(host: Host, context: Option<string>, kubeconfigFile: Option<string>)
    ensures var args := ProxyArgs(host, context, kubeconfigFile);
      forall i, j :: 0 <= i < j < |args| ==> !(StartsWith(args[i], KubeconfigFlag) && StartsWith(args[j], KubeconfigFlag))
  {
    var args := ProxyArgs(host, context, kubeconfigFile);
    forall i | 0 <= i < |args| && i != 4 ensures !StartsWith(args[i], KubeconfigFlag) {
      assert KubeconfigFlag[2] == 'k';
      if i == 3 {
        assert args[i][2] == 'c';
      } else {
        assert args[i] in BaseArgs;
      }
    }
  }

  // ---------------------------------------------------------------------------
  // Readiness poll and the error detail

  /** The outcome of one GET of http://127.0.0.1:8001/api. */
  datatype Probe = Response(status: int) | RequestFailed(reason: string)

  /** A 2xx status, or 403: the proxy listens even when the API denies access. */
  predicate IsReady(p: Probe) {
    p.Response? && (200 <= p.status <= 299 || p.status == 403)
  }

  /** The poll: returns the attempt (1-based) at which the proxy first answered
      ready, or None after ten attempts that all failed. */
  method PollUntilReady(probes: seq<Probe>) returns (readyAt: Option<nat>)
    requires |probes| == MaxAttempts
    ensures readyAt.Some? ==> 1 <= readyAt.value <= MaxAttempts && IsReady(probes[readyAt.value - 1])
    ensures readyAt.Some? ==> forall j :: 0 <= j < readyAt.value - 1 ==> !IsReady(probes[j])
    ensures readyAt.None? ==> forall j :: 0 <= j < MaxAttempts ==> !IsReady(probes[j])
  {
    for attempt := 1 to MaxAttempts + 1
      invariant forall j :: 0 <= j < attempt - 1 ==> !IsReady(probes[j])
    {
      if IsReady(probes[attempt - 1]) {
        return Some(attempt);
      }
    }
    return None;
  }

  /** The text the stderr thread accumulates: every line followed by '\n'. */
  function CapturedStderr(lines: seq<string>): string {
    if lines == [] then [] else CapturedStderr(lines[..|lines| - 1]) + lines[|lines| - 1] + "\n"
  }

  /** The stderr thread's loop body, run over the lines read so far. */
  method AccumulateStderr(lines: seq<string>) returns (buf: string)
    ensures buf == CapturedStderr(lines)
  {
    buf := "";
    for i := 0 to |lines|
      invariant buf == CapturedStderr(lines[..i])
    {
      assert lines[..i + 1][..i] == lines[..i];
      buf := buf + lines[i];
      buf := buf + "\n";
    }
    assert lines[..|lines|] == lines;
  }

  /** The captured text is blank exactly when every line is. */
  lemma {:induction false} CapturedBlankIffLinesBlank(lines: seq<string>)
    ensures AllWhitespace(CapturedStderr(lines)) <==> forall i :: 0 <= i < |lines| ==> AllWhitespace(lines[i])
  {
    if lines != [] {
      var init := lines[..|lines| - 1];
      var last := lines[|lines| - 1];
      CapturedBlankIffLinesBlank(init);
      var c := CapturedStderr(init);
      assert CapturedStderr(lines) == c + last + "\n";
      assert forall k :: 0 <= k < |c| ==> (c + last + "\n")[k] == c[k];
      assert forall k :: 0 <= k < |last| ==> (c + last + "\n")[|c| + k] == last[k];
      assert forall i :: 0 <= i < |init| ==> lines[i] == init[i];
      if AllWhitespace(c) && AllWhitespace(last) {
        var s := c + last + "\n";
        forall k | 0 <= k < |s| ensures IsWhitespace(s[k]) {
          if k < |c| { } else if k < |c| + |last| { assert s[k] == last[k - |c|]; } else { }
        }
      }
    }
  }

  /** The detail of the not-ready error: the captured stderr, unless it is
      blank after trimming. */
  function NotReadyDetail(captured: string): string {
    if Trim(captured) == [] then NoOutputDetail else captured
  }

  /** The fixed placeholder is reported exactly when kubectl wrote nothing
      but whitespace. */
  lemma NoOutputDetailIffBlankStderr(lines: seq<string>)
    ensures NotReadyDetail(CapturedStderr(lines)) == NoOutputDetail
      <==> forall i :: 0 <= i < |lines| ==> AllWhitespace(lines[i])
  {
    CapturedBlankIffLinesBlank(lines);
    var c := CapturedStderr(lines);
    if lines != [] {
      assert c[|c| - 1] == '\n';
      assert NoOutputDetail[|NoOutputDetail| - 1] == 'y';
    }
  }

  /** The result of the readiness phase. */
  function ReadinessResult(probes: seq<Probe>, stderrLines: seq<string>): Result<()>
    requires |probes| == MaxAttempts
  {
    if exists j :: 0 <= j < MaxAttempts && IsReady(probes[j]) then Ok(())
    else Err(NotReadyPrefix + NotReadyDetail(CapturedStderr(stderrLines)))
  }

  // ---------------------------------------------------------------------------
  // The proxy slot

  /** A spawned `kubectl proxy` child process. */
  class ProxyChild {
    const program: string
    const args: seq<string>
    /** `Child::kill` has been called on this process. */
    var killSignalled: bool

    constructor (program: string, args: seq<string>)
      ensures this.program == program && this.args == args && !killSignalled
    {
      this.program := program;
      this.args := args;
      killSignalled := false;
    }

    method Kill()
      modifies this
      ensures killSignalled
    {
      killSignalled := true;
    }
  }

  /** The managed state `KubectlProxy`: the proxy child, if one is running. */
  class KubectlProxy {
    var child: ProxyChild?

    constructor ()
      ensures child == null
    {
      child := null;
    }

    /** start_kubectl_proxy.  `spawnError` and `clientError` are the failures of
        `Command::spawn` and of building the HTTP client, `probes` the outcomes
        of the ten polls, `stderrLines` what the stderr thread has read by the
        time the poll gives up. */
    method Start(host: Host, context: Option<string>, kubeconfigFile: Option<string>,
                 spawnError: Option<string>, clientError: Option<string>,
                 probes: seq<Probe>, stderrLines: seq<string>) returns (result: Result<()>)
      requires |probes| == MaxAttempts
      modifies this, child
      ensures old(child) != null ==> old(child).killSignalled
      ensures spawnError.Some? ==> child == null
      ensures spawnError.Some? ==> result == Err("failed to spawn kubectl proxy (" + KubectlBinary(host) + "): " + spawnError.value)
      ensures spawnError.None? ==> child != null && fresh(child) && !child.killSignalled
      ensures spawnError.None? ==> child.program == KubectlBinary(host) && child.args == ProxyArgs(host, context, kubeconfigFile)
      ensures spawnError.None? && clientError.Some? ==> result == Err("failed to build HTTP client: " + clientError.value)
      ensures spawnError.None? && clientError.None? ==> result == ReadinessResult(probes, stderrLines)
    {
      var args := BuildProxyArgs(host, context, kubeconfigFile);
      var bin := KubectlBinary(host);
      var previous := child;
      child := null;
      if previous != null {
        previous.Kill();
      }
      if spawnError.Some? {
        return Err("failed to spawn kubectl proxy (" + bin + "): " + spawnError.value);
      }
      var spawned := new ProxyChild(bin, args);
      child := spawned;
      if clientError.Some? {
        return Err("failed to build HTTP client: " + clientError.value);
      }
      var readyAt := PollUntilReady(probes);
      if readyAt.Some? {
        return Ok(());
      }
      var captured := AccumulateStderr(stderrLines);
      var detail := if Trim(captured) == [] then NoOutputDetail else captured;
      result := Err(NotReadyPrefix + detail);
    }

    /** stop_kubectl_proxy: the slot is emptied before the kill, so it stays
        empty when the kill fails; with no child it does nothing. */
    method Stop(killError: Option<string>) returns (result: Result<()>)
      modifies this, child
      ensures child == null
      ensures old(child) != null ==> old(child).killSignalled
      ensures result == if old(child) != null && killError.Some? then Err(killError.value) else Ok(())
    {
      var previous := child;
      child := null;
      result := Ok(());
      if previous != null {
        previous.Kill();
        if killError.Some? {
          result := Err(killError.value);
        }
      }
    }
  }

  /** Two stops in a row: the second finds the slot empty and returns Ok. */
  method StopTwice(proxy: KubectlProxy, killError: Option<string>) returns (second: Result<()>)
    modifies proxy, proxy.child
    ensures proxy.child == null && second == Ok(())
  {
    var first := proxy.Stop(killError);
    second := proxy.Stop(killError);
  }
}
