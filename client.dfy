/** The client: a session plus an SFTP client opened at construction, with the remote-path helpers built on
    shell probes, the walk, and the single-file and flat-directory transfers. */
module Client {
  import opened RemoteHost
  import opened Session
  import LocalFiles
  import Paths
  import Tree = Walk

  // ---------------------------------------------------------------------------------------------
  // Destinations of the transfers

  /** Where `download` writes `remoteFile`: under `localPath`, with the remote file's base name. */
  function DownloadTarget(remoteFile: string, localPath: string): string {
    Paths.Join(localPath, Paths.Basename(remoteFile))
  }

  /** Where `upload` sends `localFile`: under `remotePath`, with the local file's base name. */
  function UploadTarget(localFile: string, remotePath: string): string {
    Paths.Join(remotePath, Paths.Basename(localFile))
  }

  /** A transfer destination keeps the source's base name, whatever directory it goes to. */
  lemma TargetsKeepBaseName(source: string, dir: string)
    ensures Paths.Basename(DownloadTarget(source, dir)) == Paths.Basename(source)
    ensures Paths.Basename(UploadTarget(source, dir)) == Paths.Basename(source)
  {
    Paths.SplitShape(source);
    Paths.BasenameOfJoin(dir, Paths.Basename(source));
  }

  /** The local directories after `download` as written: the parent of `localPath` is created when nothing
      exists there. */
  function DownloadDirs(dirs: set<string>, files: set<string>, localPath: string): set<string> {
    var parent := Paths.Split(localPath).0;
    if parent in dirs || parent in files then dirs else dirs + {parent}
  }

  /** The local directories after `download` as evidently intended: `localPath` itself, the directory the
      file is written into, is created when nothing exists there. */
  function DownloadDirsFixed(dirs: set<string>, files: set<string>, localPath: string): set<string> {
    if localPath in dirs || localPath in files then dirs else dirs + {localPath}
  }

  /** As written, when the parent of `localPath` exists but `localPath` does not (`/tmp` and `/tmp/out`),
      `download` creates nothing and then writes into `localPath`, which is still missing. */
  lemma DownloadMissesTargetDir(dirs: set<string>, files: set<string>, remoteFile: string, localPath: string)
    requires localPath != [] && localPath[|localPath| - 1] != Paths.Sep
    requires Paths.Split(localPath).0 in dirs && localPath !in dirs
    ensures DownloadDirs(dirs, files, localPath) == dirs
    ensures Paths.Split(DownloadTarget(remoteFile, localPath)).0 == localPath
    ensures localPath !in DownloadDirs(dirs, files, localPath)
  {
    Paths.SplitShape(remoteFile);
    Paths.HeadOfJoin(localPath, Paths.Basename(remoteFile));
  }

  /** The case `/tmp/out` meets the conditions above. */
  lemma TmpOutIsSuch()
    ensures Paths.Split("/tmp/out").0 == "/tmp"
  {
    assert Paths.Join("/tmp", "out") == "/tmp/out";
    Paths.HeadOfJoin("/tmp", "out");
  }

  /** As intended, the directory the file is written into exists afterwards, unless a file is in the way. */
  lemma DownloadFixedCreatesTargetDir(dirs: set<string>, files: set<string>, remoteFile: string, localPath: string)
    requires localPath != [] && localPath[|localPath| - 1] != Paths.Sep && localPath !in files
    ensures Paths.Split(DownloadTarget(remoteFile, localPath)).0 in DownloadDirsFixed(dirs, files, localPath)
    ensures dirs <= DownloadDirsFixed(dirs, files, localPath)
  {
    Paths.SplitShape(remoteFile);
    Paths.HeadOfJoin(localPath, Paths.Basename(remoteFile));
  }

  /** The put that `upload_dir` makes for the entry `name` of `localPath`. */
  function UploadCall(localPath: string, remotePath: string, name: string): SftpCall {
    var f := Paths.Join(localPath, name);
    SftpCall.Put(f, UploadTarget(f, remotePath))
  }

  /** The puts that `upload_dir` makes for the entries `names` of `localPath`, one per entry, in order. */
  function UploadCalls(localPath: string, remotePath: string, names: seq<string>): (calls: seq<SftpCall>)
    ensures |calls| == |names|
  {
    if names == [] then []
    else UploadCalls(localPath, remotePath, names[..|names| - 1]) + [UploadCall(localPath, remotePath, names[|names| - 1])]
  }

  /** The `i`-th put sends the `i`-th entry of the listing. */
  lemma {:induction false} UploadCallsOnePerEntry(localPath: string, remotePath: string, names: seq<string>, i: nat)
    requires i < |names|
    ensures var c := UploadCalls(localPath, remotePath, names)[i];
            c.Put? && c.localPath == Paths.Join(localPath, names[i])
    decreases |names|
  {
    if i < |names| - 1 {
      UploadCallsOnePerEntry(localPath, remotePath, names[..|names| - 1], i);
    }
  }

  /** The puts for one more entry are the puts so far followed by the put for that entry. */
  lemma UploadCallsSnoc(localPath: string, remotePath: string, names: seq<string>, i: nat)
    requires i < |names|
    ensures UploadCalls(localPath, remotePath, names[..i + 1])
            == UploadCalls(localPath, remotePath, names[..i]) + [UploadCall(localPath, remotePath, names[i])]
  {
    assert names[..i + 1][..i] == names[..i];
  }

  /** Every put of `upload_dir` keeps the base name of the local path it sends. */
  lemma UploadCallsKeepBaseName(localPath: string, remotePath: string, names: seq<string>, i: nat)
    requires i < |names|
    ensures var c := UploadCalls(localPath, remotePath, names)[i];
            c.Put? && Paths.Basename(c.remotePath) == Paths.Basename(c.localPath)
    decreases |names|
  {
    UploadCallsOnePerEntry(localPath, remotePath, names, i);
    if i == |names| - 1 {
      TargetsKeepBaseName(Paths.Join(localPath, names[i]), remotePath);
    } else {
      UploadCallsKeepBaseName(localPath, remotePath, names[..|names| - 1], i);
    }
  }

  /** Every entry that is a plain name is sent into `remotePath` under that same name. */
  lemma UploadDirTargets(localPath: string, remotePath: string, names: seq<string>, i: nat)
    requires i < |names| && Paths.HasNoSep(names[i])
    ensures UploadCalls(localPath, remotePath, names)[i] == SftpCall.Put(Paths.Join(localPath, names[i]), Paths.Join(remotePath, names[i]))
    decreases |names|
  {
    if i == |names| - 1 {
      Paths.BasenameOfJoin(localPath, names[i]);
    } else {
      UploadDirTargets(localPath, remotePath, names[..|names| - 1], i);
    }
  }

  /** The position of the first entry of `localPath` that is not a regular file, or `|names|` when all are. */
  function FirstNonFile(files: set<string>, localPath: string, names: seq<string>): (k: nat)
    ensures k <= |names|
  {
    if names == [] then 0
    else if Paths.Join(localPath, names[0]) !in files then 0
    else FirstNonFile(files, localPath, names[1..]) + 1
  }

  /** Up to the position found, an entry is a regular file exactly when it comes before that position. */
  lemma {:induction false} FirstNonFileAt(files: set<string>, localPath: string, names: seq<string>, i: nat)
    requires i < |names| && i <= FirstNonFile(files, localPath, names)
    ensures Paths.Join(localPath, names[i]) !in files <==> i == FirstNonFile(files, localPath, names)
  {
    if i > 0 {
      FirstNonFileAt(files, localPath, names[1..], i - 1);
    }
  }

  // ---------------------------------------------------------------------------------------------
  // The client

  class Client {
    const session: Session
    const sftp: SftpClient

    /** The SFTP client works on the same remote host as the session. */
    ghost predicate Valid() {
      sftp.remote == session.ssh.remote
    }

    /** Logs in through a new session on the shared SSH client, then opens the SFTP client. */
    constructor (shared: SshClient, host: string, username: string, password: string, port: int, timeout: Option<real>)
      modifies shared
      ensures Valid() && fresh(session) && fresh(sftp) && sftp.log == []
      ensures session.ssh == shared && session.host == host && session.port == port
      ensures session.chan == null && !session.closed
      ensures shared.log == old(shared.log) + [SshCall.Connect(host, port, username, password, timeout), SshCall.OpenSftp]
    {
      var s := new Session(shared, host, username, password, port, timeout);
      var f := shared.OpenSftp();
      session, sftp := s, f;
    }

    /** Runs a test command and answers whether its stripped standard output is "1"; only standard
        output is read. */
    method Probe(command: string) returns (yes: bool)
      modifies session.ssh
      ensures yes == ProbeSays(session.ssh.remote, command)
      ensures session.ssh.log == old(session.ssh.log) + [SshCall.ExecCommand(command, None)]
    {
      var resp := session.Execute(command, None);
      var text := resp.StdoutText();
      yes := text == "1";
    }

    method IsDir(path: string) returns (yes: bool)
      modifies session.ssh
      ensures yes == RemoteHost.IsDir(session.ssh.remote, path)
      ensures session.ssh.log == old(session.ssh.log) + [SshCall.ExecCommand(DirTestCommand(path), None)]
    {
      yes := Probe(DirTestCommand(path));
    }

    method IsFile(path: string) returns (yes: bool)
      modifies session.ssh
      ensures yes == RemoteHost.IsFile(session.ssh.remote, path)
      ensures session.ssh.log == old(session.ssh.log) + [SshCall.ExecCommand(FileTestCommand(path), None)]
    {
      yes := Probe(FileTestCommand(path));
    }

    method IsLink(path: string) returns (yes: bool)
      modifies session.ssh
      ensures yes == RemoteHost.IsLink(session.ssh.remote, path)
      ensures session.ssh.log == old(session.ssh.log) + [SshCall.ExecCommand(LinkTestCommand(path), None)]
    {
      yes := Probe(LinkTestCommand(path));
    }

    /** `verify_path`: runs `cd` into the path and reads only its standard error. */
    method VerifyPath(path: string) returns (v: Verified)
      modifies session.ssh
      ensures v == RemoteHost.VerifyPath(session.ssh.remote, path)
      ensures session.ssh.log == old(session.ssh.log) + [SshCall.ExecCommand(CdCommand(path), None)]
    {
      var resp := session.Execute(CdCommand(path), None);
      var text := resp.StderrText();
      if text != "" {
        v := Raised(PathNotExist(path, "[<" + path + "> path not exist]"));
      } else {
        v := Exists(path);
      }
    }

    method Listdir(path: string) returns (listing: Listing)
      modifies sftp
      ensures listing == sftp.remote.listdir(path)
      ensures sftp.log == old(sftp.log) + [SftpCall.Listdir(path)]
    {
      listing := sftp.Listdir(path);
    }

    method Chmod(path: string, mode: int)
      modifies sftp
      ensures sftp.log == old(sftp.log) + [SftpCall.Chmod(path, mode)]
    {
      sftp.Chmod(path, mode);
    }

    /** `mkdir`: asks the SFTP server to create `path` only when `verify_path` raised for it. */
    method Mkdir(path: string, mode: int)
      modifies session.ssh, sftp
      ensures session.ssh.log == old(session.ssh.log) + [SshCall.ExecCommand(CdCommand(path), None)]
      ensures sftp.log == old(sftp.log) +
                (if RemoteHost.VerifyPath(session.ssh.remote, path).Raised? then [SftpCall.Mkdir(path, mode)] else [])
    {
      var v := VerifyPath(path);
      if v.Raised? {
        sftp.Mkdir(path, mode);
      }
    }

    /** `walk(top, topdown, onerror, followlinks)`, `handler` telling whether a callback was given. */
    method Walk(top: string, topdown: bool, handler: bool, followlinks: bool, limit: nat) returns (t: Tree.Trace)
      requires Valid()
      ensures t == Tree.ClientWalk(Tree.ClientOracle(session.ssh.remote), top, topdown, handler, followlinks, limit)
    {
      var onerror := if handler then Tree.HandlerArg else Tree.NoneArg;
      t := Tree.Run(Tree.ClientOracle(session.ssh.remote), top,
                    Tree.Slots(Tree.BoolArg(topdown), onerror, Tree.BoolArg(followlinks)), Tree.Positional, limit);
    }

    /** `download` as written: creates the parent of `localPath` when nothing exists there, then fetches
        the file into `localPath` under its own base name. */
    method Download(fs: LocalFiles.LocalFs, remoteFile: string, localPath: string)
      modifies fs, sftp
      ensures fs.dirs == DownloadDirs(old(fs.dirs), fs.files, localPath)
      ensures sftp.log == old(sftp.log) + [SftpCall.Get(remoteFile, DownloadTarget(remoteFile, localPath))]
    {
      var (dirPath, _) := Paths.Split(localPath);
      var present := fs.Exists(dirPath);
      if !present {
        fs.Makedirs(dirPath);
      }
      var (_, filename) := Paths.Split(remoteFile);
      sftp.Get(remoteFile, Paths.Join(localPath, filename));
    }

    /** `download` as evidently intended: creates `localPath` itself when nothing exists there. */
    method DownloadFixed(fs: LocalFiles.LocalFs, remoteFile: string, localPath: string)
      modifies fs, sftp
      ensures fs.dirs == DownloadDirsFixed(old(fs.dirs), fs.files, localPath)
      ensures sftp.log == old(sftp.log) + [SftpCall.Get(remoteFile, DownloadTarget(remoteFile, localPath))]
    {
      var present := fs.Exists(localPath);
      if !present {
        fs.Makedirs(localPath);
      }
      sftp.Get(remoteFile, DownloadTarget(remoteFile, localPath));
    }

    /** `upload`: sends the local file into `remotePath` under its own base name; raises unless the local
        path is a regular file. */
    method Upload(fs: LocalFiles.LocalFs, localFile: string, remotePath: string) returns (raised: bool)
      modifies sftp
      ensures raised <==> localFile !in fs.files
      ensures sftp.log == old(sftp.log) + [SftpCall.Put(localFile, UploadTarget(localFile, remotePath))]
    {
      var (_, filename) := Paths.Split(localFile);
      raised := sftp.Put(fs, localFile, Paths.Join(remotePath, filename));
    }

    /** `upload_dir`: one upload per entry of the local listing, in listing order, until the first entry that
        is not a regular file, whose upload raises and ends the loop. */
    method UploadDir(fs: LocalFiles.LocalFs, localPath: string, remotePath: string) returns (raised: bool)
      modifies sftp
      ensures var names := fs.entries(localPath);
              var k := FirstNonFile(fs.files, localPath, names);
              (raised <==> k < |names|) &&
              sftp.log == old(sftp.log) + UploadCalls(localPath, remotePath, names[..if raised then k + 1 else |names|])
    {
      var names := fs.Listdir(localPath);
      ghost var log0 := sftp.log;
      ghost var k := FirstNonFile(fs.files, localPath, names);
      var i := 0;
      while i < |names|
        invariant i <= k <= |names|
        invariant sftp.log == log0 + UploadCalls(localPath, remotePath, names[..i])
      {
        var f := Paths.Join(localPath, names[i]);
        raised := Upload(fs, f, remotePath);
        UploadCallsSnoc(localPath, remotePath, names, i);
        ghost var done, next := UploadCalls(localPath, remotePath, names[..i]), [UploadCall(localPath, remotePath, names[i])];
        assert log0 + done + next == log0 + (done + next);
        FirstNonFileAt(fs.files, localPath, names, i);
        if raised {
          return;
        }
        i := i + 1;
      }
      assert names[..i] == names;
      raised := false;
    }

    /** `download_dir` does nothing. */
    method DownloadDir(remotePath: string, localPath: string)
      ensures unchanged(session.ssh, sftp)
    {
    }
  }
}
