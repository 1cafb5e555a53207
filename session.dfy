/** The SSH session: one connection to a remote host with command execution, a shell channel created on
    first use, and teardown; and the `Response` of one command with its lazily decoded streams. The SSH
    library's objects appear as small classes that record the calls made on them. */
module Session {
  import opened Text
  import opened RemoteHost
  import Utils
  import LocalFiles

  datatype Option<T> = None | Some(value: T)

  // ---------------------------------------------------------------------------------------------
  // The SSH library side

  /** The arguments of `invoke_shell`. */
  datatype ShellArgs = ShellArgs(term: string, width: int, height: int, widthPixels: int, heightPixels: int,
                                 environment: Option<map<string, string>>)

  /** The calls made on the SSH client. `OpenSftp` opens an SFTP client on the client's transport. */
  datatype SshCall =
    | Connect(hostname: string, port: int, username: string, password: string, timeout: Option<real>)
    | ExecCommand(command: string, timeout: Option<real>)
    | InvokeShell(args: ShellArgs)
    | OpenSftp
    | CloseClient

  /** The calls made on an SFTP client. */
  datatype SftpCall =
    | Listdir(path: string)
    | Chmod(path: string, mode: int)
    | Mkdir(path: string, mode: int)
    | Get(remotePath: string, localPath: string)
    | Put(localPath: string, remotePath: string)

  /** An SFTP client on the connection to `remote`; `log` is every call made on it, in order. */
  class SftpClient {
    const remote: Host
    var log: seq<SftpCall>

    constructor (remote: Host)
      ensures this.remote == remote && log == []
    {
      this.remote := remote;
      log := [];
    }

    method Listdir(path: string) returns (listing: Listing)
      modifies this
      ensures listing == remote.listdir(path)
      ensures log == old(log) + [SftpCall.Listdir(path)]
    {
      listing := remote.listdir(path);
      log := log + [SftpCall.Listdir(path)];
    }

    method Chmod(path: string, mode: int)
      modifies this
      ensures log == old(log) + [SftpCall.Chmod(path, mode)]
    {
      log := log + [SftpCall.Chmod(path, mode)];
    }

    method Mkdir(path: string, mode: int)
      modifies this
      ensures log == old(log) + [SftpCall.Mkdir(path, mode)]
    {
      log := log + [SftpCall.Mkdir(path, mode)];
    }

    /** Fetches `remotePath` into the local file `localPath`. */
    method Get(remotePath: string, localPath: string)
      modifies this
      ensures log == old(log) + [SftpCall.Get(remotePath, localPath)]
    {
      log := log + [SftpCall.Get(remotePath, localPath)];
    }

    /** Sends the local file `localPath` to `remotePath`; opening the local side raises unless it is a
        regular file (a directory, say). */
    method Put(fs: LocalFiles.LocalFs, localPath: string, remotePath: string) returns (raised: bool)
      modifies this
      ensures raised <==> localPath !in fs.files
      ensures log == old(log) + [SftpCall.Put(localPath, remotePath)]
    {
      raised := localPath !in fs.files;
      log := log + [SftpCall.Put(localPath, remotePath)];
    }
  }

  /** One output stream of an executed command; `read()` returns everything not read yet. */
  class Stream {
    var unread: string
    var readCount: nat

    constructor (contents: string)
      ensures unread == contents && readCount == 0
    {
      unread, readCount := contents, 0;
    }

    method Read() returns (data: string)
      modifies this
      ensures data == old(unread) && unread == "" && readCount == old(readCount) + 1
    {
      data := unread;
      unread, readCount := "", readCount + 1;
    }
  }

  /** An interactive shell channel. */
  class Channel {
    var closed: bool

    constructor ()
      ensures !closed
    {
      closed := false;
    }

    method Close()
      modifies this
      ensures closed
    {
      closed := true;
    }
  }

  /** An SSH client connected to the remote host `remote`; `log` is every call made on it, in order. */
  class SshClient {
    const remote: Host
    var log: seq<SshCall>

    constructor (remote: Host)
      ensures this.remote == remote && log == []
    {
      this.remote := remote;
      log := [];
    }

    method Connect(hostname: string, port: int, username: string, password: string, timeout: Option<real>)
      modifies this
      ensures log == old(log) + [SshCall.Connect(hostname, port, username, password, timeout)]
    {
      log := log + [SshCall.Connect(hostname, port, username, password, timeout)];
    }

    /** Runs `command` on the remote host and hands back its two output streams. */
    method ExecCommand(command: string, timeout: Option<real>) returns (stdout: Stream, stderr: Stream)
      modifies this
      ensures fresh(stdout) && fresh(stderr) && stdout != stderr
      ensures stdout.unread == remote.run(command).stdout && stdout.readCount == 0
      ensures stderr.unread == remote.run(command).stderr && stderr.readCount == 0
      ensures log == old(log) + [SshCall.ExecCommand(command, timeout)]
    {
      var out := remote.run(command);
      stdout := new Stream(out.stdout);
      stderr := new Stream(out.stderr);
      log := log + [SshCall.ExecCommand(command, timeout)];
    }

    method InvokeShell(args: ShellArgs) returns (chan: Channel)
      modifies this
      ensures fresh(chan) && !chan.closed
      ensures log == old(log) + [SshCall.InvokeShell(args)]
    {
      chan := new Channel();
      log := log + [SshCall.InvokeShell(args)];
    }

    /** Opens an SFTP client on this client's transport. */
    method OpenSftp() returns (sftp: SftpClient)
      modifies this
      ensures fresh(sftp) && sftp.remote == remote && sftp.log == []
      ensures log == old(log) + [SshCall.OpenSftp]
    {
      sftp := new SftpClient(remote);
      log := log + [SshCall.OpenSftp];
    }

    method Close()
      modifies this
      ensures log == old(log) + [CloseClient]
    {
      log := log + [CloseClient];
    }
  }

  // ---------------------------------------------------------------------------------------------
  // Response

  /** A value cached on a `Response` by one of its lazy properties. */
  datatype Cached = CachedText(text: string) | CachedFlag(flag: bool)

  const StdoutSlot: string := Utils.SlotName("stdout_text")
  const StderrSlot: string := Utils.SlotName("stderr_text")
  const OkSlot: string := Utils.SlotName("ok")

  /** The three properties of a response cache under three different attributes. */
  lemma SlotsDistinct()
    ensures StdoutSlot != StderrSlot && StdoutSlot != OkSlot && StderrSlot != OkSlot
  {
    assert StdoutSlot[9] == 'o' && StderrSlot[9] == 'e';
    assert |OkSlot| == 8 && |StdoutSlot| == |StderrSlot| == 17;
  }

  /** `repr()` of a response to `command`. */
  function ResponseRepr(command: string): string {
    if |command| > 0 then "<Response [" + command + "]>" else "<Response>"
  }

  /** Responses to different commands have different representations, and the command can be read back
      from between the brackets. */
  lemma ResponseReprInjective(a: string, b: string)
    requires ResponseRepr(a) == ResponseRepr(b)
    ensures a == b
  {
    var r := ResponseRepr(a);
    if |a| > 0 && |b| > 0 {
      assert a == r[11..|r| - 2];
      assert b == r[11..|r| - 2];
    }
  }

  /** The output of one executed command. `attrs` holds the instance attributes that the lazy properties
      add; the ghost constants are everything the command wrote to each stream. */
  class Response {
    const command: string
    const stdout: Stream
    const stderr: Stream
    ghost const outText: string
    ghost const errText: string
    var attrs: map<string, Cached>

    /** Each stream is read exactly when its text is cached, and then once; the cached texts are the
        stripped stream contents; `ok` is cached only after `stderr_text` and agrees with it. */
    ghost predicate Valid()
      reads this, stdout, stderr
    {
      stdout != stderr &&
      attrs.Keys <= {StdoutSlot, StderrSlot, OkSlot} &&
      (if StdoutSlot in attrs then attrs[StdoutSlot] == CachedText(Strip(outText)) && stdout.readCount == 1
       else stdout.unread == outText && stdout.readCount == 0) &&
      (if StderrSlot in attrs then attrs[StderrSlot] == CachedText(Strip(errText)) && stderr.readCount == 1
       else stderr.unread == errText && stderr.readCount == 0) &&
      (OkSlot in attrs ==> StderrSlot in attrs && attrs[OkSlot] == CachedFlag(Strip(errText) == ""))
    }

    /** `execute` fills in a new response with the command and its two streams. */
    constructor (command: string, stdout: Stream, stderr: Stream)
      requires stdout != stderr && stdout.readCount == 0 && stderr.readCount == 0
      ensures this.command == command && this.stdout == stdout && this.stderr == stderr
      ensures outText == stdout.unread && errText == stderr.unread && attrs == map[]
      ensures Valid()
    {
      this.command, this.stdout, this.stderr := command, stdout, stderr;
      outText, errText := stdout.unread, stderr.unread;
      attrs := map[];
    }

    /** `stdout_text`: reads and strips standard output on the first access only. */
    method StdoutText() returns (text: string)
      requires Valid()
      modifies this, stdout
      ensures Valid()
      ensures text == Strip(outText)
      ensures attrs == Utils.LazyGet(old(attrs), "stdout_text", CachedText(text)).attrs
      ensures stdout.readCount == 1
      ensures StdoutSlot in old(attrs) ==> unchanged(stdout)
    {
      SlotsDistinct();
      var slot := Utils.SlotName("stdout_text");
      if slot in attrs {
        text := attrs[slot].text;
      } else {
        var raw := stdout.Read();
        text := Strip(raw);
        attrs := attrs[slot := CachedText(text)];
      }
    }

    /** `stderr_text`: reads and strips standard error on the first access only. */
    method StderrText() returns (text: string)
      requires Valid()
      modifies this, stderr
      ensures Valid()
      ensures text == Strip(errText)
      ensures attrs == Utils.LazyGet(old(attrs), "stderr_text", CachedText(text)).attrs
      ensures stderr.readCount == 1
      ensures StderrSlot in old(attrs) ==> unchanged(stderr)
    {
      SlotsDistinct();
      var slot := Utils.SlotName("stderr_text");
      if slot in attrs {
        text := attrs[slot].text;
      } else {
        var raw := stderr.Read();
        text := Strip(raw);
        attrs := attrs[slot := CachedText(text)];
      }
    }

    /** `ok`: whether the stripped standard error is empty, computed through `stderr_text` on the first
        access only. */
    method Ok() returns (ok: bool)
      requires Valid()
      modifies this, stderr
      ensures Valid()
      ensures ok <==> Strip(errText) == ""
      ensures OkSlot in attrs && StderrSlot in attrs
      ensures OkSlot in old(attrs) ==> attrs == old(attrs) && unchanged(stderr)
      ensures OkSlot !in old(attrs) ==>
                attrs == Utils.LazyGet(Utils.LazyGet(old(attrs), "stderr_text", CachedText(Strip(errText))).attrs,
                                       "ok", CachedFlag(ok)).attrs
      ensures stderr.readCount == 1
    {
      SlotsDistinct();
      var slot := Utils.SlotName("ok");
      if slot in attrs {
        ok := attrs[slot].flag;
      } else {
        var text := StderrText();
        ok := text == "";
        attrs := attrs[slot := CachedFlag(ok)];
      }
    }
  }

  // ---------------------------------------------------------------------------------------------
  // Session

  /** What closing the SFTP client inside `close` does: returns, raises an OSError, or raises some
      other exception. */
  datatype CloseOutcome = Closes | RaisesOSError | RaisesOther

  /** One session. `ssh` is the SSH client object, which every session shares (it is a class attribute
      in the source), so the calls of all sessions land in the same log. */
  class Session {
    const host: string
    const port: int
    const ssh: SshClient
    var chan: Channel?
    var closed: bool

    /** Takes the shared client, has no shell channel, logs in, and only then marks itself open. */
    constructor (shared: SshClient, host: string, username: string, password: string, port: int, timeout: Option<real>)
      modifies shared
      ensures ssh == shared && this.host == host && this.port == port
      ensures chan == null && !closed
      ensures shared.log == old(shared.log) + [SshCall.Connect(host, port, username, password, timeout)]
    {
      ssh := shared;
      this.host, this.port := host, port;
      chan := null;
      new;
      ssh.Connect(host, port, username, password, timeout);
      closed := false;
    }

    /** `invoke_sell` (the source's spelling): the first call creates the shell channel with its arguments;
        every later call returns that channel and ignores its arguments. */
    method InvokeSell(args: ShellArgs) returns (c: Channel)
      modifies this, ssh
      ensures chan == c && closed == old(closed)
      ensures old(chan) == null ==> fresh(c) && !c.closed && ssh.log == old(ssh.log) + [SshCall.InvokeShell(args)]
      ensures old(chan) != null ==> c == old(chan) && ssh.log == old(ssh.log)
    {
      if chan == null {
        chan := ssh.InvokeShell(args);
      }
      c := chan;
    }

    /** `close`: closes the shell channel if there is one, opens and closes an SFTP client, closes the SSH
        client only when that raised an OSError (ignoring whatever that raises), and marks the session
        closed on every path; `raised` tells whether an exception other than OSError escapes. */
    method Close(sftpClose: CloseOutcome) returns (raised: bool)
      modifies this, ssh, chan
      ensures closed
      ensures chan == old(chan) && (chan != null ==> chan.closed)
      ensures ssh.log == old(ssh.log) + [SshCall.OpenSftp] + (if sftpClose == RaisesOSError then [CloseClient] else [])
      ensures raised <==> sftpClose == RaisesOther
    {
      if chan != null {
        chan.Close();
      }
      var _ := ssh.OpenSftp();
      if sftpClose == RaisesOSError {
        ssh.Close();
      }
      raised := sftpClose == RaisesOther;
      closed := true;
    }

    /** `execute`: a new response to `command` holding the two output streams of the command. */
    method Execute(command: string, timeout: Option<real>) returns (r: Response)
      modifies ssh
      ensures fresh(r) && fresh(r.stdout) && fresh(r.stderr)
      ensures r.Valid() && r.attrs == map[] && r.command == command
      ensures r.outText == ssh.remote.run(command).stdout && r.errText == ssh.remote.run(command).stderr
      ensures ssh.log == old(ssh.log) + [SshCall.ExecCommand(command, timeout)]
    {
      var stdout, stderr := ssh.ExecCommand(command, timeout);
      r := new Response(command, stdout, stderr);
    }
  }

  /** However the arguments differ, a second `invoke_sell` returns the channel of the first. */
  method FirstShellWins(s: Session, first: ShellArgs, second: ShellArgs) returns (c1: Channel, c2: Channel)
    modifies s, s.ssh
    ensures c1 == c2 && s.chan == c1
    ensures old(s.chan) == null ==> s.ssh.log == old(s.ssh.log) + [SshCall.InvokeShell(first)]
  {
    c1 := s.InvokeSell(first);
    c2 := s.InvokeSell(second);
  }

  /** Two accesses to `stdout_text` read the stream once and return the same text. */
  method StdoutReadOnce(r: Response) returns (t1: string, t2: string)
    requires r.Valid() && r.attrs == map[]
    modifies r, r.stdout
    ensures t1 == t2 == Strip(r.outText) && r.stdout.readCount == 1
  {
    t1 := r.StdoutText();
    t2 := r.StdoutText();
  }
}
