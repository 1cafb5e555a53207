/** The remote host as this library sees it through its SSH connection: what a shell command writes to
    its two output streams, and what an SFTP directory listing returns. Both are oracles: the remote shell,
    the POSIX `test` utility and the SFTP server decide the answers. */
module RemoteHost {
  import opened Text

  /** The decoded text a command writes to standard output and standard error. */
  datatype Output = Output(stdout: string, stderr: string)

  /** The OSError that an SFTP listing of `path` raises. */
  datatype ListError = ListError(path: string, errno: int)

  datatype Listing = Listed(names: seq<string>) | Failed(err: ListError)

  datatype Host = Host(run: string -> Output, listdir: string -> Listing)

  /** The ValueError raised by `verify_path`. */
  datatype PathError = PathNotExist(path: string, message: string)

  datatype Verified = Exists(path: string) | Raised(err: PathError)

  /** The shell snippets the client sends; the path is pasted in unquoted. */
  function DirTestCommand(path: string): string { "if [ -d " + path + " ]; then echo \"1\"; fi" }
  function FileTestCommand(path: string): string { "if [ -f " + path + " ]; then echo \"1\"; fi" }
  function LinkTestCommand(path: string): string { "if [ -L " + path + " ]; then echo \"1\"; fi" }
  function CdCommand(path: string): string { "cd " + path + ";" }

  /** A probe answers yes exactly when its stripped standard output is "1". */
  predicate ProbeSays(h: Host, command: string) {
    Strip(h.run(command).stdout) == "1"
  }

  predicate IsDir(h: Host, path: string) { ProbeSays(h, DirTestCommand(path)) }
  predicate IsFile(h: Host, path: string) { ProbeSays(h, FileTestCommand(path)) }
  predicate IsLink(h: Host, path: string) { ProbeSays(h, LinkTestCommand(path)) }

  /** `verify_path`: the path itself when `cd` into it leaves nothing but whitespace on standard error,
      otherwise the "path not exist" error. */
  function VerifyPath(h: Host, path: string): Verified {
    if Strip(h.run(CdCommand(path)).stderr) != "" then
      Raised(PathNotExist(path, "[<" + path + "> path not exist]"))
    else
      Exists(path)
  }

  /** The probes accept exactly an output that is one '1' with whitespace around it: "1\n" counts,
      "11", "1 1" or an empty output do not. */
  lemma ProbeSaysIff(h: Host, command: string)
    ensures var out := h.run(command).stdout;
            ProbeSays(h, command) <==>
            exists i :: 0 <= i < |out| && out[i] == '1' && AllSpace(out[..i]) && AllSpace(out[i + 1..])
  {
    StripIsOne(h.run(command).stdout);
  }

  /** `verify_path` returns the path unchanged exactly when standard error is only whitespace, and
      raises for that same path otherwise. */
  lemma VerifyPathIff(h: Host, path: string)
    ensures VerifyPath(h, path) == Exists(path) <==> AllSpace(h.run(CdCommand(path)).stderr)
    ensures VerifyPath(h, path).Raised? ==> VerifyPath(h, path).err.path == path
  {
    StripEmptyIff(h.run(CdCommand(path)).stderr);
  }
}
