# autodeploy SSH facade, modelled in Dafny

autodeploy wraps an SSH library in two classes.

- A `Session` holds one connection to a remote host. It can run a command and get back a `Response`, open an interactive shell channel once, and close itself.
- A `Client` adds an SFTP client and remote-path helpers built on shell probes:
  - `isdir`, `isfile`, `islink` and `verify_path`
  - `mkdir`
  - a recursive `walk` in the manner of `os.walk`
  - single-file and flat-directory transfers

A `Response` decodes its two output streams lazily through the `lazy_property` descriptor.

This project models that core and proves what it does.

- **The remote host** is an oracle (`RemoteHost.Host`). It gives what a shell command writes to standard output and standard error, and what an SFTP listing returns.
- **The walk** (`Walk`) is a function from the oracle to the trace that a consumer who does not modify the yielded lists observes:
  - the triples yielded;
  - the calls to the error callback;
  - how the walk ends: exhausted, by the TypeError of calling a bool as the callback, or by the recursion limit.

  `Walk.Run` and its loops are proved equal to that function. `WalkProperties` proves the sorting, ordering, symbolic-link and error-callback properties, and what the positional recursive call does to the nested levels. `WalkExamples` works small trees out in full.
- **The lazy properties** (`Utils.LazyGet`) are modelled over the instance's attribute map. `Session.Response` keeps its cache in such a map and reads each stream at most once.
- **The session and client** (`Session.Session` and `Client.Client`) are classes. They hold the source's fields, and their methods state the new state and the calls they make on the SSH and SFTP clients. Those calls are recorded in the log fields of `Session.SshClient` and `Session.SftpClient`.
- **Python details:**
  - `str.strip` is modelled exactly, with Python's full set of whitespace code points (`Text`).
  - `posixpath.join`, `split` and `basename` are modelled exactly (`Paths`).

## Model

| member | source | states |
|---|---|---|
| Walk.Run | client.py:65-102 | for a consumer that leaves the yielded lists alone, the generator body produces `WalkTrace`: a failed listing goes to the error slot; otherwise the triple is yielded before the nested walks when `topdown` is truthy and after them otherwise; nested walks get the positionally shifted slots |
| Walk.Classify | client.py:86-91 | the sorting loop appends each listed name to `dirs` when `isdir(join(top, name))` and to `nondirs` otherwise, giving exactly `Select(..., true)` and `Select(..., false)` |
| Walk.RunNested | client.py:96-100 | the loop over `dirs` yields the nested walks one after the other and stops at the first that raises, exactly as `Descend` |
| Walk.RunChild | client.py:97-100 | a subdirectory is descended into only when `followlinks` is truthy or it is not a link; descending past the recursion limit raises |
| WalkProperties.SelectMembers | client.py:86-91 | a name is in `dirs` (`nondirs`) exactly when it is listed and `isdir` of its joined path is true (false) |
| WalkProperties.SelectAppend | client.py:86-91 | sorting preserves listing order: the lists of a concatenated listing are the concatenations of the parts' lists |
| WalkProperties.SelectPartition | client.py:86-91 | `dirs` and `nondirs` together hold every listed name exactly as often as it is listed |
| WalkProperties.ListingFailure | client.py:79-84 | when `listdir(top)` fails nothing is yielded; with None nothing else happens, with a callback it is called once with the error, with a bool in the slot the call raises |
| WalkProperties.TripleOrder | client.py:93-102 | top-down the triple of `top` precedes every nested triple; bottom-up it follows all of them, and is not yielded when a nested walk raises |
| WalkProperties.LinkedDirSkipped | client.py:96-100 | a subdirectory that is a link contributes nothing unless `followlinks` is truthy: the nested walks equal those without it |
| WalkProperties.YieldsAreListings | client.py:79-102 | every triple yielded at any depth is its directory's listing sorted into `dirs` and `nondirs` |
| WalkProperties.DescendYieldsAreListings | client.py:96-100 | the same for the triples yielded by the nested walks of a list of subdirectories |
| WalkProperties.PositionalLevels | client.py:99 | as written, level 1 runs with `topdown := onerror`, `onerror := followlinks`, `followlinks := False`; level 2 with `topdown := followlinks` and the rest False; deeper levels with all three False |
| WalkProperties.KeywordLevels | client.py:99 | passing the arguments by keyword, every level runs with the caller's slots |
| WalkProperties.PositionalQuiet | client.py:79-100 | as written, with no callback in the `onerror` or `followlinks` slot, the walk only ever yields triples |
| WalkProperties.PositionalQuietDescend | client.py:96-100 | the same for the nested walks of a list of subdirectories |
| WalkProperties.OnlyTopFailureReported | client.py:79-100 | as written, the callback is only called for a failed listing of `top` itself, never for a subdirectory |
| WalkProperties.FirstNestedFailureRaises | client.py:96-100 | as written, when the first descended subdirectory cannot be listed the walk raises the TypeError, whether `onerror` is a callback or None |
| WalkProperties.KeywordNeverNotCallable | client.py:79-100 | passing by keyword, a walk started with a callback or None never raises the TypeError |
| WalkProperties.KeywordNeverNotCallableDescend | client.py:96-100 | the same for the nested walks of a list of subdirectories |
| WalkProperties.KeywordReportsNestedFailure | client.py:79-100 | passing by keyword, an unreadable first subdirectory reaches the callback right after the triple of `top`, and the walk does not raise the TypeError |
| WalkExamples.SmallTreeWalks | client.py:65-102 | `/root` holding directory `a` (holding `b.txt`) and file `c.txt` walks top-down as `/root`, `/root/a` and bottom-up as `/root/a`, `/root` |
| WalkExamples.ChainOrderAsWritten | client.py:93-102 | as written, a top-down walk of the chain `/r/a/b` yields `/r`, `/r/a/b`, `/r/a`: nested levels run bottom-up |
| WalkExamples.ChainOrderByKeyword | client.py:93-102 | passing by keyword, the same chain yields in pre-order `/r`, `/r/a`, `/r/a/b` |
| WalkExamples.UnreadableChild | client.py:79-100 | as written, an unreadable `/r/a` makes the walk raise after the triple of `/r`, with a callback or None; by keyword the callback receives the error and the walk finishes |
| Text.StripLeftShape | session.py:32 | stripping on the left drops exactly the leading whitespace: the rest is a suffix that starts with non-whitespace |
| Text.StripRightShape | session.py:37 | stripping on the right drops exactly the trailing whitespace: the rest is a prefix that ends in non-whitespace |
| Text.StripEmptyIff | session.py:39-41 | the stripped text is empty exactly when the whole text is whitespace |
| Text.StripIsOne | client.py:29-39 | the stripped text is `"1"` exactly when the text is one `'1'` with only whitespace around it |
| RemoteHost.ProbeSaysIff | client.py:29-39 | `isdir`, `isfile` and `islink` answer yes exactly when the probe's standard output is a single `1` surrounded by whitespace |
| RemoteHost.VerifyPathIff | client.py:41-45 | `verify_path` returns the path unchanged exactly when `cd` writes only whitespace to standard error, and otherwise raises for that same path |
| Paths.JoinShape | client.py:9 | `join(a, b)` ends in `b`, and is `b` itself when `b` is absolute |
| Paths.LastSepEndShape | client.py:105 | the split point follows the last separator, and nothing after it is a separator |
| Paths.RStripSepShape | client.py:105 | removing trailing separators keeps a prefix that does not end in one and drops only separators |
| Paths.SplitShape | client.py:105-108 | the tail of `split` is the separator-free end of the path, and the head is what precedes it; the head ends in a non-separator unless it consists of separators only, and in that case it is everything before the tail |
| Paths.BasenameOfJoin | client.py:108-113 | joining a separator-free name onto any directory and taking the base name gives the name back |
| Paths.HeadOfJoin | client.py:105-109 | the head of a name joined onto a directory without a trailing separator is that directory |
| Utils.SlotName | utils.py:8 | the cache slot is the prefix `_lazy_` followed by the function name |
| Utils.LazyGetBehaviour | utils.py:11-17 | the function is called exactly when the slot is absent; the slot then holds the value returned (fresh or cached); only that slot is added and no attribute changes |
| Utils.SlotNameInjective | utils.py:8 | different function names get different slots |
| Utils.SecondAccessIsCached | utils.py:12-17 | a second access never calls the function, returns the first access's value and changes nothing |
| Utils.DistinctPropertiesIndependent | utils.py:8-16 | an access to one lazy property neither fills nor changes the slot of a property wrapping another function |
| Session.ResponseReprInjective | session.py:43-47 | `repr` is `<Response [cmd]>` for a non-empty command and `<Response>` for an empty one, and different commands never share a representation |
| Session.Response.constructor | session.py:119-126 | a new response holds the command and its two streams, with nothing cached |
| Session.Response.StdoutText | session.py:29-32 | the first access reads standard output once and caches its stripped text; later accesses return the cache without reading |
| Session.Response.StderrText | session.py:34-37 | the same for standard error |
| Session.Response.Ok | session.py:39-41 | `ok` is true exactly when the stripped standard error is empty; it is computed through `stderr_text` on the first access only and cached |
| Session.StdoutReadOnce | session.py:29-32 | two accesses to `stdout_text` return the same text and read the stream once |
| Session.Session.constructor | session.py:55-62 | the session takes the shared SSH client and has no channel; it logs in, and only then is it marked open |
| Session.Session.InvokeSell | session.py:106-117 | the first call creates the shell channel with its arguments and stores it; later calls return that channel and make no call, whatever their arguments |
| Session.FirstShellWins | session.py:106-117 | two calls with different arguments return the same channel |
| Session.Session.Close | session.py:93-104 | closes the channel if one is set, opens and closes an SFTP client, closes the SSH client only when that raised OSError, and is closed afterwards on every path; only a non-OSError escapes |
| Session.Session.Execute | session.py:119-126 | runs the command once and returns a fresh response holding the command and the command's two output streams |
| Client.Client.constructor | client.py:22-24 | logs in through a new session on the shared SSH client, then opens the client's SFTP client on the same host |
| Client.Client.Probe | client.py:29-39 | runs the test command and answers whether its stripped standard output is `"1"`, reading only standard output |
| Client.Client.IsDir | client.py:29-31 | the answer of the `-d` probe for the path |
| Client.Client.IsFile | client.py:33-35 | the answer of the `-f` probe for the path |
| Client.Client.IsLink | client.py:37-39 | the answer of the `-L` probe for the path |
| Client.Client.VerifyPath | client.py:41-45 | runs `cd` into the path; raises the "path not exist" error when the stripped standard error is non-empty, and returns the path otherwise |
| Client.Client.Listdir | client.py:47-48 | the SFTP listing of the path |
| Client.Client.Chmod | client.py:56-57 | one SFTP chmod with the given path and mode |
| Client.Client.Mkdir | client.py:59-63 | asks the SFTP server to create the path with the mode only when `verify_path` raised, and makes no create call when the path exists |
| Client.Client.Walk | client.py:65-102 | the client's walk is the walk of its own host with the arguments passed on positionally |
| Client.Client.Download | client.py:104-109 | as written: creates the parent of `local_path` when nothing exists there, then fetches the file into `join(local_path, basename(remote_file))` |
| Client.DownloadMissesTargetDir | client.py:104-109 | as written, when the parent of `local_path` exists and `local_path` does not, no directory is created, yet the file is written into `local_path` |
| Client.Client.DownloadFixed | client.py:104-109 | as intended: creates `local_path` itself when nothing exists there, then fetches to the same destination |
| Client.DownloadFixedCreatesTargetDir | client.py:104-109 | as intended, the directory the file is written into exists afterwards, and no existing directory is lost |
| Client.TargetsKeepBaseName | client.py:104-113 | upload and download destinations have the source's base name |
| Client.Client.Upload | client.py:111-113 | one put of the local file to `join(remote_path, basename(local_file))`; it raises when the local path is not a regular file |
| Client.Client.UploadDir | client.py:118-122 | one upload per entry of the local listing, in listing order; it stops with the exception at the first entry that is not a regular file, and otherwise uploads every entry |
| Client.UploadCalls | client.py:118-122 | `upload_dir` makes as many puts as there are entries |
| Client.UploadCallsOnePerEntry | client.py:119-122 | the i-th put sends the i-th entry of the listing, joined onto the local directory |
| Client.UploadCallsKeepBaseName | client.py:119-122 | every put keeps the base name of the file it sends |
| Client.UploadDirTargets | client.py:119-122 | an entry that is a plain name is sent to `join(remote_path, name)` |
| Client.FirstNonFileAt | client.py:119-122 | up to the first entry that is not a regular file, an entry is a regular file exactly when it comes before that one |
| Client.Client.DownloadDir | client.py:115-116 | `download_dir` changes nothing |

## Left out

- The SSH library itself is not modelled: connecting and authenticating, host-key policy, `exec_command`, the transport, and SFTP `get`, `put`, `listdir` and `chmod`. Each is a small class method that records the call in a log, and whose result comes from the remote-host oracle.
- The remote shell, the POSIX `test` utility and `cd` are part of the oracle. The commands are built as the source formats them; the path is pasted in unquoted, and what the remote shell makes of such a path is not modelled.
- The `sftp` property, which opens a new SFTP client on each access, is modelled only as the `OpenSftp` call. It appears where the source uses it: in the constructor and in `close`.
- `__getattr__` forwarding, `Session.__repr__`, `listdir_attr`, `listdir_iter` and the `closed` property are left out. They are reflective, or they forward to the library with no logic of their own.
- `Client.execute` just delegates to `Session.execute` and is not modelled separately.
- Stream decoding (`bytes2str`, compat.py) is left out. Stream contents are modelled as already-decoded text.
- `utils.log` is left out: it reads the clock and prints.
- Client.Client.Walk: the calls that the walk makes on the SSH and SFTP clients (one listing per directory, one probe per name and per subdirectory) are not logged. The walk sees the host through `Walk.Oracle`, whose answers are those of `Client.Client.Listdir`, `IsDir` and `IsLink`.
- Walk.Run: a callback passed as `onerror` is modelled only by the calls made to it. Its own effects are not modelled, and neither is an exception it raises.
- Walk.Run: edits that a consumer makes in place to the yielded `dirs` list are not modelled. client.py:94 yields the same list object that client.py:96 then loops over, so a top-down consumer can prune the descent, as with `os.walk`. In the model a yielded triple is an immutable value, so no consumer can influence the walk.
- Walk.Run: the interpreter's recursion limit is a depth parameter. Reaching it ends the walk with the `RecursionLimit` outcome. The source has no cycle detection beyond the link check.
- Client.Client.Download: local filesystem behaviour is reduced to the following.
  - `os.path.exists` is membership of the known directories and files.
  - `os.makedirs` adds exactly the path given. Missing intermediate directories are not added, and the error `os.makedirs('')` raises is not modelled.
  - A failing `get` is not modelled.
- Client.Client.Upload: only the local-side failure is modelled (the local path is not a regular file). A missing remote directory or another server-side refusal is not.
- Session.Session.Close: whether closing the SFTP client returns, raises OSError or raises another exception is a parameter.
- Text.StripLeftShape: whitespace is Python's `str.isspace` set of code points. Strings are sequences of characters, not of bytes.
- Default argument values are not modelled: `mode=511` of `mkdir`, `topdown=True, onerror=None, followlinks=False` of `walk`, and the terminal defaults of `invoke_sell`. Every modelled call passes all of its arguments.
- Concurrency is left out: the source assumes single-threaded use. The SSH client that every session shares is modelled as one object that all sessions reference.

In `download`, client.py:109 writes the file to `join(local_path, basename(remote_file))`, so `local_path` is the destination directory. Yet client.py:105-107 only ever creates `split(local_path)[0]`, the parent of that directory. `Client.Client.Download` follows the code as written, and the discrepancy is the second row below.

## Findings

| source | as written | input that shows it | evidently intended | confidence | as-written member | corrected member |
|---|---|---|---|---|---|---|
| client.py:99 | the recursive call passes `onerror` and `followlinks` positionally, so they land in the `topdown` and `onerror` slots, and `followlinks` becomes False | `walk('/r')` or `walk('/r', onerror=cb)` where `/r/a` cannot be listed: the walk raises TypeError after the triple of `/r`, and `cb` is never called | pass `topdown`, `onerror` and `followlinks` by keyword, as `os.walk` does | not executed | WalkProperties.FirstNestedFailureRaises | WalkProperties.KeywordReportsNestedFailure |
| client.py:105-109 | creates the parent of `local_path` when missing, then writes the file into `local_path` itself | `download('/data/f.txt', '/tmp/out')` with `/tmp` present and `/tmp/out` absent: nothing is created and the target `/tmp/out/f.txt` has no directory | create `local_path`, the directory that client.py:109 writes into, when it is missing | not executed | Client.DownloadMissesTargetDir | Client.DownloadFixedCreatesTargetDir |
