/** `Client.walk`: the depth-first traversal of a remote directory tree, in the manner of `os.walk`.
    The generator is modelled by the trace of what its consumer observes: the triples it yields, the calls
    it makes to the error callback, and how it ends. */
module Walk {
  import opened RemoteHost
  import Paths

  /** What the walk asks of the remote host: the SFTP listing of a directory, and the client's `isdir`
      and `islink` probes. */
  datatype Oracle = Oracle(listdir: string -> Listing, isdir: string -> bool, islink: string -> bool)

  /** The oracle of a client connected to `h`. */
  function ClientOracle(h: Host): Oracle {
    Oracle(h.listdir, p => IsDir(h, p), p => IsLink(h, p))
  }

  /** The Python value in one of the walk's parameter slots. Only its truthiness and whether it can be
      called matter: `None` is falsy, a bool is itself, a callback is truthy and callable. */
  datatype Arg = NoneArg | BoolArg(b: bool) | HandlerArg

  predicate Truthy(a: Arg) {
    match a
    case NoneArg => false
    case BoolArg(b) => b
    case HandlerArg => true
  }

  /** The `topdown`, `onerror` and `followlinks` slots of one call. */
  datatype Slots = Slots(topdown: Arg, onerror: Arg, followlinks: Arg)

  /** How the recursive call hands its arguments on: positionally, as the source does (so `onerror` lands
      in `topdown` and `followlinks` in `onerror`), or by keyword, as `os.walk` does. */
  datatype Passing = Positional | ByKeyword

  /** The slots of the walks nested one level below a walk with slots `s`. */
  function Nested(passing: Passing, s: Slots): Slots {
    match passing
    case Positional => Slots(s.onerror, s.followlinks, BoolArg(false))
    case ByKeyword => s
  }

  /** A triple the generator yields, or one call `onerror(err)`. */
  datatype Event = Yield(dirpath: string, dirnames: seq<string>, filenames: seq<string>) | Report(err: ListError)

  /** How the generator ends: exhausted normally, by the TypeError of calling a bool as the error callback,
      or by the interpreter's recursion limit. */
  datatype Outcome = Finished | NotCallable | RecursionLimit

  datatype Trace = Trace(events: seq<Event>, outcome: Outcome)

  function Then(before: seq<Event>, t: Trace): Trace {
    Trace(before + t.events, t.outcome)
  }

  /** The names of the listing of `top` that are directories (`wantDirs`) or are not, in listing order. */
  function Select(o: Oracle, top: string, names: seq<string>, wantDirs: bool): seq<string> {
    if names == [] then []
    else
      var last := names[|names| - 1];
      Select(o, top, names[..|names| - 1], wantDirs) + (if o.isdir(Paths.Join(top, last)) == wantDirs then [last] else [])
  }

  /** The triple for a listed directory. */
  function Node(o: Oracle, top: string, names: seq<string>): Event {
    Yield(top, Select(o, top, names, true), Select(o, top, names, false))
  }

  /** What a failed listing produces, by the value in the `onerror` slot: nothing for None, one call of the
      callback, or the TypeError of calling a bool. */
  function OnListError(onerror: Arg, e: ListError): Trace {
    match onerror
    case NoneArg => Trace([], Finished)
    case HandlerArg => Trace([Report(e)], Finished)
    case BoolArg(_) => Trace([], NotCallable)
  }

  /** The walk of `top` with slots `s`, when `depth` more nested levels fit under the recursion limit. */
  function WalkTrace(o: Oracle, top: string, s: Slots, passing: Passing, depth: nat): Trace
    decreases depth, 1
  {
    match o.listdir(top)
    case Failed(e) => OnListError(s.onerror, e)
    case Listed(names) =>
      var node := Node(o, top, names);
      var below := Descend(o, top, node.dirnames, Nested(passing, s), s.followlinks, passing, depth);
      if Truthy(s.topdown) then Then([node], below)
      else if below.outcome == Finished then Trace(below.events + [node], Finished)
      else below
  }

  /** The nested walks of the subdirectories `dirs` of `top`, in order, stopping at the first that raises. */
  function Descend(o: Oracle, top: string, dirs: seq<string>, inner: Slots, followlinks: Arg,
                   passing: Passing, depth: nat): Trace
    decreases depth, 0, |dirs|
  {
    if dirs == [] then Trace([], Finished)
    else
      var first := Child(o, Paths.Join(top, dirs[0]), inner, followlinks, passing, depth);
      if first.outcome != Finished then first
      else Then(first.events, Descend(o, top, dirs[1..], inner, followlinks, passing, depth))
  }

  /** One subdirectory: skipped when it is a symbolic link and links are not followed. */
  function Child(o: Oracle, path: string, inner: Slots, followlinks: Arg, passing: Passing, depth: nat): Trace
    decreases depth, 0, 0
  {
    if Truthy(followlinks) || !o.islink(path) then
      if depth == 0 then Trace([], RecursionLimit)
      else WalkTrace(o, path, inner, passing, depth - 1)
    else Trace([], Finished)
  }

  /** `client.walk(top, topdown, onerror, followlinks)` as the source calls itself, with `handler` telling
      whether a callback or None was given as `onerror`. */
  function ClientWalk(o: Oracle, top: string, topdown: bool, handler: bool, followlinks: bool, limit: nat): Trace {
    WalkTrace(o, top, Slots(BoolArg(topdown), if handler then HandlerArg else NoneArg, BoolArg(followlinks)),
              Positional, limit)
  }

  /** The generator body: list `top`, then yield its triple before or after the nested walks. */
  method Run(o: Oracle, top: string, s: Slots, passing: Passing, depth: nat) returns (t: Trace)
    ensures t == WalkTrace(o, top, s, passing, depth)
    decreases depth, 1
  {
    var listing := o.listdir(top);
    if listing.Failed? {
      if s.onerror.NoneArg? {
        return Trace([], Finished);
      } else if s.onerror.HandlerArg? {
        return Trace([Report(listing.err)], Finished);
      } else {
        return Trace([], NotCallable);
      }
    }
    var dirs, nondirs := Classify(o, top, listing.names);
    var node := Yield(top, dirs, nondirs);
    var below := RunNested(o, top, dirs, Nested(passing, s), s.followlinks, passing, depth);
    if Truthy(s.topdown) {
      t := Trace([node] + below.events, below.outcome);
    } else if below.outcome == Finished {
      t := Trace(below.events + [node], Finished);
    } else {
      t := below;
    }
  }

  /** The loop that sorts the listed names into directories and the rest, appending as it goes. */
  method Classify(o: Oracle, top: string, names: seq<string>) returns (dirs: seq<string>, nondirs: seq<string>)
    ensures dirs == Select(o, top, names, true)
    ensures nondirs == Select(o, top, names, false)
  {
    dirs, nondirs := [], [];
    var i := 0;
    while i < |names|
      invariant 0 <= i <= |names|
      invariant dirs == Select(o, top, names[..i], true)
      invariant nondirs == Select(o, top, names[..i], false)
    {
      assert names[..i + 1][..i] == names[..i];
      if o.isdir(Paths.Join(top, names[i])) {
        dirs := dirs + [names[i]];
      } else {
        nondirs := nondirs + [names[i]];
      }
      i := i + 1;
    }
    assert names[..|names|] == names;
  }

  /** The loop over the subdirectories: descend into each one that is not a skipped link, passing on
      whatever a nested walk yields, and stop at the first nested walk that raises. */
  method RunNested(o: Oracle, top: string, dirs: seq<string>, inner: Slots, followlinks: Arg,
                   passing: Passing, depth: nat) returns (t: Trace)
    ensures t == Descend(o, top, dirs, inner, followlinks, passing, depth)
    decreases depth, 0, |dirs|
  {
    var events: seq<Event> := [];
    var j := 0;
    while j < |dirs|
      invariant 0 <= j <= |dirs|
      invariant Then(events, Descend(o, top, dirs[j..], inner, followlinks, passing, depth))
                == Descend(o, top, dirs, inner, followlinks, passing, depth)
    {
      DescendStep(o, top, dirs, j, inner, followlinks, passing, depth);
      var sub := RunChild(o, Paths.Join(top, dirs[j]), inner, followlinks, passing, depth);
      if sub.outcome != Finished {
        return Trace(events + sub.events, sub.outcome);
      }
      ThenThen(events, sub.events, Descend(o, top, dirs[j + 1..], inner, followlinks, passing, depth));
      events := events + sub.events;
      j := j + 1;
    }
    t := Trace(events, Finished);
  }

  /** One step of that loop: the symbolic-link check, then the nested walk. */
  method RunChild(o: Oracle, path: string, inner: Slots, followlinks: Arg, passing: Passing, depth: nat)
    returns (t: Trace)
    ensures t == Child(o, path, inner, followlinks, passing, depth)
    decreases depth, 0, 0
  {
    t := Trace([], Finished);
    if Truthy(followlinks) || !o.islink(path) {
      if depth == 0 {
        t := Trace([], RecursionLimit);
      } else {
        t := Run(o, path, inner, passing, depth - 1);
      }
    }
  }

  /** Unfolds `Descend` at position `j` of the subdirectory list. */
  lemma DescendStep(o: Oracle, top: string, dirs: seq<string>, j: nat, inner: Slots, followlinks: Arg,
                    passing: Passing, depth: nat)
    requires j < |dirs|
    ensures var first := Child(o, Paths.Join(top, dirs[j]), inner, followlinks, passing, depth);
            Descend(o, top, dirs[j..], inner, followlinks, passing, depth)
            == if first.outcome != Finished then first
               else Then(first.events, Descend(o, top, dirs[j + 1..], inner, followlinks, passing, depth))
  {
    assert dirs[j..][1..] == dirs[j + 1..];
  }

  lemma ThenThen(a: seq<Event>, b: seq<Event>, t: Trace)
    ensures Then(a, Then(b, t)) == Then(a + b, t)
  {
    assert a + (b + t.events) == a + b + t.events;
  }
}
