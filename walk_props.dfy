/** What the walk promises, proved about its trace: the sorting of names, where each triple goes, the
    symbolic-link guard, the error callback, and what the positional recursive call does to nested levels. */
module WalkProperties {
  import opened RemoteHost
  import opened Walk
  import Paths

  // ---------------------------------------------------------------------------------------------
  // Sorting a listing into `dirs` and `nondirs`

  /** A name is selected exactly when it is listed and its kind is the one asked for. */
  lemma {:induction false} SelectMembers(o: Oracle, top: string, names: seq<string>, wantDirs: bool)
    ensures forall n :: n in Select(o, top, names, wantDirs) <==> n in names && o.isdir(Paths.Join(top, n)) == wantDirs
  {
    if names != [] {
      var init, last := names[..|names| - 1], names[|names| - 1];
      SelectMembers(o, top, init, wantDirs);
      assert names == init + [last];
    }
  }

  /** Sorting is done name by name in listing order: the lists for a concatenated listing are the
      concatenations of the lists for its two parts. */
  lemma {:induction false} SelectAppend(o: Oracle, top: string, a: seq<string>, b: seq<string>, wantDirs: bool)
    ensures Select(o, top, a + b, wantDirs) == Select(o, top, a, wantDirs) + Select(o, top, b, wantDirs)
    decreases |b|
  {
    if b != [] {
      var b', last := b[..|b| - 1], b[|b| - 1];
      assert (a + b)[..|a + b| - 1] == a + b';
      SelectAppend(o, top, a, b', wantDirs);
      var tail := if o.isdir(Paths.Join(top, last)) == wantDirs then [last] else [];
      var sa, sb := Select(o, top, a, wantDirs), Select(o, top, b', wantDirs);
      assert sa + sb + tail == sa + (sb + tail);
    } else {
      assert a + b == a;
    }
  }

  /** Every listed name goes to exactly one of `dirs` and `nondirs`, as often as it is listed. */
  lemma {:induction false} SelectPartition(o: Oracle, top: string, names: seq<string>)
    ensures multiset(Select(o, top, names, true)) + multiset(Select(o, top, names, false)) == multiset(names)
  {
    if names != [] {
      var init, last := names[..|names| - 1], names[|names| - 1];
      SelectPartition(o, top, init);
      assert names == init + [last];
    }
  }

  // ---------------------------------------------------------------------------------------------
  // One level of the walk

  /** A listing failure yields nothing: it is passed to a callback once, ignored for None, and raises
      the TypeError of calling a bool when a bool sits in the `onerror` slot. */
  lemma ListingFailure(o: Oracle, top: string, s: Slots, passing: Passing, depth: nat)
    requires o.listdir(top).Failed?
    ensures var t := WalkTrace(o, top, s, passing, depth);
            var e := o.listdir(top).err;
            (s.onerror.NoneArg? ==> t == Trace([], Finished)) &&
            (s.onerror.HandlerArg? ==> t == Trace([Report(e)], Finished)) &&
            (s.onerror.BoolArg? ==> t == Trace([], NotCallable))
  {
  }

  /** Top-down, the triple for `top` comes first and the nested walks follow; bottom-up, it comes after
      all of them, and is never yielded when a nested walk raises. The nested walks run with the slots
      `Nested(passing, s)`. */
  lemma TripleOrder(o: Oracle, top: string, s: Slots, passing: Passing, depth: nat)
    requires o.listdir(top).Listed?
    ensures var node := Node(o, top, o.listdir(top).names);
            var below := Descend(o, top, node.dirnames, Nested(passing, s), s.followlinks, passing, depth);
            var t := WalkTrace(o, top, s, passing, depth);
            (Truthy(s.topdown) ==> t.events == [node] + below.events && t.outcome == below.outcome) &&
            (!Truthy(s.topdown) && below.outcome == Finished ==> t.events == below.events + [node] && t.outcome == Finished) &&
            (!Truthy(s.topdown) && below.outcome != Finished ==> t == below)
  {
  }

  /** A subdirectory that is a symbolic link adds nothing to the nested walks unless links are followed:
      the walks are those of the list without it. */
  lemma {:induction false} LinkedDirSkipped(o: Oracle, top: string, dirs: seq<string>, i: nat, inner: Slots,
                                            followlinks: Arg, passing: Passing, depth: nat)
    requires i < |dirs| && !Truthy(followlinks) && o.islink(Paths.Join(top, dirs[i]))
    ensures Descend(o, top, dirs, inner, followlinks, passing, depth)
            == Descend(o, top, dirs[..i] + dirs[i + 1..], inner, followlinks, passing, depth)
    decreases i
  {
    if i == 0 {
      assert dirs[..0] + dirs[1..] == dirs[1..];
      var rest := Descend(o, top, dirs[1..], inner, followlinks, passing, depth);
      assert [] + rest.events == rest.events;
    } else {
      var rest := dirs[1..];
      LinkedDirSkipped(o, top, rest, i - 1, inner, followlinks, passing, depth);
      var shorter := dirs[..i] + dirs[i + 1..];
      assert shorter[0] == dirs[0];
      assert shorter[1..] == rest[..i - 1] + rest[i..];
    }
  }

  // ---------------------------------------------------------------------------------------------
  // All levels of the walk

  /** A yielded triple is the listing of its directory sorted as `Select` sorts it. */
  predicate Faithful(o: Oracle, e: Event) {
    e.Yield? ==> o.listdir(e.dirpath).Listed? && e == Node(o, e.dirpath, o.listdir(e.dirpath).names)
  }

  /** Every triple the walk yields, at any depth, is the sorted listing of its directory. */
  lemma {:induction false} YieldsAreListings(o: Oracle, top: string, s: Slots, passing: Passing, depth: nat)
    ensures forall e :: e in WalkTrace(o, top, s, passing, depth).events ==> Faithful(o, e)
    decreases depth, 1
  {
    match o.listdir(top)
    case Failed(_) =>
    case Listed(names) =>
      DescendYieldsAreListings(o, top, Node(o, top, names).dirnames, Nested(passing, s), s.followlinks, passing, depth);
  }

  lemma {:induction false} DescendYieldsAreListings(o: Oracle, top: string, dirs: seq<string>, inner: Slots,
                                                    followlinks: Arg, passing: Passing, depth: nat)
    ensures forall e :: e in Descend(o, top, dirs, inner, followlinks, passing, depth).events ==> Faithful(o, e)
    decreases depth, 0, |dirs|
  {
    if dirs != [] {
      var path := Paths.Join(top, dirs[0]);
      if (Truthy(followlinks) || !o.islink(path)) && depth > 0 {
        YieldsAreListings(o, path, inner, passing, depth - 1);
      }
      DescendYieldsAreListings(o, top, dirs[1..], inner, followlinks, passing, depth);
    }
  }

  // ---------------------------------------------------------------------------------------------
  // The positional recursive call (as written) against passing by keyword (as intended)

  /** The slots `k` levels below a walk with slots `s`. */
  function NestedN(passing: Passing, s: Slots, k: nat): Slots {
    if k == 0 then s else Nested(passing, NestedN(passing, s, k - 1))
  }

  /** As written, level 1 runs with `topdown := onerror`, `onerror := followlinks`, `followlinks := False`,
      level 2 with `topdown := followlinks` and the rest False, and every deeper level with all three False. */
  lemma {:induction false} PositionalLevels(s: Slots, k: nat)
    ensures k == 1 ==> NestedN(Positional, s, k) == Slots(s.onerror, s.followlinks, BoolArg(false))
    ensures k == 2 ==> NestedN(Positional, s, k) == Slots(s.followlinks, BoolArg(false), BoolArg(false))
    ensures k >= 3 ==> NestedN(Positional, s, k) == Slots(BoolArg(false), BoolArg(false), BoolArg(false))
  {
    if k > 0 {
      PositionalLevels(s, k - 1);
    }
  }

  /** Passing by keyword, every level runs with the caller's slots. */
  lemma {:induction false} KeywordLevels(s: Slots, k: nat)
    ensures NestedN(ByKeyword, s, k) == s
  {
    if k > 0 {
      KeywordLevels(s, k - 1);
    }
  }

  /** As written, a walk whose `onerror` and `followlinks` slots hold no callback never calls the callback,
      at any depth. */
  lemma {:induction false} PositionalQuiet(o: Oracle, top: string, s: Slots, depth: nat)
    requires !s.onerror.HandlerArg? && !s.followlinks.HandlerArg?
    ensures forall e :: e in WalkTrace(o, top, s, Positional, depth).events ==> e.Yield?
    decreases depth, 1
  {
    match o.listdir(top)
    case Failed(_) =>
    case Listed(names) =>
      PositionalQuietDescend(o, top, Node(o, top, names).dirnames, Nested(Positional, s), s.followlinks, depth);
  }

  lemma {:induction false} PositionalQuietDescend(o: Oracle, top: string, dirs: seq<string>, inner: Slots,
                                                  followlinks: Arg, depth: nat)
    requires !inner.onerror.HandlerArg? && !inner.followlinks.HandlerArg?
    ensures forall e :: e in Descend(o, top, dirs, inner, followlinks, Positional, depth).events ==> e.Yield?
    decreases depth, 0, |dirs|
  {
    if dirs != [] {
      var path := Paths.Join(top, dirs[0]);
      if (Truthy(followlinks) || !o.islink(path)) && depth > 0 {
        PositionalQuiet(o, path, inner, depth - 1);
      }
      PositionalQuietDescend(o, top, dirs[1..], inner, followlinks, depth);
    }
  }

  /** As written, the callback is only ever called for the listing of `top` itself: failures below `top`
      never reach it. */
  lemma OnlyTopFailureReported(o: Oracle, top: string, topdown: bool, handler: bool, followlinks: bool, limit: nat)
    ensures forall e :: e in ClientWalk(o, top, topdown, handler, followlinks, limit).events && e.Report? ==>
              o.listdir(top).Failed? && e.err == o.listdir(top).err
  {
    var s := Slots(BoolArg(topdown), if handler then HandlerArg else NoneArg, BoolArg(followlinks));
    match o.listdir(top)
    case Failed(_) =>
    case Listed(names) =>
      PositionalQuietDescend(o, top, Node(o, top, names).dirnames, Nested(Positional, s), s.followlinks, limit);
  }

  /** As written, when the first subdirectory the walk descends into cannot be listed, the walk raises
      the TypeError of calling a bool, whatever was passed as `onerror`. */
  lemma FirstNestedFailureRaises(o: Oracle, top: string, topdown: bool, handler: bool, followlinks: bool, limit: nat)
    requires o.listdir(top).Listed?
    requires var dirs := Node(o, top, o.listdir(top).names).dirnames;
             |dirs| > 0 && (followlinks || !o.islink(Paths.Join(top, dirs[0]))) &&
             o.listdir(Paths.Join(top, dirs[0])).Failed?
    requires limit > 0
    ensures ClientWalk(o, top, topdown, handler, followlinks, limit).outcome == NotCallable
  {
    var s := Slots(BoolArg(topdown), if handler then HandlerArg else NoneArg, BoolArg(followlinks));
    var dirs := Node(o, top, o.listdir(top).names).dirnames;
    var path := Paths.Join(top, dirs[0]);
    assert WalkTrace(o, path, Nested(Positional, s), Positional, limit - 1).outcome == NotCallable;
    assert Child(o, path, Nested(Positional, s), s.followlinks, Positional, limit).outcome == NotCallable;
    assert Descend(o, top, dirs, Nested(Positional, s), s.followlinks, Positional, limit).outcome == NotCallable;
  }

  /** Passing by keyword, a walk started with a callback or None in `onerror` never raises the TypeError:
      every listing failure at any depth is passed to the callback or ignored, and the walk goes on. */
  lemma {:induction false} KeywordNeverNotCallable(o: Oracle, top: string, s: Slots, depth: nat)
    requires !s.onerror.BoolArg?
    ensures WalkTrace(o, top, s, ByKeyword, depth).outcome != NotCallable
    decreases depth, 1
  {
    match o.listdir(top)
    case Failed(_) =>
    case Listed(names) =>
      KeywordNeverNotCallableDescend(o, top, Node(o, top, names).dirnames, s, s.followlinks, depth);
  }

  lemma {:induction false} KeywordNeverNotCallableDescend(o: Oracle, top: string, dirs: seq<string>, inner: Slots,
                                                          followlinks: Arg, depth: nat)
    requires !inner.onerror.BoolArg?
    ensures Descend(o, top, dirs, inner, followlinks, ByKeyword, depth).outcome != NotCallable
    decreases depth, 0, |dirs|
  {
    if dirs != [] {
      var path := Paths.Join(top, dirs[0]);
      if (Truthy(followlinks) || !o.islink(path)) && depth > 0 {
        KeywordNeverNotCallable(o, path, inner, depth - 1);
      }
      KeywordNeverNotCallableDescend(o, top, dirs[1..], inner, followlinks, depth);
    }
  }

  /** Passing by keyword, when the first subdirectory cannot be listed, the callback receives that error
      right after the triple of `top` (top-down) and the walk does not raise the TypeError. */
  lemma KeywordReportsNestedFailure(o: Oracle, top: string, followlinks: bool, limit: nat)
    requires o.listdir(top).Listed?
    requires var dirs := Node(o, top, o.listdir(top).names).dirnames;
             |dirs| > 0 && (followlinks || !o.islink(Paths.Join(top, dirs[0]))) &&
             o.listdir(Paths.Join(top, dirs[0])).Failed?
    requires limit > 0
    ensures var dirs := Node(o, top, o.listdir(top).names).dirnames;
            var t := WalkTrace(o, top, Slots(BoolArg(true), HandlerArg, BoolArg(followlinks)), ByKeyword, limit);
            |t.events| >= 2 && t.events[0] == Node(o, top, o.listdir(top).names) &&
            t.events[1] == Report(o.listdir(Paths.Join(top, dirs[0])).err) &&
            t.outcome != NotCallable
  {
    var s := Slots(BoolArg(true), HandlerArg, BoolArg(followlinks));
    var dirs := Node(o, top, o.listdir(top).names).dirnames;
    var path := Paths.Join(top, dirs[0]);
    var first := Child(o, path, s, s.followlinks, ByKeyword, limit);
    assert WalkTrace(o, path, s, ByKeyword, limit - 1) == OnListError(HandlerArg, o.listdir(path).err);
    assert first == Trace([Report(o.listdir(path).err)], Finished);
    var below := Descend(o, top, dirs, s, s.followlinks, ByKeyword, limit);
    assert below.events[0] == Report(o.listdir(path).err);
    KeywordNeverNotCallable(o, top, s, limit);
  }
}
