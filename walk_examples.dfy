/** Small remote trees on which the walk is worked out in full. */
module WalkExamples {
  import opened RemoteHost
  import opened Walk

  /** `/root` holds the directory `a` (holding `b.txt`) and the file `c.txt`. */
  function SmallTree(): Oracle {
    Oracle(p => if p == "/root" then Listed(["a", "c.txt"])
                else if p == "/root/a" then Listed(["b.txt"])
                else Failed(ListError(p, 2)),
           p => p == "/root/a",
           p => false)
  }

  /** Top-down, the root's triple comes first; bottom-up, the child's triple comes first. */
  lemma SmallTreeWalks()
    ensures ClientWalk(SmallTree(), "/root", true, false, false, 100)
            == Trace([Yield("/root", ["a"], ["c.txt"]), Yield("/root/a", [], ["b.txt"])], Finished)
    ensures ClientWalk(SmallTree(), "/root", false, false, false, 100)
            == Trace([Yield("/root/a", [], ["b.txt"]), Yield("/root", ["a"], ["c.txt"])], Finished)
  {
    var o := SmallTree();
    assert Select(o, "/root", ["a", "c.txt"], true) == ["a"];
    assert Select(o, "/root", ["a", "c.txt"], false) == ["c.txt"];
    assert Select(o, "/root/a", ["b.txt"], true) == [];
    assert Select(o, "/root/a", ["b.txt"], false) == ["b.txt"];
    var leaf := Yield("/root/a", [], ["b.txt"]);
    var inner := Slots(NoneArg, BoolArg(false), BoolArg(false));
    assert WalkTrace(o, "/root/a", inner, Positional, 99) == Trace([leaf], Finished);
    assert Child(o, "/root/a", inner, BoolArg(false), Positional, 100) == Trace([leaf], Finished);
    assert Descend(o, "/root", ["a"], inner, BoolArg(false), Positional, 100) == Trace([leaf], Finished);
  }

  /** The chain `/r/a/b` of empty directories. */
  function Chain(): Oracle {
    Oracle(p => if p == "/r" then Listed(["a"])
                else if p == "/r/a" then Listed(["b"])
                else if p == "/r/a/b" then Listed([])
                else Failed(ListError(p, 2)),
           p => p == "/r/a" || p == "/r/a/b",
           p => false)
  }

  /** As written, `walk('/r')` is top-down only at the first level: with `onerror=None` in the `topdown`
      slot, `/r/a` yields after its child `/r/a/b`. */
  lemma ChainOrderAsWritten()
    ensures ClientWalk(Chain(), "/r", true, false, false, 100)
            == Trace([Yield("/r", ["a"], []), Yield("/r/a/b", [], []), Yield("/r/a", ["b"], [])], Finished)
  {
    var o := Chain();
    ChainSorted();
    var a, b := Yield("/r/a", ["b"], []), Yield("/r/a/b", [], []);
    // Level 1 runs with (None, False, False), level 2 with (False, False, False).
    var s1 := Slots(NoneArg, BoolArg(false), BoolArg(false));
    var s2 := Slots(BoolArg(false), BoolArg(false), BoolArg(false));
    assert WalkTrace(o, "/r/a/b", s2, Positional, 98) == Trace([b], Finished);
    assert Child(o, "/r/a/b", s2, BoolArg(false), Positional, 99) == Trace([b], Finished);
    assert Descend(o, "/r/a", ["b"], s2, BoolArg(false), Positional, 99) == Trace([b], Finished);
    assert WalkTrace(o, "/r/a", s1, Positional, 99) == Trace([b, a], Finished);
    assert Child(o, "/r/a", s1, BoolArg(false), Positional, 100) == Trace([b, a], Finished);
    assert Descend(o, "/r", ["a"], s1, BoolArg(false), Positional, 100) == Trace([b, a], Finished);
  }

  /** Passing by keyword gives the pre-order `/r`, `/r/a`, `/r/a/b`. */
  lemma ChainOrderByKeyword()
    ensures WalkTrace(Chain(), "/r", Slots(BoolArg(true), NoneArg, BoolArg(false)), ByKeyword, 100)
            == Trace([Yield("/r", ["a"], []), Yield("/r/a", ["b"], []), Yield("/r/a/b", [], [])], Finished)
  {
    var o := Chain();
    ChainSorted();
    var a, b := Yield("/r/a", ["b"], []), Yield("/r/a/b", [], []);
    var k := Slots(BoolArg(true), NoneArg, BoolArg(false));
    assert WalkTrace(o, "/r/a/b", k, ByKeyword, 98) == Trace([b], Finished);
    assert Child(o, "/r/a/b", k, BoolArg(false), ByKeyword, 99) == Trace([b], Finished);
    assert Descend(o, "/r/a", ["b"], k, BoolArg(false), ByKeyword, 99) == Trace([b], Finished);
    assert WalkTrace(o, "/r/a", k, ByKeyword, 99) == Trace([a, b], Finished);
    assert Child(o, "/r/a", k, BoolArg(false), ByKeyword, 100) == Trace([a, b], Finished);
    assert Descend(o, "/r", ["a"], k, BoolArg(false), ByKeyword, 100) == Trace([a, b], Finished);
  }

  lemma ChainSorted()
    ensures Node(Chain(), "/r", ["a"]) == Yield("/r", ["a"], [])
    ensures Node(Chain(), "/r/a", ["b"]) == Yield("/r/a", ["b"], [])
    ensures Node(Chain(), "/r/a/b", []) == Yield("/r/a/b", [], [])
  {
    var o := Chain();
    assert Select(o, "/r", ["a"], true) == ["a"];
    assert Select(o, "/r", ["a"], false) == [];
    assert Select(o, "/r/a", ["b"], true) == ["b"];
    assert Select(o, "/r/a", ["b"], false) == [];
  }

  /** `/r` holds the directory `a`, whose listing is refused (EACCES). */
  function Unreadable(): Oracle {
    Oracle(p => if p == "/r" then Listed(["a"]) else Failed(ListError(p, 13)),
           p => p == "/r/a",
           p => false)
  }

  /** As written, `walk('/r', onerror=callback)` yields the triple of `/r` and then raises the TypeError
      of calling `False` (the `followlinks` value that landed in the `onerror` slot); the callback is never
      called. Passing by keyword, the callback receives the error and the walk finishes. */
  lemma UnreadableChild()
    ensures ClientWalk(Unreadable(), "/r", true, true, false, 100)
            == Trace([Yield("/r", ["a"], [])], NotCallable)
    ensures ClientWalk(Unreadable(), "/r", true, false, false, 100)
            == Trace([Yield("/r", ["a"], [])], NotCallable)
    ensures WalkTrace(Unreadable(), "/r", Slots(BoolArg(true), HandlerArg, BoolArg(false)), ByKeyword, 100)
            == Trace([Yield("/r", ["a"], []), Report(ListError("/r/a", 13))], Finished)
  {
    var o := Unreadable();
    assert Select(o, "/r", ["a"], true) == ["a"];
    assert Select(o, "/r", ["a"], false) == [];
  }
}
