/** The committed list of draw objects and the undo stack that `redo` draws
    from. Both are stacks whose top is their last element. */
module UndoHistory {

  datatype History<T> = History(lines: seq<T>, undoStack: seq<T>)
  {
    /** Everything the two lists hold. */
    ghost function Items(): multiset<T>
    {
      multiset(lines) + multiset(undoStack)
    }

    /** Mouse-down: a new object goes on the end of `lines`. The undo stack is
        kept as it is. */
    function Push(d: T): (h: History<T>)
      ensures h.Items() == Items() + multiset{d}
      ensures |h.lines| == |lines| + 1 && h.lines[..|lines|] == lines && h.lines[|lines|] == d
      ensures h.undoStack == undoStack
    {
      assert (lines + [d])[..|lines|] == lines;
      History(lines + [d], undoStack)
    }

    /** Moves the newest committed object onto the undo stack; with nothing
        committed, changes nothing. Nothing is lost or made up. */
    function Undo(): (h: History<T>)
      ensures h.Items() == Items()
      ensures lines == [] ==> h == this
    {
      if lines == [] then this
      else
        assert lines[..|lines| - 1] + [lines[|lines| - 1]] == lines;
        History(lines[..|lines| - 1], undoStack + [lines[|lines| - 1]])
    }

    /** Moves the top of the undo stack back onto the end of `lines`; with an
        empty undo stack, changes nothing. */
    function Redo(): (h: History<T>)
      ensures h.Items() == Items()
      ensures undoStack == [] ==> h == this
    {
      if undoStack == [] then this
      else
        assert undoStack[..|undoStack| - 1] + [undoStack[|undoStack| - 1]] == undoStack;
        History(lines + [undoStack[|undoStack| - 1]], undoStack[..|undoStack| - 1])
    }

    /** Empties both lists, so nothing can be undone or redone afterwards. */
    function Clear(): (h: History<T>)
      ensures h.Items() == multiset{}
      ensures h.Undo() == h && h.Redo() == h
    {
      History([], [])
    }

    /** `n` undos in a row. */
    function UndoTimes(n: nat): History<T>
      decreases n
    {
      if n == 0 then this else Undo().UndoTimes(n - 1)
    }

    /** `n` redos in a row. */
    function RedoTimes(n: nat): History<T>
      decreases n
    {
      if n == 0 then this else Redo().RedoTimes(n - 1)
    }
  }

  function Reversed<T>(s: seq<T>): (r: seq<T>)
    ensures |r| == |s|
    decreases |s|
  {
    if s == [] then [] else [s[|s| - 1]] + Reversed(s[..|s| - 1])
  }

  /** Reversing a list with one more element at the front puts that element last. */
  lemma {:induction false} ReversedCons<T>(x: T, a: seq<T>)
    ensures Reversed([x] + a) == Reversed(a) + [x]
    decreases |a|
  {
    if a == [] {
      assert [x] + a == [x];
    } else {
      var b := ([x] + a)[..|a|];
      assert b == [x] + a[..|a| - 1];
      ReversedCons(x, a[..|a| - 1]);
    }
  }

  /** Reversing twice gives the list back. */
  lemma {:induction false} ReversedTwice<T>(s: seq<T>)
    ensures Reversed(Reversed(s)) == s
    decreases |s|
  {
    if s != [] {
      var init := s[..|s| - 1];
      ReversedTwice(init);
      ReversedCons(s[|s| - 1], Reversed(init));
      assert init + [s[|s| - 1]] == s;
    }
  }

  /** Undo on a non-empty `lines` moves exactly its last object to the top of
      the undo stack; the other objects stay where they were. */
  lemma UndoMovesLast<T>(h: History<T>)
    requires h.lines != []
    ensures h.Undo().lines + [h.lines[|h.lines| - 1]] == h.lines
    ensures h.Undo().undoStack == h.undoStack + [h.lines[|h.lines| - 1]]
  {
    assert h.lines[..|h.lines| - 1] + [h.lines[|h.lines| - 1]] == h.lines;
  }

  /** Redo on a non-empty undo stack moves exactly its top object back to the
      end of `lines`; the other objects stay where they were. */
  lemma RedoMovesTop<T>(h: History<T>)
    requires h.undoStack != []
    ensures h.Redo().lines == h.lines + [h.undoStack[|h.undoStack| - 1]]
    ensures h.Redo().undoStack + [h.undoStack[|h.undoStack| - 1]] == h.undoStack
  {
    assert h.undoStack[..|h.undoStack| - 1] + [h.undoStack[|h.undoStack| - 1]] == h.undoStack;
  }

  /** Undo and redo keep the number of objects the two lists hold together. */
  lemma UndoRedoKeepCount<T>(h: History<T>)
    ensures |h.Undo().lines| + |h.Undo().undoStack| == |h.lines| + |h.undoStack|
    ensures |h.Redo().lines| + |h.Redo().undoStack| == |h.lines| + |h.undoStack|
  {
  }

  /** Undo followed by redo gives back both lists exactly. */
  lemma UndoThenRedo<T>(h: History<T>)
    requires h.lines != []
    ensures h.Undo().Redo() == h
  {
  }

  /** Redo followed by undo gives back both lists exactly. */
  lemma RedoThenUndo<T>(h: History<T>)
    requires h.undoStack != []
    ensures h.Redo().Undo() == h
  {
  }

  /** Undoing as many times as `b` is long moves all of `b` onto the undo
      stack, last object first. */
  lemma {:induction false} UndoSuffix<T>(a: seq<T>, b: seq<T>, u: seq<T>)
    ensures History(a + b, u).UndoTimes(|b|) == History(a, u + Reversed(b))
    decreases |b|
  {
    if b == [] {
      assert a + b == a;
      assert u + Reversed(b) == u;
    } else {
      var x := b[|b| - 1];
      var init := b[..|b| - 1];
      assert (a + b)[..|a + b| - 1] == a + init;
      assert History(a + b, u).Undo() == History(a + init, u + [x]);
      UndoSuffix(a, init, u + [x]);
      assert (u + [x]) + Reversed(init) == u + ([x] + Reversed(init));
    }
  }

  /** Redoing as many times as `b` is long brings all of `b` back from the top
      of the undo stack, top first. */
  lemma {:induction false} RedoSuffix<T>(l: seq<T>, a: seq<T>, b: seq<T>)
    ensures History(l, a + b).RedoTimes(|b|) == History(l + Reversed(b), a)
    decreases |b|
  {
    if b == [] {
      assert a + b == a;
      assert l + Reversed(b) == l;
    } else {
      var x := b[|b| - 1];
      var init := b[..|b| - 1];
      assert (a + b)[..|a + b| - 1] == a + init;
      assert History(l, a + b).Redo() == History(l + [x], a + init);
      RedoSuffix(l + [x], a, init);
      assert (l + [x]) + Reversed(init) == l + ([x] + Reversed(init));
    }
  }

  /** `n` undos leave the first |lines| - n objects committed and push the last
      n onto the undo stack newest first, so the one to come back first is the
      one removed last. */
  lemma UndoTimesShape<T>(h: History<T>, n: nat)
    requires n <= |h.lines|
    ensures h.UndoTimes(n).lines == h.lines[..|h.lines| - n]
    ensures h.UndoTimes(n).undoStack == h.undoStack + Reversed(h.lines[|h.lines| - n..])
  {
    var k := |h.lines| - n;
    assert h.lines[..k] + h.lines[k..] == h.lines;
    UndoSuffix(h.lines[..k], h.lines[k..], h.undoStack);
  }

  /** `n` redos take the top n objects of the undo stack, top first, and put
      them back on the end of `lines`. */
  lemma RedoTimesShape<T>(h: History<T>, n: nat)
    requires n <= |h.undoStack|
    ensures h.RedoTimes(n).lines == h.lines + Reversed(h.undoStack[|h.undoStack| - n..])
    ensures h.RedoTimes(n).undoStack == h.undoStack[..|h.undoStack| - n]
  {
    var k := |h.undoStack| - n;
    assert h.undoStack[..k] + h.undoStack[k..] == h.undoStack;
    RedoSuffix(h.lines, h.undoStack[..k], h.undoStack[k..]);
  }

  /** As many redos as there were undos restore both lists exactly. */
  lemma UndoTimesThenRedoTimes<T>(h: History<T>, n: nat)
    requires n <= |h.lines|
    ensures h.UndoTimes(n).RedoTimes(n) == h
  {
    var k := |h.lines| - n;
    var moved := Reversed(h.lines[k..]);
    assert h.lines[..k] + h.lines[k..] == h.lines;
    UndoSuffix(h.lines[..k], h.lines[k..], h.undoStack);
    RedoSuffix(h.lines[..k], h.undoStack, moved);
    ReversedTwice(h.lines[k..]);
  }

  /** A new commit does not empty the undo stack: after undo, a new commit and
      redo, the undone object comes back on top of the new one. */
  lemma RedoAfterPush<T>(h: History<T>, d: T)
    requires h.undoStack != []
    ensures h.Push(d).Redo().lines == h.lines + [d, h.undoStack[|h.undoStack| - 1]]
    ensures h.Push(d).Redo().undoStack == h.undoStack[..|h.undoStack| - 1]
  {
  }
}
