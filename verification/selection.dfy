/**
 * The note selection and the list cursor of the review screen as values:
 * the selection is a set of note indices (the source's map[int]bool used as a
 * set), the cursor an index into the note list.
 */
module Selection {

  /** Every selected index addresses one of `n` notes. */
  ghost predicate Within(sel: set<int>, n: int)
  {
    forall i :: i in sel ==> 0 <= i < n
  }

  /** The indices 0 .. n-1, i.e. every note of an n-element list. */
  function Upto(n: nat): (r: set<int>)
    ensures forall i :: i in r <==> 0 <= i < n
    ensures |r| == n
  {
    if n == 0 then {} else Upto(n - 1) + {n - 1}
  }

  /** The cursor after a move by `delta` in a non-empty list of `n` notes. */
  function ClampCursor(cursor: int, delta: int, n: int): (r: int)
    requires n > 0
    ensures 0 <= r < n
    ensures 0 <= cursor + delta < n ==> r == cursor + delta
    ensures cursor + delta < 0 ==> r == 0
    ensures cursor + delta >= n ==> r == n - 1
  {
    var next := if cursor + delta < 0 then 0 else cursor + delta;
    if next > n - 1 then n - 1 else next
  }

  /** The selection with the membership of index `i` flipped. */
  function Toggled(sel: set<int>, i: int): (r: set<int>)
    ensures i in r <==> i !in sel
    ensures forall j :: j != i ==> (j in r <==> j in sel)
  {
    if i in sel then sel - {i} else sel + {i}
  }

  /**
   * "Select all" on a list of `n` notes: clear when exactly as many indices
   * are selected as there are notes, otherwise add every index.
   */
  function ToggledAll(sel: set<int>, n: nat): set<int>
  {
    if |sel| == n then {} else sel + Upto(n)
  }

  /** Flipping one index twice restores the selection. */
  lemma ToggledTwice(sel: set<int>, i: int)
    ensures Toggled(Toggled(sel, i), i) == sel
  {
  }

  /** Flipping an index of the list keeps the selection inside the list. */
  lemma ToggledWithin(sel: set<int>, i: int, n: int)
    requires Within(sel, n) && 0 <= i < n
    ensures Within(Toggled(sel, i), n)
  {
  }

  /** A selection inside the list that is as large as the list is the whole list. */
  lemma FullSelectionIsAll(sel: set<int>, n: nat)
    requires Within(sel, n) && |sel| == n
    ensures sel == Upto(n)
  {
    var missing := Upto(n) - sel;
    assert sel + missing == Upto(n);
    assert sel * missing == {};
    assert |missing| == 0;
  }

  /** From a partial selection, "select all" selects exactly every note. */
  lemma ToggleAllFromPartial(sel: set<int>, n: nat)
    requires Within(sel, n) && |sel| != n
    ensures ToggledAll(sel, n) == Upto(n)
    ensures |ToggledAll(sel, n)| == n
  {
  }

  /** From a full selection, "select all" clears it. */
  lemma ToggleAllFromFull(sel: set<int>, n: nat)
    requires Within(sel, n) && |sel| == n
    ensures sel == Upto(n) && ToggledAll(sel, n) == {}
  {
    FullSelectionIsAll(sel, n);
  }

  /** "Select all" keeps the selection inside the list. */
  lemma ToggledAllWithin(sel: set<int>, n: nat)
    requires Within(sel, n)
    ensures Within(ToggledAll(sel, n), n)
  {
  }

  /**
   * Pressed twice on a non-empty partial selection, "select all" goes
   * partial -> all -> none: it does not restore the selection.
   */
  lemma ToggleAllTwiceClearsPartial(sel: set<int>, n: nat)
    requires Within(sel, n) && |sel| != n
    ensures ToggledAll(ToggledAll(sel, n), n) == {}
    ensures sel != {} ==> ToggledAll(ToggledAll(sel, n), n) != sel
  {
    ToggleAllFromPartial(sel, n);
  }

  /** A concrete case: with two notes and note 0 selected, two presses leave nothing selected. */
  lemma ToggleAllIsNotAnInvolution()
    ensures ToggledAll(ToggledAll({0}, 2), 2) != {0}
  {
    assert |{0}| == 1;
    ToggleAllTwiceClearsPartial({0}, 2);
  }
}
