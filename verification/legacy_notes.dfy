/**
 * The note-list handling that the two earlier monolithic versions
 * (internal/ui/model.go and ui/model.go) share, written out on the session
 * value. They move the cursor with guarded steps instead of a clamp, and
 * toggle the note under the cursor without checking that the list has one.
 */
module LegacyNotes {
  import opened UiTypes
  import opened Selection
  import opened Shared

  /**
   * What the monolithic versions keep: as Inv, except that on an empty list
   * index 0 may be selected (" " toggles it without a guard).
   */
  ghost predicate LegacyInv(s: Session)
  {
    && Within(s.selected, if s.notes == [] then 1 else |s.notes|)
    && (if s.notes == [] then s.cursor == 0 else 0 <= s.cursor < |s.notes|)
    && Indexed(s.notes)
    && 0 <= s.deckCursor <= |s.deckList|
  }

  /** The invariant of the current version is the stronger one. */
  lemma InvIsLegacyInv(s: Session)
    requires Inv(s)
    ensures LegacyInv(s)
  {
  }

  /** "up"/"k": one step up unless on the first note. */
  function LegacyUp(s: Session): Session
  {
    if s.cursor > 0 then s.(cursor := s.cursor - 1) else s
  }

  /** "down"/"j": one step down unless on the last note. */
  function LegacyDown(s: Session): Session
  {
    if s.cursor < |s.notes| - 1 then s.(cursor := s.cursor + 1) else s
  }

  /** " ": flip the index under the cursor, whether or not a note is there. */
  function LegacyToggle(s: Session): Session
  {
    s.(selected := Toggled(s.selected, s.cursor))
  }

  /** "s": clear when as many indices are selected as there are notes, otherwise add every index. */
  function LegacyToggleAll(s: Session): Session
  {
    s.(selected := ToggledAll(s.selected, |s.notes|))
  }

  /** The guarded steps move the cursor exactly as the clamped MoveNotesCursor does. */
  lemma LegacyMovesAreClamped(s: Session)
    requires LegacyInv(s)
    ensures LegacyUp(s) == AfterMove(s, -1)
    ensures LegacyDown(s) == AfterMove(s, 1)
  {
  }

  /** On a non-empty list the unguarded toggle is ToggleCurrentNote. */
  lemma LegacyToggleOnNotes(s: Session)
    requires LegacyInv(s) && s.notes != []
    ensures LegacyToggle(s) == AfterToggle(s)
  {
  }

  /** "s" behaves as ToggleAllNotes, the empty list included. */
  lemma LegacyToggleAllAgrees(s: Session)
    requires LegacyInv(s)
    ensures LegacyToggleAll(s) == AfterToggleAll(s)
  {
    if s.notes == [] && s.selected != {} {
      assert s.selected + Upto(0) == s.selected;
    }
  }

  /**
   * On an empty list the unguarded toggle selects index 0, which names no
   * note: the selection leaves the range the current version keeps.
   */
  lemma LegacyToggleOnEmpty(s: Session)
    requires s.notes == [] && s.selected == {} && s.cursor == 0
    ensures LegacyToggle(s).selected == {0}
    ensures !Within(LegacyToggle(s).selected, |LegacyToggle(s).notes|)
    ensures !Inv(LegacyToggle(s)) && AfterToggle(s) == s
  {
    assert 0 in LegacyToggle(s).selected;
  }

  /** Every note-list step of the monolithic versions keeps LegacyInv. */
  lemma LegacyStepsKeepInv(s: Session)
    requires LegacyInv(s)
    ensures LegacyInv(LegacyUp(s)) && LegacyInv(LegacyDown(s))
    ensures LegacyInv(LegacyToggle(s)) && LegacyInv(LegacyToggleAll(s))
  {
    var n := if s.notes == [] then 1 else |s.notes|;
    ToggledWithin(s.selected, s.cursor, n);
    LegacyToggleAllAgrees(s);
    if s.notes != [] {
      ToggledAllWithin(s.selected, |s.notes|);
    }
  }

  /** A result message keeps LegacyInv in the monolithic versions too. */
  lemma LegacyAsyncKeepsInv(s: Session, msg: Msg)
    requires LegacyInv(s) && IsAsync(msg)
    ensures LegacyInv(AfterAsync(s, msg))
  {
    if msg.Generated? {
      HelpersKeepInv(s.(loading := false, status := "generated", selected := {}, cursor := 0, notes := []), msg.raws, 0);
    }
  }
}
