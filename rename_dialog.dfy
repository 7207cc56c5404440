/**
 * The rename dialog (`src/components/RenameDialog.tsx`): the name being
 * typed, the overwrite flag and warning, the effects that reset them, and the
 * rule deciding whether a submit confirms or closes.
 */
module RenameDialog {
  import opened Text

  /** What a submit asks of the parent: `onConfirm(name, overwrite)` or `onClose()`. */
  datatype SubmitAction = Confirm(name: string, overwrite: bool) | Close

  /** `handleSubmit`'s decision. */
  function Submit(newName: string, fileName: string, overwrite: bool): (r: SubmitAction)
    ensures r.Confirm? <==> Trim(newName) != [] && newName != fileName
    ensures r.Confirm? ==> r.name == Trim(newName) && r.overwrite == overwrite && r.name != []
  {
    if Trim(newName) != [] && newName != fileName then Confirm(Trim(newName), overwrite) else Close
  }

  /** The confirm button's `disabled` condition. */
  predicate ConfirmDisabled(newName: string, fileName: string) {
    Trim(newName) == [] || newName == fileName
  }

  /** The button is disabled exactly when a submit (e.g. by Enter) would close. */
  lemma DisabledIffSubmitCloses(newName: string, fileName: string, overwrite: bool)
    ensures ConfirmDisabled(newName, fileName) <==> Submit(newName, fileName, overwrite) == Close
  {
  }

  /** The comparison uses the untrimmed name: `"a "` for the file `a` confirms the name `a`. */
  lemma TrailingSpaceConfirmsSameName()
    ensures Submit("a ", "a", false) == Confirm("a", false)
  {
    var typed := "a ";
    assert LeadingSpace(typed) == 0;
    assert TrailingSpace(typed[0..]) == 1 by {
      assert typed[0..] == typed;
      assert TrailingSpace(typed[..1]) == 0;
    }
    assert Trim(typed) == "a";
  }

  class RenameDialogState {
    // props of the latest render
    var isOpen: bool
    var fileName: string
    var targetExists: bool
    // component state
    var newName: string
    var showOverwriteWarning: bool
    var overwrite: bool

    /** The first render: initial state, then both effects run once. */
    constructor(isOpen: bool, fileName: string, targetExists: bool)
      ensures this.isOpen == isOpen && this.fileName == fileName && this.targetExists == targetExists
      ensures newName == fileName && !overwrite && showOverwriteWarning == targetExists
    {
      this.isOpen, this.fileName, this.targetExists := isOpen, fileName, targetExists;
      newName, showOverwriteWarning, overwrite := fileName, false, false;
      showOverwriteWarning := targetExists;
    }

    /**
     * A render with new props: the reset effect runs if `isOpen` or
     * `fileName` changed and resets when open; then the warning effect runs
     * if `targetExists` changed.
     */
    method Rerender(isOpen': bool, fileName': string, targetExists': bool)
      modifies this
      ensures isOpen == isOpen' && fileName == fileName' && targetExists == targetExists'
      ensures var reset := isOpen' && (isOpen' != old(isOpen) || fileName' != old(fileName));
        && newName == (if reset then fileName' else old(newName))
        && overwrite == (if reset then false else old(overwrite))
        && showOverwriteWarning ==
             (if targetExists' != old(targetExists) then targetExists'
              else if reset then false else old(showOverwriteWarning))
    {
      if isOpen' != isOpen || fileName' != fileName {
        if isOpen' {
          newName := fileName';
          showOverwriteWarning := false;
          overwrite := false;
        }
      }
      if targetExists' != targetExists {
        showOverwriteWarning := targetExists';
      }
      isOpen, fileName, targetExists := isOpen', fileName', targetExists';
    }

    /** Typing in the name field. */
    method EditName(typed: string)
      modifies this`newName
      ensures newName == typed
    {
      newName := typed;
    }

    /** Ticking the overwrite box. */
    method SetOverwrite(checked: bool)
      modifies this`overwrite
      ensures overwrite == checked
    {
      overwrite := checked;
    }

    /** `handleSubmit` on the current state. */
    method HandleSubmit() returns (r: SubmitAction)
      ensures r.Confirm? <==> !ConfirmDisabled(newName, fileName)
      ensures r.Confirm? ==> r.name == Trim(newName) && r.overwrite == overwrite
    {
      r := Submit(newName, fileName, overwrite);
    }
  }

  /**
   * Closing and reopening the dialog while the target still exists hides the
   * warning: the reset clears it and the warning effect does not run, as
   * `targetExists` did not change.
   */
  method ReopenWithTargetStillPresent() returns (d: RenameDialogState)
    ensures d.isOpen && d.targetExists && !d.showOverwriteWarning
  {
    d := new RenameDialogState(true, "a.txt", true);
    d.Rerender(false, "a.txt", true);
    d.Rerender(true, "a.txt", true);
  }
}
