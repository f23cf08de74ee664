/**
 * One row of the bulk modal (src/components/ImageRow.tsx and its two
 * compiled copies): what it shows for a suggestion, and the small state it
 * keeps itself — whether a save it started is in flight (`isSaving`) and,
 * in the blur-commit form, the text the box held when it was focused
 * (`originalValueRef`).
 */
module ImageRow {
  import opened Common
  import opened Suggestions

  /** `suggestion?.status || 'pending'` */
  function RowStatus(s: Option<Suggestion>): Status
  {
    if s.Some? then s.value.status else Pending
  }

  /** The row's middle column. */
  datatype Body = Spinner | ErrorNotice(text: string) | TextBox(value: string, disabled: bool) | Hint

  /** The status-specific element of the row's right column (the status dot is always there). */
  datatype Control = GenerateButton | LoadingLabel | RetryButton | SaveButton(disabled: bool, saving: bool) | SavedLabel

  /** The middle column: spinner, error text, the editable text, or the "Click Generate" hint. */
  function RowBody(s: Option<Suggestion>, isSaving: bool): (b: Body)
    ensures b.Spinner? <==> RowStatus(s) == Generating
    ensures b.ErrorNotice? <==> RowStatus(s) == Error
    ensures b.TextBox? <==> RowStatus(s) == Ready || RowStatus(s) == Saved
    ensures b.TextBox? ==> b.value == s.value.suggestedAlt && b.disabled == isSaving
    ensures b.ErrorNotice? && s.value.error.Some? && s.value.error.value != "" ==> b.text == s.value.error.value
  {
    match RowStatus(s)
    case Generating => Spinner
    case Error => ErrorNotice(if s.value.error.Some? && s.value.error.value != "" then s.value.error.value else "Failed to generate alt text")
    case Ready => TextBox(s.value.suggestedAlt, isSaving)
    case Saved => TextBox(s.value.suggestedAlt, isSaving)
    case Pending => Hint
  }

  /**
   * The right column's controls; `saveButton` selects the form with a
   * per-row Save button (dist/components/index.js).
   */
  function RowControls(s: Option<Suggestion>, isSaving: bool, saveButton: bool): seq<Control>
  {
    match RowStatus(s)
    case Pending => [GenerateButton]
    case Generating => [LoadingLabel]
    case Error => [RetryButton]
    case Ready => if saveButton then [SaveButton(isSaving, isSaving)] else []
    case Saved => [SavedLabel]
  }

  /**
   * A row offers Generate or Retry exactly when it shows neither text nor a
   * spinner: a generation can be started only for a row that has none
   * running and no text to lose.
   */
  lemma GenerateOnlyWithoutText(s: Option<Suggestion>, isSaving: bool, saveButton: bool)
    ensures GenerateButton in RowControls(s, isSaving, saveButton) || RetryButton in RowControls(s, isSaving, saveButton)
        <==> !RowBody(s, isSaving).TextBox? && !RowBody(s, isSaving).Spinner?
    ensures GenerateButton in RowControls(s, isSaving, saveButton) <==> RowBody(s, isSaving) == Hint
  {
  }

  /** The Save button appears only beside a text box, and both are disabled together while a save runs. */
  lemma SaveButtonBesideTextBox(s: Option<Suggestion>, isSaving: bool, control: Control)
    requires control in RowControls(s, isSaving, true) && control.SaveButton?
    ensures RowBody(s, isSaving) == TextBox(s.value.suggestedAlt, isSaving)
    ensures control.disabled == RowBody(s, isSaving).disabled && RowStatus(s) == Ready
  {
  }

  /** The blur-commit row's own state. */
  datatype Saving = Saving(originalValue: string, isSaving: bool)

  /**
   * What follows `await onSave(newValue)` in the blur handler, as written:
   * `setIsSaving(false)` and the new original value are reached only when
   * the save resolved; a rejected save skips both.
   */
  function SettleAsWritten(st: Saving, newValue: string, rejected: bool): (r: Saving)
    ensures !rejected ==> r == Saving(newValue, false)
    ensures rejected ==> r == st
  {
    if rejected then st else Saving(newValue, false)
  }

  /**
   * The same step with the flag cleared in a `finally`: the row leaves the
   * saving state however the save ends, and takes the new text as its
   * original only when the save went through.
   */
  function Settle(st: Saving, newValue: string, rejected: bool): (r: Saving)
    ensures !r.isSaving
    ensures r.originalValue == if rejected then st.originalValue else newValue
  {
    Saving(if rejected then st.originalValue else newValue, false)
  }

  /**
   * As written, a save that rejects (save-alt unreachable) leaves the text
   * box disabled for good: blurring a ready row after changing "old" to
   * "new" starts a save, and once it rejects the box still shows disabled.
   */
  lemma RejectedSaveLocksRow()
    ensures var s := Suggestion("1", "a.png", None, "new", Ready, None);
      var blurred := Saving("old", true);
      var after := SettleAsWritten(blurred, "new", true);
      after.isSaving && RowBody(Some(s), after.isSaving) == TextBox("new", true)
  {
  }

  /** With the flag cleared in a `finally`, a ready or saved row is editable again once its save settles, either way. */
  lemma SettledRowIsEditable(st: Saving, newValue: string, rejected: bool, s: Suggestion)
    requires s.status == Ready || s.status == Saved
    ensures RowBody(Some(s), Settle(st, newValue, rejected).isSaving) == TextBox(s.suggestedAlt, false)
  {
  }

  /** The blur-commit row (src/components/ImageRow.tsx, dist/components/index.mjs). */
  class BlurCommitRow {
    /** `originalValueRef.current` */
    var originalValue: string
    var isSaving: bool

    /** `useRef(suggestion?.suggestedAlt || '')`, `useState(false)` */
    constructor(suggestion: Option<Suggestion>)
      ensures originalValue == (if suggestion.Some? then suggestion.value.suggestedAlt else "")
      ensures !isSaving
    {
      originalValue := if suggestion.Some? then suggestion.value.suggestedAlt else "";
      isSaving := false;
    }

    /** Focusing the text box remembers the text it holds. */
    method Focus(suggestion: Suggestion)
      modifies this`originalValue
      ensures originalValue == suggestion.suggestedAlt
    {
      originalValue := suggestion.suggestedAlt;
    }

    /**
     * Leaving the text box: a changed text is saved (the returned value is
     * what `onSave` receives) and the box is disabled meanwhile; unchanged
     * text saves nothing.
     */
    method Blur(newValue: string) returns (save: Option<string>)
      modifies this`isSaving
      ensures save.Some? <==> newValue != originalValue
      ensures save.Some? ==> save.value == newValue && isSaving
      ensures save.None? ==> isSaving == old(isSaving)
    {
      if newValue != originalValue {
        isSaving := true;
        return Some(newValue);
      }
      return None;
    }

    /**
     * The save started by `Blur` settled, as written: only a resolved save
     * clears the flag and takes the new text; a rejected one (`onSave`
     * threw) leaves the row as it was, still saving.
     */
    method SaveSettledAsWritten(newValue: string, rejected: bool)
      modifies this
      ensures Saving(originalValue, isSaving) == SettleAsWritten(old(Saving(originalValue, isSaving)), newValue, rejected)
      ensures rejected ==> isSaving == old(isSaving) && originalValue == old(originalValue)
    {
      if !rejected {
        originalValue, isSaving := newValue, false;
      }
    }

    /** The save started by `Blur` settled, with the flag cleared in a `finally` (`rejected` when `onSave` threw). */
    method SaveSettled(newValue: string, rejected: bool)
      modifies this
      ensures Saving(originalValue, isSaving) == Settle(old(Saving(originalValue, isSaving)), newValue, rejected)
    {
      var next := Settle(Saving(originalValue, isSaving), newValue, rejected);
      originalValue, isSaving := next.originalValue, next.isSaving;
    }
  }

  /** The row with a Save button and no save on blur (dist/components/index.js). */
  class SaveButtonRow {
    var isSaving: bool

    constructor()
      ensures !isSaving
    {
      isSaving := false;
    }

    /** `handleSave`: nothing without text; otherwise the row's text is saved and the button disabled meanwhile. */
    method HandleSave(suggestion: Option<Suggestion>) returns (save: Option<string>)
      modifies this
      ensures save.Some? <==> suggestion.Some? && suggestion.value.suggestedAlt != ""
      ensures save.Some? ==> save.value == suggestion.value.suggestedAlt && isSaving
      ensures save.None? ==> isSaving == old(isSaving)
    {
      if suggestion.None? || suggestion.value.suggestedAlt == "" {
        return None;
      }
      isSaving := true;
      return Some(suggestion.value.suggestedAlt);
    }

    /** The save settled, as written: `setIsSaving(false)` is reached only when `onSave` resolved. */
    method SaveSettledAsWritten(rejected: bool)
      modifies this
      ensures isSaving == SettleAsWritten(Saving("", old(isSaving)), "", rejected).isSaving
      ensures rejected ==> isSaving == old(isSaving)
      ensures !rejected ==> !isSaving
    {
      if !rejected {
        isSaving := false;
      }
    }

    /** The save settled, with the flag cleared in a `finally`: cleared either way, as `Settle` does. */
    method SaveSettled(rejected: bool)
      modifies this
      ensures !isSaving
    {
      isSaving := Settle(Saving("", isSaving), "", rejected).isSaving;
    }
  }
}
