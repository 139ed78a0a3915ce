/**
 * The site's drop-down select: a trigger that opens and closes a list of
 * options, a highlighted option moved by the arrow keys and the mouse, Enter
 * to choose the highlighted option, Escape to close.
 *
 * The select is controlled: choosing an option calls the parent's `onChange`,
 * recorded here as the sequence `chosen`; the parent's value and options reach
 * the select as fields it does not change itself.
 */
module CustomSelect {
  import opened Wrappers

  /** One entry of the list: the value handed to `onChange` and the text shown. */
  datatype SelectOption = SelectOption(value: string, text: string)

  /** The keys the open select reacts to; every other key is `OtherKey`. */
  datatype Key = ArrowDown | ArrowUp | Enter | Escape | OtherKey

  /** What a key press does to the highlight and whether it opens a choice. */
  datatype KeyEffect = KeyEffect(isOpen: bool, highlighted: int, choose: Option<int>)

  /** The highlight is -1 (nothing highlighted) or the index of an option. */
  predicate HighlightInRange(highlighted: int, count: int) {
    -1 <= highlighted < count
  }

  /**
   * One key press on a select with `count` options. A closed select ignores
   * keys. ArrowDown moves down unless on the last option, ArrowUp moves up only
   * from a positive index, Enter chooses the highlighted option and closes (and
   * does nothing without one), Escape closes.
   */
  function KeyStep(k: Key, count: int, isOpen: bool, highlighted: int): (e: KeyEffect)
    ensures !isOpen ==> e == KeyEffect(isOpen, highlighted, None)
    ensures HighlightInRange(highlighted, count) ==> HighlightInRange(e.highlighted, count)
    ensures e.choose.Some? <==> isOpen && k == Enter && highlighted >= 0
    ensures e.choose.Some? ==> e.choose.value == highlighted && !e.isOpen
    ensures e.isOpen != isOpen ==> isOpen && (k == Escape || e.choose.Some?)
  {
    if !isOpen then KeyEffect(isOpen, highlighted, None)
    else
      match k
      case ArrowDown => KeyEffect(isOpen, if highlighted < count - 1 then highlighted + 1 else highlighted, None)
      case ArrowUp => KeyEffect(isOpen, if highlighted > 0 then highlighted - 1 else highlighted, None)
      case Enter => if highlighted >= 0 then KeyEffect(false, highlighted, Some(highlighted)) else KeyEffect(isOpen, highlighted, None)
      case Escape => KeyEffect(false, highlighted, None)
      case OtherKey => KeyEffect(isOpen, highlighted, None)
  }

  /** ArrowUp undoes ArrowDown everywhere except on the last option and at -1. */
  lemma {:induction false} ArrowUpUndoesArrowDown(count: int, highlighted: int)
    requires 0 <= highlighted < count - 1
    ensures KeyStep(ArrowUp, count, true, KeyStep(ArrowDown, count, true, highlighted).highlighted).highlighted == highlighted
  {
  }

  /** From -1 or 0 ArrowUp stays put; on the last option ArrowDown stays put. */
  lemma {:induction false} ArrowsStopAtEnds(count: int, highlighted: int)
    requires count >= 1
    ensures highlighted == -1 || highlighted == 0 ==> KeyStep(ArrowUp, count, true, highlighted).highlighted == highlighted
    ensures KeyStep(ArrowDown, count, true, count - 1).highlighted == count - 1
  {
  }

  /**
   * `selectedOption?.label || placeholder`: the label of the first option
   * whose value is the current value, when there is one and its label is not
   * empty; else the placeholder.
   */
  function DisplayLabel(options: seq<SelectOption>, value: string, placeholder: string): (r: string)
    ensures (forall i :: 0 <= i < |options| ==> options[i].value != value) ==> r == placeholder
    ensures r != placeholder ==> exists i :: 0 <= i < |options| && options[i].value == value && options[i].text == r
    decreases |options|
  {
    if options == [] then placeholder
    else if options[0].value == value then (if options[0].text != "" then options[0].text else placeholder)
    else DisplayLabel(options[1..], value, placeholder)
  }

  /** With one option per value, the label shown is that option's (when non-empty). */
  lemma {:induction false} DisplayLabelOfSelected(options: seq<SelectOption>, value: string, placeholder: string, i: int)
    requires 0 <= i < |options| && options[i].value == value && options[i].text != ""
    requires forall j :: 0 <= j < i ==> options[j].value != value
    ensures DisplayLabel(options, value, placeholder) == options[i].text
    decreases i
  {
    if i > 0 {
      DisplayLabelOfSelected(options[1..], value, placeholder, i - 1);
    }
  }

  /** What pressing Enter does with the highlight `highlighted` over `options`, as the handler is written. */
  datatype EnterOutcome = Ignored | Chose(value: string) | ReadPastEnd

  /**
   * `if (highlightedIndex >= 0) onChange(options[highlightedIndex].value)`:
   * an index past the end reads `undefined` and the property access throws.
   */
  function EnterOutcomeOf(options: seq<SelectOption>, highlighted: int): (r: EnterOutcome)
    ensures r == ReadPastEnd <==> highlighted >= |options|
    ensures r == Ignored <==> highlighted < 0
    ensures r.Chose? ==> r.value == options[highlighted].value
  {
    if highlighted < 0 then Ignored
    else if highlighted < |options| then Chose(options[highlighted].value)
    else ReadPastEnd
  }

  /** A highlight in range never makes Enter read past the end. */
  lemma {:induction false} EnterSafeInRange(options: seq<SelectOption>, highlighted: int)
    requires HighlightInRange(highlighted, |options|)
    ensures EnterOutcomeOf(options, highlighted) != ReadPastEnd
  {
  }

  /**
   * The highlight after the parent passes new options, as written: the state
   * survives the re-render untouched.
   */
  function HighlightAfterNewOptionsAsWritten(highlighted: int, newOptions: seq<SelectOption>): (r: int)
    ensures r == highlighted
  {
    highlighted
  }

  /**
   * As written, a highlight left on option 5 of six survives a switch to two
   * options (the candidate filter's list select after a district change), and
   * Enter then reads past the end of the options.
   */
  lemma {:induction false} StaleHighlightReadsPastEnd()
    ensures var list := SelectOption("l1", "List");
            var before := [SelectOption("", "All Lists"), list, list, list, list, list];
            var after := [SelectOption("", "All Lists"), SelectOption("l9", "List")];
            var h := HighlightAfterNewOptionsAsWritten(5, after);
            HighlightInRange(5, |before|) && !HighlightInRange(h, |after|)
            && EnterOutcomeOf(after, KeyStep(ArrowUp, |after|, true, h).highlighted) == ReadPastEnd
            && EnterOutcomeOf(after, h) == ReadPastEnd
  {
  }

  /** The highlight after new options arrive, corrected: one that no longer names an option is cleared. */
  function HighlightAfterNewOptions(highlighted: int, newOptions: seq<SelectOption>): (r: int)
    ensures HighlightInRange(r, |newOptions|) || r == highlighted
    ensures highlighted >= -1 ==> HighlightInRange(r, |newOptions|)
    ensures HighlightInRange(highlighted, |newOptions|) ==> r == highlighted
  {
    if highlighted < |newOptions| then highlighted else -1
  }

  class Select {
    var options: seq<SelectOption>
    var value: string
    var disabled: bool
    var isOpen: bool
    var highlightedIndex: int
    /** Every value handed to the parent's `onChange`, oldest first. */
    var chosen: seq<string>

    /** The highlight names an option or nothing. */
    ghost predicate Valid()
      reads this
    {
      HighlightInRange(highlightedIndex, |options|)
    }

    /** The dropdown list is rendered iff the select is open and not disabled. */
    predicate DropdownShown()
      reads this
    {
      isOpen && !disabled
    }

    constructor (options: seq<SelectOption>, value: string, disabled: bool)
      ensures Valid()
      ensures this.options == options && this.value == value && this.disabled == disabled
      ensures !isOpen && highlightedIndex == -1 && chosen == []
    {
      this.options := options;
      this.value := value;
      this.disabled := disabled;
      isOpen := false;
      highlightedIndex := -1;
      chosen := [];
    }

    /** A click on the trigger toggles the list, unless the select is disabled. */
    method ClickTrigger()
      modifies this
      ensures isOpen == if old(disabled) then old(isOpen) else !old(isOpen)
      ensures options == old(options) && value == old(value) && disabled == old(disabled)
      ensures highlightedIndex == old(highlightedIndex) && chosen == old(chosen)
    {
      if !disabled {
        isOpen := !isOpen;
      }
    }

    /** A mouse press outside the select closes it. */
    method ClickOutside()
      modifies this
      ensures !isOpen
      ensures options == old(options) && value == old(value) && disabled == old(disabled)
      ensures highlightedIndex == old(highlightedIndex) && chosen == old(chosen)
    {
      isOpen := false;
    }

    /**
     * One key press, as `KeyStep` says; a choice is handed to `onChange`.
     * Enter on a highlight past the end of the options reads `undefined`
     * and the handler throws before anything changes: `thrown` reports it.
     */
    method KeyDown(k: Key) returns (thrown: bool)
      modifies this
      ensures thrown <==> old(isOpen) && k == Enter && EnterOutcomeOf(old(options), old(highlightedIndex)) == ReadPastEnd
      ensures thrown ==> isOpen == old(isOpen) && highlightedIndex == old(highlightedIndex) && chosen == old(chosen)
      ensures !thrown ==> var e := KeyStep(k, |old(options)|, old(isOpen), old(highlightedIndex));
              isOpen == e.isOpen && highlightedIndex == e.highlighted
              && chosen == old(chosen) + (if e.choose.Some? then [old(options)[e.choose.value].value] else [])
      ensures old(Valid()) ==> !thrown && Valid()
      ensures options == old(options) && value == old(value) && disabled == old(disabled)
    {
      var e := KeyStep(k, |options|, isOpen, highlightedIndex);
      if e.choose.Some? {
        if EnterOutcomeOf(options, e.choose.value) == ReadPastEnd {
          return true;
        }
        chosen := chosen + [options[e.choose.value].value];
      }
      isOpen := e.isOpen;
      highlightedIndex := e.highlighted;
      return false;
    }

    /** The mouse entering option `index` highlights it. */
    method Hover(index: int)
      requires 0 <= index < |options|
      modifies this
      ensures Valid()
      ensures highlightedIndex == index
      ensures options == old(options) && value == old(value) && disabled == old(disabled)
      ensures isOpen == old(isOpen) && chosen == old(chosen)
    {
      highlightedIndex := index;
    }

    /** A click on option `index`, rendered only while the list is shown, hands its value to `onChange` and closes the list. */
    method ClickOption(index: int)
      requires DropdownShown() && 0 <= index < |options|
      modifies this
      ensures !isOpen && chosen == old(chosen) + [old(options)[index].value]
      ensures options == old(options) && value == old(value) && disabled == old(disabled)
      ensures highlightedIndex == old(highlightedIndex)
    {
      chosen := chosen + [options[index].value];
      isOpen := false;
    }

    /**
     * The parent re-renders the select with new props. The highlight state
     * survives untouched (`HighlightAfterNewOptionsAsWritten`), so it may no
     * longer name an option; `HighlightAfterNewOptions` is the corrected rule.
     */
    method SetProps(newOptions: seq<SelectOption>, newValue: string, newDisabled: bool)
      modifies this
      ensures Valid() <==> HighlightInRange(old(highlightedIndex), |newOptions|)
      ensures options == newOptions && value == newValue && disabled == newDisabled
      ensures highlightedIndex == HighlightAfterNewOptionsAsWritten(old(highlightedIndex), newOptions)
      ensures isOpen == old(isOpen) && chosen == old(chosen)
    {
      highlightedIndex := HighlightAfterNewOptionsAsWritten(highlightedIndex, newOptions);
      options := newOptions;
      value := newValue;
      disabled := newDisabled;
    }

    /** The trigger's text: the selected option's label, else the placeholder. */
    function Label(placeholder: string): (r: string)
      reads this
      ensures (forall i :: 0 <= i < |options| ==> options[i].value != value) ==> r == placeholder
    {
      DisplayLabel(options, value, placeholder)
    }
  }
}
