/**
 * The search form: the text typed so far, whether the field has focus, and
 * which controls are disabled while a lookup runs.
 */
module Search {
  import opened Wrappers
  import opened Builtins

  /** The `disabled` flags of the text field, the location button and the
      search button. */
  datatype Controls = Controls(inputDisabled: bool, locationDisabled: bool, submitDisabled: bool)

  /** The flags for the typed `city` while `loading`: a lookup in progress locks
      everything, and the search button also stays locked until the text holds
      something besides whitespace. */
  function ControlsFor(city: string, loading: bool): (c: Controls)
    ensures c.inputDisabled <==> loading
    ensures c.locationDisabled <==> loading
    ensures c.submitDisabled <==> loading || Blank(city)
  {
    Controls(loading, loading, loading || Trim(city) == [])
  }

  class SearchBar {
    /** The text in the field. */
    var city: string
    /** Whether the field has keyboard focus. */
    var isFocused: bool

    constructor()
      ensures city == "" && !isFocused
    {
      city := "";
      isFocused := false;
    }

    /** `onChange`: the field shows exactly what was typed. */
    method Change(value: string)
      modifies this
      ensures city == value && isFocused == old(isFocused)
    {
      city := value;
    }

    /** `onFocus`. */
    method Focus()
      modifies this
      ensures isFocused && city == old(city)
    {
      isFocused := true;
    }

    /** `onBlur`. */
    method Blur()
      modifies this
      ensures !isFocused && city == old(city)
    {
      isFocused := false;
    }

    /** `handleSubmit`: when the text holds more than whitespace, hands its
        trimmed form to `onSearch` (returned here) and clears the field;
        otherwise nothing happens. */
    method Submit() returns (searched: Option<string>)
      modifies this
      ensures searched.Some? <==> !Blank(old(city))
      ensures searched.Some? ==> && searched.value == Trim(old(city))
                                 && searched.value != []
                                 && Trim(searched.value) == searched.value
                                 && city == ""
      ensures searched.None? ==> city == old(city)
      ensures isFocused == old(isFocused)
    {
      var t := Trim(city);
      if t != [] {
        TrimIdempotent(city);
        searched := Some(t);
        city := "";
      } else {
        searched := None;
      }
    }

  }

  /** The search button is enabled exactly when a submit would search. */
  lemma SubmitEnabledIffSearches(city: string)
    ensures !ControlsFor(city, false).submitDisabled <==> Trim(city) != []
  {
  }
}
