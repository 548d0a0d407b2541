/**
 * The search box: one text field; a click on Search or the Enter key emits
 * the trimmed text as the word to look up, unless it is empty.
 */
module Search {
  import opened Wrappers
  import opened Text

  const EnterKey: string := "Enter"

  /**
   * `handleSearch`: the trimmed input when it is non-empty, nothing
   * otherwise. An emitted word has no white space at either end, so trimming
   * it again gives it back.
   */
  function SearchRequest(input: string): (r: Option<string>)
    ensures r.Some? <==> Trim(input) != ""
    ensures AllSpace(input) ==> r == None
    ensures r.Some? ==> r.value == Trim(input) && Trim(r.value) == r.value
    ensures r.Some? ==> !IsSpace(r.value[0]) && !IsSpace(r.value[|r.value| - 1])
  {
    TrimIdempotent(input);
    var trimmed := Trim(input);
    if trimmed != "" then Some(trimmed) else None
  }

  /** `handleKeyPress`: only the Enter key searches; every other key does nothing. */
  function KeyRequest(key: string, input: string): (r: Option<string>)
    ensures key != EnterKey ==> r == None
    ensures key == EnterKey ==> r == SearchRequest(input)
  {
    if key == EnterKey then SearchRequest(input) else None
  }

  /** The search box's state: the text typed so far. */
  class DictionarySearch {
    var inputValue: string

    constructor ()
      ensures inputValue == ""
    {
      inputValue := "";
    }

    /** `onChange`: the field takes the typed text. */
    method Change(value: string)
      modifies this
      ensures inputValue == value
    {
      inputValue := value;
    }

    /** `handleSearch`: the word emitted, if any; the text field is left as it is. */
    method HandleSearch() returns (emitted: Option<string>)
      ensures emitted.Some? <==> Trim(inputValue) != ""
      ensures emitted.Some? ==> emitted.value == Trim(inputValue)
      ensures emitted == SearchRequest(inputValue)
    {
      var trimmedWord := Trim(inputValue);
      emitted := None;
      if trimmedWord != "" {
        emitted := Some(trimmedWord);
      }
    }

    /** `handleKeyPress`: searches on Enter and emits nothing for any other key. */
    method HandleKeyPress(key: string) returns (emitted: Option<string>)
      ensures emitted == KeyRequest(key, inputValue)
    {
      emitted := None;
      if key == EnterKey {
        emitted := HandleSearch();
      }
    }
  }
}
