/** Turning raw user input into a user-role chat message. */
module MessagePreprocessor {
  import opened Wrappers
  import opened Strings
  import opened Messages

  /**
   * `preprocessUserMessage`: the input with its surrounding whitespace removed, as a user
   * message; `None` (the source's `null`) when nothing but whitespace was typed.
   */
  function PreprocessUserMessage(userInput: string): (r: Option<ChatMessage>)
    ensures r.None? <==> AllWhitespace(userInput)
    ensures r.Some? ==> r.value.role == User && r.value.content == Trim(userInput)
    ensures r.Some? ==> var c := r.value.content;
      |c| > 0 && !IsWhitespace(c[0]) && !IsWhitespace(c[|c| - 1])
    ensures r.Some? ==> SliceBetweenWhitespace(userInput, r.value.content, LeadingWhitespace(userInput))
  {
    var trimmedInput := Trim(userInput);
    TrimSpec(userInput);
    if trimmedInput == "" then None
    else Some(ChatMessage(User, trimmedInput))
  }

  /** Preprocessing the content of a preprocessed message gives the same message back. */
  lemma PreprocessIdempotent(userInput: string)
    requires PreprocessUserMessage(userInput).Some?
    ensures PreprocessUserMessage(PreprocessUserMessage(userInput).value.content)
         == PreprocessUserMessage(userInput)
  {
    TrimIdempotent(userInput);
  }
}
