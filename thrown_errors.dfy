/**
 * How the error handler classifies the errors the prompt constructor throws: each lands on the
 * kind meant for it, and so on the user message shared by the data-access kinds.
 */
module ThrownErrors {
  import opened Strings
  import opened ErrorHandler
  import PromptConstructor

  /** Uppercase 'O', which opens the missing-key pattern, is absent from the base-prompt error. */
  lemma PromptLoadFailureLacksO()
    ensures 'O' !in PromptConstructor.PromptLoadFailure
  {
  }

  /** The base-prompt error names no missing key and holds the prompt-load pattern. */
  lemma PromptLoadFailurePatterns()
    ensures !Contains(PromptConstructor.PromptLoadFailure, KeyMissingPattern)
    ensures Contains(PromptConstructor.PromptLoadFailure, PromptLoadPattern)
  {
    var m := PromptConstructor.PromptLoadFailure;
    PromptLoadFailureLacksO();
    assert 'O' in KeyMissingPattern;
    NotContainsMissingChar(m, KeyMissingPattern, 'O');
    assert m == PromptLoadPattern + ".";
    assert m[..|PromptLoadPattern|] == PromptLoadPattern;
    StartsWithContains(m, PromptLoadPattern);
  }

  /** The error thrown when the base prompt cannot be read is a prompt-load error. */
  lemma PromptLoadFailureClassified()
    ensures CategorizeError(PlainError(PromptConstructor.PromptLoadFailure)) == PromptLoadError
  {
    PromptLoadFailurePatterns();
  }

  /** Uppercase 'O' is absent from the user-data error. */
  lemma UserDataFailureLacksO()
    ensures 'O' !in PromptConstructor.UserDataFailure
  {
  }

  /** 'b', of "base", is absent from the user-data error. */
  lemma UserDataFailureLacksB()
    ensures 'b' !in PromptConstructor.UserDataFailure
  {
  }

  /** The user-data error names neither a missing key nor the base prompt, and holds the user-data pattern. */
  lemma UserDataFailurePatterns()
    ensures !Contains(PromptConstructor.UserDataFailure, KeyMissingPattern)
    ensures !Contains(PromptConstructor.UserDataFailure, PromptLoadPattern)
    ensures Contains(PromptConstructor.UserDataFailure, UserDataPattern)
  {
    var m := PromptConstructor.UserDataFailure;
    UserDataFailureLacksO();
    assert 'O' in KeyMissingPattern;
    NotContainsMissingChar(m, KeyMissingPattern, 'O');
    UserDataFailureLacksB();
    assert 'b' in PromptLoadPattern;
    NotContainsMissingChar(m, PromptLoadPattern, 'b');
    assert m == UserDataPattern + ".";
    assert m[..|UserDataPattern|] == UserDataPattern;
    StartsWithContains(m, UserDataPattern);
  }

  /** The error thrown when the user data cannot be loaded is a user-data error. */
  lemma UserDataFailureClassified()
    ensures CategorizeError(PlainError(PromptConstructor.UserDataFailure)) == UserDataLoadError
  {
    UserDataFailurePatterns();
  }

  /** Uppercase 'O' is in none of the words of the context error. */
  lemma ContextWordsLackO()
    ensures 'O' !in "Failed " && 'O' !in "to " && 'O' !in "generate " && 'O' !in "system " && 'O' !in "context "
    ensures 'O' !in "message" && 'O' !in " and " && 'O' !in "also " && 'O' !in "failed " && 'O' !in "load "
    ensures 'O' !in "base " && 'O' !in "prompt " && 'O' !in "as " && 'O' !in "fallback."
  {
  }

  /** Uppercase 'U', which opens the missing-fields pattern, is in none of the words of the context error. */
  lemma ContextWordsLackU()
    ensures 'U' !in "Failed " && 'U' !in "to " && 'U' !in "generate " && 'U' !in "system " && 'U' !in "context "
    ensures 'U' !in "message" && 'U' !in " and " && 'U' !in "also " && 'U' !in "failed " && 'U' !in "load "
    ensures 'U' !in "base " && 'U' !in "prompt " && 'U' !in "as " && 'U' !in "fallback."
  {
  }

  /** Uppercase 'F' is in none of the words of the context error, except at the very start. */
  lemma ContextWordsLackF()
    ensures 'F' !in "Failed "[1..] && 'F' !in "to " && 'F' !in "generate " && 'F' !in "system " && 'F' !in "context "
    ensures 'F' !in "message" && 'F' !in " and " && 'F' !in "also " && 'F' !in "failed " && 'F' !in "load "
    ensures 'F' !in "base " && 'F' !in "prompt " && 'F' !in "as " && 'F' !in "fallback."
  {
  }

  /** The context error holds no 'O' and no 'U'. */
  lemma ContextFailureLacksOU()
    ensures 'O' !in PromptConstructor.ContextFailure && 'U' !in PromptConstructor.ContextFailure
  {
    ContextWordsLackO();
    ContextWordsLackU();
  }

  /** The only 'F' of the context error is its first character. */
  lemma ContextFailureOneF()
    ensures |PromptConstructor.ContextFailure| > 1 && 'F' !in PromptConstructor.ContextFailure[1..]
  {
    ContextWordsLackF();
    AbsentAfterFirst("Failed ", "to ", 'F');
    AbsentAfterFirst("Failed " + "to ", "generate ", 'F');
    AbsentAfterFirst("Failed " + "to " + "generate ", "system ", 'F');
    AbsentAfterFirst("Failed " + "to " + "generate " + "system ", "context ", 'F');
    AbsentAfterFirst("Failed " + "to " + "generate " + "system " + "context ", "message", 'F');
    AbsentAfterFirst("Failed " + "to " + "generate " + "system " + "context " + "message", " and ", 'F');
    AbsentAfterFirst(
      "Failed " + "to " + "generate " + "system " + "context " + "message" + " and ",
      "also ", 'F');
    AbsentAfterFirst(
      "Failed " + "to " + "generate " + "system " + "context " + "message" + " and " + "also ",
      "failed ", 'F');
    AbsentAfterFirst(
      "Failed " + "to " + "generate " + "system " + "context " + "message" + " and " + "also " + "failed ",
      "to ", 'F');
    AbsentAfterFirst(
      "Failed " + "to " + "generate " + "system " + "context " + "message" + " and " + "also " + "failed " + "to ",
      "load ", 'F');
    AbsentAfterFirst(
      "Failed " + "to " + "generate " + "system " + "context " + "message" + " and " + "also " + "failed " + "to " + "load ",
      "base ", 'F');
    AbsentAfterFirst(
      "Failed " + "to " + "generate " + "system " + "context " + "message" + " and " + "also " + "failed " + "to " + "load " + "base ",
      "prompt ", 'F');
    AbsentAfterFirst(
      "Failed " + "to " + "generate " + "system " + "context " + "message" + " and " + "also " + "failed " + "to " + "load " + "base " + "prompt ",
      "as ", 'F');
    AbsentAfterFirst(
      "Failed " + "to " + "generate " + "system " + "context " + "message" + " and " + "also " + "failed " + "to " + "load " + "base " + "prompt " + "as ",
      "fallback.", 'F');
  }

  /** Position 10 of the context error is the 'g' of "generate", where the load messages have an 'l'. */
  lemma ContextFailureTenth()
    ensures |PromptConstructor.ContextFailure| > 10 && PromptConstructor.ContextFailure[10] == 'g'
  {
    assert ("Failed " + "to " + "generate ")[10] == 'g';
  }

  /** The context error does not name a missing key. */
  lemma ContextFailureNotKeyMissing()
    ensures !Contains(PromptConstructor.ContextFailure, KeyMissingPattern)
  {
    ContextFailureLacksOU();
    assert 'O' in KeyMissingPattern;
    NotContainsMissingChar(PromptConstructor.ContextFailure, KeyMissingPattern, 'O');
  }

  /** The context error does not name missing fields. */
  lemma ContextFailureNotMissingFields()
    ensures !Contains(PromptConstructor.ContextFailure, MissingFieldsPattern)
  {
    ContextFailureLacksOU();
    assert 'U' in MissingFieldsPattern;
    NotContainsMissingChar(PromptConstructor.ContextFailure, MissingFieldsPattern, 'U');
  }

  /** The context error does not name the base prompt load. */
  lemma ContextFailureNotPromptLoad()
    ensures !Contains(PromptConstructor.ContextFailure, PromptLoadPattern)
  {
    ContextFailureOneF();
    ContextFailureTenth();
    assert PromptLoadPattern[0] == 'F' && PromptLoadPattern[10] == 'l';
    ContainsOnlyAtFront(PromptConstructor.ContextFailure, PromptLoadPattern);
  }

  /** The context error does not name the user-data load. */
  lemma ContextFailureNotUserData()
    ensures !Contains(PromptConstructor.ContextFailure, UserDataPattern)
  {
    ContextFailureOneF();
    ContextFailureTenth();
    assert UserDataPattern[0] == 'F' && UserDataPattern[10] == 'l';
    ContainsOnlyAtFront(PromptConstructor.ContextFailure, UserDataPattern);
  }

  /** The context error names the context message. */
  lemma ContextFailureNamesContext()
    ensures Contains(PromptConstructor.ContextFailure, ContextPattern)
  {
    assert ContextPattern == "context " + "message";
    ContainsJoined("Failed " + "to " + "generate " + "system ", "context ", "message");
    ContainsExtend("Failed " + "to " + "generate " + "system " + "context " + "message",
      " and ", ContextPattern);
    ContainsExtend("Failed " + "to " + "generate " + "system " + "context " + "message" + " and ",
      "also ", ContextPattern);
    ContainsExtend("Failed " + "to " + "generate " + "system " + "context " + "message" + " and " + "also ",
      "failed ", ContextPattern);
    ContainsExtend("Failed " + "to " + "generate " + "system " + "context " + "message" + " and " + "also " + "failed ",
      "to ", ContextPattern);
    ContainsExtend("Failed " + "to " + "generate " + "system " + "context " + "message" + " and " + "also " + "failed " + "to ",
      "load ", ContextPattern);
    ContainsExtend("Failed " + "to " + "generate " + "system " + "context " + "message" + " and " + "also " + "failed " + "to " + "load ",
      "base ", ContextPattern);
    ContainsExtend("Failed " + "to " + "generate " + "system " + "context " + "message" + " and " + "also " + "failed " + "to " + "load " + "base ",
      "prompt ", ContextPattern);
    ContainsExtend("Failed " + "to " + "generate " + "system " + "context " + "message" + " and " + "also " + "failed " + "to " + "load " + "base " + "prompt ",
      "as ", ContextPattern);
    ContainsExtend("Failed " + "to " + "generate " + "system " + "context " + "message" + " and " + "also " + "failed " + "to " + "load " + "base " + "prompt " + "as ",
      "fallback.", ContextPattern);
  }

  /** The error thrown when neither the context nor the fallback can be built is a context-generation error. */
  lemma ContextFailureClassified()
    ensures CategorizeError(PlainError(PromptConstructor.ContextFailure)) == ContextGenerationError
  {
    ContextFailureNotKeyMissing();
    ContextFailureNotPromptLoad();
    ContextFailureNotUserData();
    ContextFailureNotMissingFields();
    ContextFailureNamesContext();
  }

  /** All three errors reach the user as the one message shared by the data-access kinds. */
  lemma ThrownErrorsShareMessage()
    ensures HandleGenericError(PlainError(PromptConstructor.PromptLoadFailure)).message == DataAccessMessage
    ensures HandleGenericError(PlainError(PromptConstructor.UserDataFailure)).message == DataAccessMessage
    ensures HandleGenericError(PlainError(PromptConstructor.ContextFailure)).message == DataAccessMessage
  {
    PromptLoadFailureClassified();
    UserDataFailureClassified();
    ContextFailureClassified();
  }
}
