/**
 * The conversation history: a bounded list of chat messages that keeps a leading system
 * prompt when it trims, and hands out the most recent messages for the next request.
 */
module ConversationManager {
  import opened Wrappers
  import opened Messages
  import opened Slices

  /** The most messages the history keeps. */
  const MaxHistoryLength: nat := 20

  /** The first message as a one-element list when it is a system prompt, otherwise empty. */
  function SystemPrefix(h: seq<ChatMessage>): (r: seq<ChatMessage>)
    ensures |r| <= 1 && |r| <= |h| && r == h[..|r|]
    ensures |r| == 1 <==> |h| > 0 && h[0].role == System
  {
    if |h| > 0 && h[0].role == System then [h[0]] else []
  }

  /** `s` with `k` elements dropped right after its first `keep`: the shape every trim below has. */
  function DropAfter<T>(s: seq<T>, keep: nat, k: nat): seq<T>
    requires keep + k <= |s|
  {
    s[..keep] + s[keep + k..]
  }

  // ---------------------------------------------------------------- adding

  /** The history after `message` is pushed and the list is cut back to the maximum length. */
  function AddTrimmed(h: seq<ChatMessage>, message: ChatMessage): seq<ChatMessage> {
    var pushed := h + [message];
    if |pushed| > MaxHistoryLength then
      var systemPrompt := SystemPrefix(pushed);
      systemPrompt + SliceFrom(pushed, -(MaxHistoryLength - |systemPrompt|))
    else
      pushed
  }

  /**
   * Adding never leaves more than the maximum: the new history has `min(|h| + 1, 20)` messages,
   * ends with the new message, keeps a leading system prompt, and is the pushed list with the
   * oldest messages after the system prompt dropped.
   */
  lemma AddTrimmedSpec(h: seq<ChatMessage>, message: ChatMessage)
    ensures var r := AddTrimmed(h, message);
      && |r| == (if |h| + 1 <= MaxHistoryLength then |h| + 1 else MaxHistoryLength)
      && r[|r| - 1] == message
      && (|h| > 0 && h[0].role == System ==> r[0] == h[0])
      && |SystemPrefix(h + [message])| + (|h| + 1 - |r|) <= |h| + 1
      && r == DropAfter(h + [message], |SystemPrefix(h + [message])|, |h| + 1 - |r|)
  {
    var pushed := h + [message];
    var sp := SystemPrefix(pushed);
    var r := AddTrimmed(h, message);
    if |pushed| > MaxHistoryLength {
      var n := MaxHistoryLength - |sp|;
      SliceFromEnd(pushed, n);
      assert r == sp + pushed[|pushed| - n..];
      assert |r| == MaxHistoryLength;
      assert r[|r| - 1] == pushed[|pushed| - 1];
      assert |pushed| - n == |sp| + (|h| + 1 - |r|);
    } else {
      assert r == pushed;
      assert pushed[..|sp|] + pushed[|sp|..] == pushed;
    }
  }

  /** Below the maximum, adding is a plain push. */
  lemma AddTrimmedBelowMax(h: seq<ChatMessage>, message: ChatMessage)
    requires |h| < MaxHistoryLength
    ensures AddTrimmed(h, message) == h + [message]
  {
  }

  /** A history that starts with a system prompt never loses it, however many messages follow. */
  lemma {:induction false} SystemPromptSurvives(h: seq<ChatMessage>, ms: seq<ChatMessage>)
    requires |h| > 0 && h[0].role == System
    ensures var r := AddAll(h, ms); |r| > 0 && r[0] == h[0]
    decreases |ms|
  {
    if |ms| > 0 {
      var h' := AddTrimmed(h, ms[0]);
      AddTrimmedSpec(h, ms[0]);
      SystemPromptSurvives(h', ms[1..]);
    }
  }

  /** Adding each of `ms` in turn. */
  function AddAll(h: seq<ChatMessage>, ms: seq<ChatMessage>): seq<ChatMessage>
    decreases |ms|
  {
    if |ms| == 0 then h else AddAll(AddTrimmed(h, ms[0]), ms[1..])
  }

  /** However many messages are added, the history stays within the maximum. */
  lemma {:induction false} AddAllBounded(h: seq<ChatMessage>, ms: seq<ChatMessage>)
    requires |h| <= MaxHistoryLength
    ensures |AddAll(h, ms)| <= MaxHistoryLength
    decreases |ms|
  {
    if |ms| > 0 {
      AddTrimmedSpec(h, ms[0]);
      AddAllBounded(AddTrimmed(h, ms[0]), ms[1..]);
    }
  }

  // ---------------------------------------------------------------- recent messages

  /**
   * `getRecentMessagesWithSystemPrompt` exactly as the source computes it. When `count` equals
   * the length of the system prefix the slice position is `-0`, which JavaScript reads as the
   * start of the list, so the whole history comes back after the system prompt.
   */
  function RecentAsWritten(h: seq<ChatMessage>, count: int): seq<ChatMessage> {
    if |h| <= count then h
    else
      var systemPrompt := SystemPrefix(h);
      systemPrompt + SliceFrom(h, -(count - |systemPrompt|))
  }

  /** With a system prompt and a count of one, the as-written code repeats the system prompt. */
  lemma RecentAsWrittenRepeatsSystemPrompt(sys: ChatMessage, u: ChatMessage)
    requires sys.role == System
    ensures RecentAsWritten([sys, u], 1) == [sys, sys, u]
    ensures |RecentAsWritten([sys, u], 1)| > |[sys, u]|
  {
    SliceFromMinusZero([sys, u]);
  }

  /**
   * Whenever `count` equals the system prefix length and the history is longer, the as-written
   * code appends the whole history after the system prefix: a system prompt comes back twice.
   */
  lemma RecentAsWrittenAtPrefixLength(h: seq<ChatMessage>, count: int)
    requires |h| > count && count == |SystemPrefix(h)|
    ensures RecentAsWritten(h, count) == SystemPrefix(h) + h
    ensures |SystemPrefix(h)| == 1 ==> |RecentAsWritten(h, count)| == |h| + 1
  {
    SliceFromMinusZero(h);
  }

  /** Without a system prompt and a count of zero, the as-written code returns everything. */
  lemma RecentAsWrittenZeroCount(u: ChatMessage)
    requires u.role != System
    ensures RecentAsWritten([u], 0) == [u]
  {
    SliceFromMinusZero([u]);
  }

  /**
   * The intended behaviour: at most `count` messages counting the system prompt, never fewer than
   * the system prompt itself, taking the rest from the end of the history.
   */
  function Recent(h: seq<ChatMessage>, count: int): seq<ChatMessage> {
    if |h| <= count then h
    else
      var systemPrompt := SystemPrefix(h);
      var n := count - |systemPrompt|;
      systemPrompt + (if n > 0 then SliceFrom(h, -n) else [])
  }

  /**
   * The recent messages are the whole history when it fits in `count`; otherwise exactly
   * `max(count, |system prefix|)` messages: the system prompt, if any, once, followed by the most
   * recent messages, i.e. the history with a block right after the system prompt dropped.
   */
  lemma RecentSpec(h: seq<ChatMessage>, count: int)
    ensures |h| <= count ==> Recent(h, count) == h
    ensures var r := Recent(h, count); var sp := |SystemPrefix(h)|;
      && |r| <= |h|
      && (|h| > count ==> |r| == if count > sp then count else sp)
      && sp + (|h| - |r|) <= |h|
      && r == DropAfter(h, sp, |h| - |r|)
  {
    var sp := SystemPrefix(h);
    var r := Recent(h, count);
    if |h| > count {
      var n := count - |sp|;
      if n > 0 {
        SliceFromEnd(h, n);
        assert r == sp + h[|h| - n..];
      } else {
        assert h[|sp| + (|h| - |r|)..] == [];
      }
    } else {
      assert h[..|sp|] + h[|sp|..] == h;
    }
  }

  /** The corrected computation agrees with the source whenever the slice position is not `-0`. */
  lemma RecentAgreesAwayFromZero(h: seq<ChatMessage>, count: int)
    requires count > |SystemPrefix(h)|
    ensures Recent(h, count) == RecentAsWritten(h, count)
  {
  }

  // ---------------------------------------------------------------- the module-level history

  /** The module's `conversationHistory` variable and the functions that read and change it. */
  class ConversationHistory {
    var history: seq<ChatMessage>

    /** The history never holds more than the maximum. */
    ghost predicate Valid()
      reads this
    {
      |history| <= MaxHistoryLength
    }

    /** The history starts empty. */
    constructor()
      ensures history == [] && Valid()
    {
      history := [];
    }

    /** `initializeConversation`: the history becomes the system prompt alone, or empty. */
    method InitializeConversation(systemPromptMessage: Option<ChatMessage>)
      modifies this
      ensures history == (if systemPromptMessage.Some? then [systemPromptMessage.value] else [])
      ensures Valid()
    {
      history := if systemPromptMessage.Some? then [systemPromptMessage.value] else [];
    }

    /** `addMessageToHistory`: push, then cut back to the maximum keeping a leading system prompt. */
    method AddMessageToHistory(message: ChatMessage)
      requires Valid()
      modifies this
      ensures history == AddTrimmed(old(history), message)
      ensures Valid() && history[|history| - 1] == message
    {
      AddTrimmedSpec(history, message);
      history := history + [message];
      if |history| > MaxHistoryLength {
        var systemPrompt := if history[0].role == System then [history[0]] else [];
        var recentMessages := SliceFrom(history, -(MaxHistoryLength - |systemPrompt|));
        history := systemPrompt + recentMessages;
      }
    }

    /** `getConversationHistory`: a copy of the history (sequences are values). */
    method GetConversationHistory() returns (r: seq<ChatMessage>)
      ensures r == history
    {
      r := history;
    }

    /** `clearConversationHistory`: the history becomes empty. */
    method ClearConversationHistory()
      modifies this
      ensures history == [] && Valid()
    {
      history := [];
    }

    /**
     * `getRecentMessagesWithSystemPrompt`, corrected so that a count equal to the system prefix
     * length gives the system prompt alone.
     */
    method GetRecentMessagesWithSystemPrompt(count: int) returns (r: seq<ChatMessage>)
      ensures r == Recent(history, count)
    {
      var h := GetConversationHistory();
      if |h| <= count {
        return h;
      }
      var systemPrompt := SystemPrefix(h);
      var n := count - |systemPrompt|;
      var recentMessages := if n > 0 then SliceFrom(h, -n) else [];
      r := systemPrompt + recentMessages;
      assert r == Recent(h, count);
    }
  }
}
