/** The small piece of conversation state (topic and user mood) kept between turns. */
module ConversationStateManager {
  import opened Wrappers

  /** `UserMood` without its `null`, which `Option` carries. */
  datatype Mood = Neutral | Positive | Negative | Curious | Confused | Frustrated

  /** `ConversationState`: both fields may be `null`. */
  datatype ConversationState = ConversationState(currentTopic: Option<string>, userMood: Option<Mood>)

  /** The state the module starts in and resets to: no topic, a neutral mood. */
  const DefaultState: ConversationState := ConversationState(None, Some(Neutral))

  /** A property of a `Partial<...>` object: left out, or given (possibly as `null`). */
  datatype Field<T> = Absent | Present(value: T)

  /** `Partial<ConversationState>`. */
  datatype PartialState = PartialState(currentTopic: Field<Option<string>>, userMood: Field<Option<Mood>>)

  /** The partial that sets nothing. */
  const NoChange: PartialState := PartialState(Absent, Absent)

  /** The value a field has after spreading `f` over `old`. */
  function Override<T>(current: T, f: Field<T>): (r: T)
    ensures f.Absent? ==> r == current
    ensures f.Present? ==> r == f.value
  {
    match f
    case Absent => current
    case Present(v) => v
  }

  /** `{ ...s, ...p }`: every field `p` gives replaces the one in `s`; the rest are kept. */
  function Merge(s: ConversationState, p: PartialState): (r: ConversationState)
    ensures p.currentTopic.Absent? ==> r.currentTopic == s.currentTopic
    ensures p.currentTopic.Present? ==> r.currentTopic == p.currentTopic.value
    ensures p.userMood.Absent? ==> r.userMood == s.userMood
    ensures p.userMood.Present? ==> r.userMood == p.userMood.value
  {
    ConversationState(Override(s.currentTopic, p.currentTopic), Override(s.userMood, p.userMood))
  }

  /** The single partial equivalent to spreading `p` and then `q`. */
  function Then(p: PartialState, q: PartialState): PartialState {
    PartialState(
      if q.currentTopic.Present? then q.currentTopic else p.currentTopic,
      if q.userMood.Present? then q.userMood else p.userMood)
  }

  /** Updating with an empty partial changes nothing. */
  lemma MergeNoChange(s: ConversationState)
    ensures Merge(s, NoChange) == s
  {
  }

  /** Applying the same update twice is the same as applying it once. */
  lemma MergeIdempotent(s: ConversationState, p: PartialState)
    ensures Merge(Merge(s, p), p) == Merge(s, p)
  {
  }

  /** Two updates in a row are one update with the later partial winning field by field. */
  lemma MergeThen(s: ConversationState, p: PartialState, q: PartialState)
    ensures Merge(Merge(s, p), q) == Merge(s, Then(p, q))
  {
  }

  /** An update that gives every field forgets the previous state entirely. */
  lemma MergeFullOverwrites(s: ConversationState, t: ConversationState)
    ensures Merge(s, PartialState(Present(t.currentTopic), Present(t.userMood))) == t
  {
  }

  /** Updates of disjoint fields commute. */
  lemma MergeDisjointCommute(s: ConversationState, p: PartialState, q: PartialState)
    requires p.currentTopic.Absent? || q.currentTopic.Absent?
    requires p.userMood.Absent? || q.userMood.Absent?
    ensures Merge(Merge(s, p), q) == Merge(Merge(s, q), p)
  {
  }

  /** The module's `currentConversationState` variable and the functions over it. */
  class ConversationStateStore {
    var currentConversationState: ConversationState

    /** The state starts as the default. */
    constructor()
      ensures currentConversationState == DefaultState
    {
      currentConversationState := DefaultState;
    }

    /** `getConversationState`: a copy of the state (datatypes are values). */
    method GetConversationState() returns (r: ConversationState)
      ensures r == currentConversationState
    {
      r := currentConversationState;
    }

    /** `updateConversationState`: spread the partial over the current state. */
    method UpdateConversationState(newState: PartialState)
      modifies this
      ensures currentConversationState == Merge(old(currentConversationState), newState)
    {
      currentConversationState := ConversationState(
        if newState.currentTopic.Present? then newState.currentTopic.value else currentConversationState.currentTopic,
        if newState.userMood.Present? then newState.userMood.value else currentConversationState.userMood);
    }

    /** `resetConversationState`: back to the default. */
    method ResetConversationState()
      modifies this
      ensures currentConversationState == DefaultState
    {
      currentConversationState := ConversationState(None, Some(Neutral));
    }
  }
}
