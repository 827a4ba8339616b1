/**
 * The role-play agent's `process_multimodal_dialogue`: a dialogue turn about
 * an image, and how it advances the dialogue state (turn counter and
 * conversation history).
 *
 * The state is the Python dict the dialogue graph passes around; its
 * conversation history is a list object that a copied dict still shares,
 * so it is a class here. The text-only dialogue of the base agent and the
 * vision agent's reply are parameters.
 */
module RoleAgent {
  import opened Wrappers

  datatype Message = Message(role: string, content: string)

  /** A `conversation_history` list, which several states may share. */
  class History {
    var entries: seq<Message>

    constructor (entries: seq<Message>)
      ensures this.entries == entries
    {
      this.entries := entries;
    }

    /** `list.extend`. */
    method Extend(more: seq<Message>)
      modifies this
      ensures entries == old(entries) + more
    {
      entries := entries + more;
    }
  }

  /** The keys of a dialogue state dict; `None` is a missing key. */
  datatype DialogueState = DialogueState(
    character: Option<string>,
    topic: Option<string>,
    turnCount: Option<int>,
    history: Option<History>)

  /** An empty dict, which Python treats as no state at all. */
  predicate IsEmptyState(s: DialogueState)
  {
    s.character.None? && s.topic.None? && s.turnCount.None? && s.history.None?
  }

  /** `not current_state`. */
  predicate NoState(s: Option<DialogueState>)
  {
    s.None? || IsEmptyState(s.value)
  }

  /** The dict a dialogue turn returns: status, reply text and new state. */
  datatype DialogueReply = DialogueReply(status: string, response: string, state: DialogueState)

  const DefaultCharacter := "毛泽东"
  const DefaultTopic := "毛泽东思想"

  /** The user's message and the reply, in that order, as history entries. */
  function TurnMessages(userInput: string, response: string): (ms: seq<Message>)
    ensures |ms| == 2 && ms[0].role == "user" && ms[1].role == "assistant"
    ensures ms[0].content == userInput && ms[1].content == response
  {
    [Message("user", userInput), Message("assistant", response)]
  }

  /** The turn counter after a turn: one more than before, a missing one counting as 0. */
  function NextTurnCount(s: DialogueState): (n: int)
    ensures s.turnCount.None? ==> n == 1
    ensures s.turnCount.Some? ==> n == s.turnCount.value + 1
  {
    s.turnCount.GetOr(0) + 1
  }

  class SocratesAgent {
    /** Whether building the vision agent succeeded at construction. */
    const hasMultimodalAgent: bool
    /** The character and topic the vision agent was last told about. */
    var visionCharacter: string
    var visionTopic: string

    /** `image_path and self.multimodal_agent`: the turn goes to the vision agent. */
    predicate UsesVision(imagePath: Option<string>)
    {
      imagePath.Some? && imagePath.value != "" && hasMultimodalAgent
    }

    constructor (hasMultimodalAgent: bool)
      ensures this.hasMultimodalAgent == hasMultimodalAgent
      ensures visionCharacter == DefaultCharacter && visionTopic == DefaultTopic
    {
      this.hasMultimodalAgent := hasMultimodalAgent;
      visionCharacter := DefaultCharacter;
      visionTopic := DefaultTopic;
    }

    /**
     * `process_multimodal_dialogue`. `describe(character, topic, text, image)`
     * is the vision agent's reply, where a raised exception is a `Failure`;
     * `processDialogue` is the text-only turn of the base agent.
     */
    method ProcessMultimodalDialogue(userInput: string, currentState: Option<DialogueState>, imagePath: Option<string>,
                                     processDialogue: (string, Option<DialogueState>) -> DialogueReply,
                                     describe: (string, string, string, string) -> Result<string, string>)
      returns (reply: DialogueReply)
      modifies this, if currentState.Some? && currentState.value.history.Some? then {currentState.value.history.value} else {}
      // Without an image or a vision agent: the text-only turn, and nothing changes.
      ensures !UsesVision(imagePath) ==>
        reply == processDialogue(userInput, currentState) && visionCharacter == old(visionCharacter) && visionTopic == old(visionTopic)
      // A state that is present tells the vision agent its character and topic first.
      ensures UsesVision(imagePath) && !NoState(currentState) ==>
        visionCharacter == currentState.value.character.GetOr(DefaultCharacter)
        && visionTopic == currentState.value.topic.GetOr(DefaultTopic)
      ensures UsesVision(imagePath) && NoState(currentState) ==>
        visionCharacter == old(visionCharacter) && visionTopic == old(visionTopic)
      // The vision agent failed: the text-only turn on the caller's state, which is left as it was.
      ensures UsesVision(imagePath) && describe(visionCharacter, visionTopic, userInput, imagePath.value).Failure? ==>
        reply == processDialogue(userInput, currentState)
        && (currentState.Some? && currentState.value.history.Some? ==>
              currentState.value.history.value.entries == old(currentState.value.history.value.entries))
      // First turn: a fresh state holding exactly this exchange.
      ensures UsesVision(imagePath) && NoState(currentState) && describe(visionCharacter, visionTopic, userInput, imagePath.value).Success? ==>
        var response := describe(visionCharacter, visionTopic, userInput, imagePath.value).value;
        reply.status == "success" && reply.response == response
        && reply.state.character == Some(DefaultCharacter) && reply.state.topic == Some(DefaultTopic)
        && reply.state.turnCount == Some(1)
        && reply.state.history.Some? && fresh(reply.state.history.value)
        && reply.state.history.value.entries == TurnMessages(userInput, response)
      // Later turn: character and topic carried over, the counter advanced,
      // and the exchange appended to the caller's own history list.
      ensures UsesVision(imagePath) && !NoState(currentState) && describe(visionCharacter, visionTopic, userInput, imagePath.value).Success? ==>
        var response := describe(visionCharacter, visionTopic, userInput, imagePath.value).value;
        var s := currentState.value;
        reply.status == "success" && reply.response == response
        && reply.state.character == s.character && reply.state.topic == s.topic
        && reply.state.turnCount == Some(NextTurnCount(s))
        && reply.state.history.Some?
        && (s.history.Some? ==>
              reply.state.history.value == s.history.value
              && s.history.value.entries == old(s.history.value.entries) + TurnMessages(userInput, response))
        && (s.history.None? ==>
              fresh(reply.state.history.value) && reply.state.history.value.entries == TurnMessages(userInput, response))
    {
      if !UsesVision(imagePath) {
        return processDialogue(userInput, currentState);
      }
      if !NoState(currentState) {
        visionCharacter := currentState.value.character.GetOr(DefaultCharacter);
        visionTopic := currentState.value.topic.GetOr(DefaultTopic);
      }
      var outcome := describe(visionCharacter, visionTopic, userInput, imagePath.value);
      if outcome.Failure? {
        return processDialogue(userInput, currentState);
      }
      var response := outcome.value;
      if NoState(currentState) {
        var history := new History(TurnMessages(userInput, response));
        return DialogueReply("success", response,
          DialogueState(Some(DefaultCharacter), Some(DefaultTopic), Some(1), Some(history)));
      }
      var s := currentState.value;
      var history: History;
      if s.history.Some? {
        history := s.history.value;
      } else {
        history := new History([]);
      }
      history.Extend(TurnMessages(userInput, response));
      return DialogueReply("success", response,
        DialogueState(s.character, s.topic, Some(NextTurnCount(s)), Some(history)));
    }
  }
}
