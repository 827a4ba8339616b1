/**
 * The role-play endpoints of the Xi Jinping Thought web app:
 * `/start_dialogue`, `/continue_dialogue` and `/end_dialogue` over the
 * process-wide `dialogue_sessions` dict from session id to dialogue state.
 *
 * A dialogue turn of the role-play agent is a parameter: given the message,
 * the stored state (none for a new dialogue) and the saved image, if any,
 * it gives the agent's reply dict.
 */
module DialogueSessions {
  import opened Wrappers
  import opened Strings
  import opened RoleAgent

  datatype SessionReply =
    | Failed(status: nat, error: string)
    | Turn(sessionId: Option<string>, response: string, character: string, topic: string, turnCount: int)
    | Notice(message: string)
    /** An exception Flask turns into a bare 500 page. */
    | Crashed

  const AgentMissing := "AI助手未正确初始化"
  const NoTopicError := "请输入您想探讨的话题或上传图片"
  const NoReplyError := "请输入您的回应或上传图片"
  const ImageError := "图片处理失败"
  const ExpiredError := "会话已过期，请重新开始对话"
  const StartImagePrompt := "请结合这张图片开始对话并提出苏格拉底式问题。"
  const ContinueImagePrompt := "请结合这张图片继续对话并提出苏格拉底式问题。"
  const EndedMessage := "对话已结束"
  const NotFoundMessage := "会话未找到或已结束"

  /** The JSON reply for a successful turn; a state without one of the keys read raises. */
  function TurnReply(sessionId: Option<string>, r: DialogueReply): SessionReply
  {
    if r.state.character.Some? && r.state.topic.Some? && r.state.turnCount.Some? then
      Turn(sessionId, r.response, r.state.character.value, r.state.topic.value, r.state.turnCount.value)
    else Crashed
  }

  /** `image_path and hasattr(…)`: whether the turn is given the saved image. */
  function ImageForTurn(imagePath: Option<string>, agentHasMultimodal: bool): Option<string>
  {
    if imagePath.Some? && agentHasMultimodal then imagePath else None
  }

  /** `session_id and session_id in dialogue_sessions`. */
  predicate IsOpenSession(sessionId: Option<string>, sessions: map<string, DialogueState>)
  {
    sessionId.Some? && sessionId.value != "" && sessionId.value in sessions
  }

  /** `not user_message and not image_data`. */
  predicate NoInput(message: Option<string>, imageData: Option<string>)
  {
    Strip(message.GetOr("")) == "" && (imageData.None? || imageData.value == "")
  }

  class SessionStore {
    var sessions: map<string, DialogueState>

    constructor ()
      ensures sessions == map[]
    {
      sessions := map[];
    }

    /** `/start_dialogue`; `newId` is the fresh `uuid4` of the new session. */
    method StartDialogue(agentLoaded: bool, agentHasMultimodal: bool, message: Option<string>, imageData: Option<string>,
                         newId: string, save: string -> Option<string>,
                         turn: (string, Option<DialogueState>, Option<string>) -> DialogueReply)
      returns (reply: SessionReply)
      modifies this
      ensures !agentLoaded ==> reply == Failed(500, AgentMissing) && sessions == old(sessions)
      ensures agentLoaded && NoInput(message, imageData) ==> reply == Failed(400, NoTopicError) && sessions == old(sessions)
      // A session is stored only for a turn that did not report an error, under the new id.
      ensures sessions == old(sessions) || (newId in sessions && sessions == old(sessions)[newId := sessions[newId]])
      ensures reply.Turn? ==> reply.sessionId == Some(newId) && newId in sessions
      ensures reply.Failed? ==> sessions == old(sessions)
      ensures agentLoaded && !NoInput(message, imageData) ==>
        var hasImage := imageData.Some? && imageData.value != "";
        var saved := if hasImage then save(imageData.value) else None;
        var m := if Strip(message.GetOr("")) == "" then StartImagePrompt else Strip(message.GetOr(""));
        var r := turn(m, None, ImageForTurn(saved, agentHasMultimodal));
        if hasImage && (saved.None? || saved.value == "") then reply == Failed(400, ImageError) && sessions == old(sessions)
        else if r.status == "error" then reply == Failed(500, r.response) && sessions == old(sessions)
        else sessions == old(sessions)[newId := r.state] && reply == TurnReply(Some(newId), r)
    {
      if !agentLoaded {
        return Failed(500, AgentMissing);
      }
      var userMessage := Strip(message.GetOr(""));
      var hasImage := imageData.Some? && imageData.value != "";
      if userMessage == "" && !hasImage {
        return Failed(400, NoTopicError);
      }
      var imagePath: Option<string> := None;
      if hasImage {
        imagePath := save(imageData.value);
        if imagePath.None? || imagePath.value == "" {
          return Failed(400, ImageError);
        }
      }
      if userMessage == "" {
        userMessage := StartImagePrompt;
      }
      var r := turn(userMessage, None, ImageForTurn(imagePath, agentHasMultimodal));
      if r.status == "error" {
        return Failed(500, r.response);
      }
      sessions := sessions[newId := r.state];
      return TurnReply(Some(newId), r);
    }

    /** `/continue_dialogue`. */
    method ContinueDialogue(agentLoaded: bool, agentHasMultimodal: bool, sessionId: Option<string>, message: Option<string>,
                            imageData: Option<string>, save: string -> Option<string>,
                            turn: (string, Option<DialogueState>, Option<string>) -> DialogueReply)
      returns (reply: SessionReply)
      modifies this
      ensures !agentLoaded ==> reply == Failed(500, AgentMissing)
      // An unknown session is refused before the message is looked at.
      ensures agentLoaded && !IsOpenSession(sessionId, old(sessions)) ==> reply == Failed(400, ExpiredError)
      ensures agentLoaded && IsOpenSession(sessionId, old(sessions)) && NoInput(message, imageData) ==> reply == Failed(400, NoReplyError)
      // Only the session's own entry can change, and only to the state of a turn that did not fail.
      ensures sessions.Keys == old(sessions).Keys
      ensures forall k :: k in sessions && (sessionId.None? || k != sessionId.value) ==> sessions[k] == old(sessions)[k]
      ensures reply.Failed? ==> sessions == old(sessions)
      ensures agentLoaded && IsOpenSession(sessionId, old(sessions)) && !NoInput(message, imageData) ==>
        var hasImage := imageData.Some? && imageData.value != "";
        var saved := if hasImage then save(imageData.value) else None;
        var m := if Strip(message.GetOr("")) == "" then ContinueImagePrompt else Strip(message.GetOr(""));
        var r := turn(m, Some(old(sessions)[sessionId.value]), ImageForTurn(saved, agentHasMultimodal));
        if hasImage && (saved.None? || saved.value == "") then reply == Failed(400, ImageError)
        else if r.status == "error" then reply == Failed(500, r.response)
        else sessions == old(sessions)[sessionId.value := r.state] && reply == TurnReply(None, r)
    {
      if !agentLoaded {
        return Failed(500, AgentMissing);
      }
      var userMessage := Strip(message.GetOr(""));
      var hasImage := imageData.Some? && imageData.value != "";
      if !IsOpenSession(sessionId, sessions) {
        return Failed(400, ExpiredError);
      }
      var id := sessionId.value;
      if userMessage == "" && !hasImage {
        return Failed(400, NoReplyError);
      }
      var imagePath: Option<string> := None;
      if hasImage {
        imagePath := save(imageData.value);
        if imagePath.None? || imagePath.value == "" {
          return Failed(400, ImageError);
        }
      }
      var currentState := sessions[id];
      if userMessage == "" {
        userMessage := ContinueImagePrompt;
      }
      var r := turn(userMessage, Some(currentState), ImageForTurn(imagePath, agentHasMultimodal));
      if r.status == "error" {
        return Failed(500, r.response);
      }
      sessions := sessions[id := r.state];
      return TurnReply(None, r);
    }

    /** `/end_dialogue`: the session is removed if present; either way the reply is a notice. */
    method EndDialogue(sessionId: Option<string>) returns (reply: SessionReply)
      modifies this
      ensures IsOpenSession(sessionId, old(sessions)) ==>
        reply == Notice(EndedMessage) && sessions == old(sessions) - {sessionId.value}
      ensures !IsOpenSession(sessionId, old(sessions)) ==>
        reply == Notice(NotFoundMessage) && sessions == old(sessions)
    {
      if IsOpenSession(sessionId, sessions) {
        sessions := sessions - {sessionId.value};
        return Notice(EndedMessage);
      }
      return Notice(NotFoundMessage);
    }
  }
}
