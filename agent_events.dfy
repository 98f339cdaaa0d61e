/**
 * The SDK events the voice agents react to. Only the event kinds the agents
 * tell apart are distinguished; every other kind is carried by its name.
 */
module AgentEvents {
  import opened Text

  datatype Event =
    | UserStartedSpeaking
    | UserStoppedSpeaking
    | TranscriptUpdate(role: String, content: String)
    | LlmResponseChunk(text: String)
    | OtherEvent(kind: String)
  {
    /** A transcript update spoken by the caller. */
    predicate IsUserTranscript() {
      TranscriptUpdate? && role == "user"
    }
  }
}
