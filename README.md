# Voice-AI cookbook core, modelled in Dafny

This project models the Python logic of a cookbook of voice-AI examples built on a
speech-to-text / text-to-speech vendor's APIs. The model follows the Python code
itself.

Each part of the model mirrors one or two source files:

- **Jarvis voice assistant** (`jarvis.dfy`, `jarvis_llm.dfy`, `jarvis_tts.dfy`): the
  wake-word state machine (`LISTENING`, `CAPTURING`, `PROCESSING`) with its query
  buffer, versioned silence timer and conversation timeout, plus the LLM conversation history,
  the grouping of a reply's words into ten-word chunks before speech, and the TTS audio queue.
  The assistant is a class whose methods update its fields in place. Each method is
  proved equal to a step function on a state value, and that step function keeps the
  state invariant.
- **Voice-agent nodes**:
  - Background sentiment analysis with escalation (`sentiment.dfy`).
  - Profanity masking (`profanity.dfy`).
  - Language detection: the per-message guess, its history and the primary language (`language.dfy`).
  - Inbound IVR routing (`ivr.dfy`).
  - Interrupt control and caller mute (`interrupt.dfy`).
  - The tool-calling assistant (`assistant.dfy`).
  - The shared agent event vocabulary (`agent_events.dfy`).
- **Transcript tools**:
  - Emotion analysis: the request checks, merging utterances into segments, their order, the per-segment results and the sorted speaker list (`emotion.dfy`, `ordering.dfy`).
  - YouTube summarizer: the video-id extraction, the output file names and the summary document (`youtube.dfy`).
  - The real-time streaming client: sending frames, the end marker, handling `is_final` transcripts, API errors and time-outs (`streaming.dfy`).
  - Cutting long audio into fixed-length chunks (`audio_chunks.dfy`).
  - Listing and exporting call analytics (`analytics.dfy`).
- **Shared definitions**:
  - Option and Result (`wrappers.dfy`).
  - Fixed-size slicing (`chunking.dfy`).
  - Counting and most-common (`tally.dfy`).
  - The Python string methods the code relies on: `lower`, `upper`, `strip`, `split`, `join`, `find`, `rfind`, zero padding (`text.dfy`).

Calls to the LLM, the TTS and STT services, HTTP endpoints, the screenshot tool, the
clock and audio decoding become parameters of the model. Their answers are inputs,
and the model proves what the code does with every possible answer.

## Model

| member | source | states |
|---|---|---|
| JarvisLlm.ContextHistory | speech-to-text/websocket/jarvis/python/llm.py:83-91 | a history of at most two entries is sent whole; a longer one gives its first two entries followed by its last min(6, n-2) entries, never more than 8 |
| JarvisLlm.ContextIsSubsequence | speech-to-text/websocket/jarvis/llm.py:96-104 | the context is an order-preserving subsequence of the history (the indices it picks rise strictly) |
| JarvisLlm.ContextKeepsPairs | speech-to-text/websocket/jarvis/python/llm.py:89-91 | a history of whole user/assistant pairs gives a context of whole pairs starting with a user entry |
| JarvisLlm.HistoryLine | speech-to-text/websocket/jarvis/python/llm.py:107-110 | a history line starts with "User: " exactly when the role is "user", with "Jarvis: " otherwise, and ends with the content |
| JarvisLlm.HistoryLines | speech-to-text/websocket/jarvis/python/llm.py:107-110 | one history line per context entry, in order |
| JarvisLlm.PromptText | speech-to-text/websocket/jarvis/python/llm.py:105-113 | with an empty context the prompt is only "CURRENT QUERY: …"; otherwise the history block comes first |
| JarvisLlm.HistoryTextLines | speech-to-text/websocket/jarvis/python/llm.py:107-111 | when no content holds a newline, the history text splits back into exactly the history lines, each labelled by its role |
| JarvisLlm.HistoryText | speech-to-text/websocket/jarvis/python/llm.py:107-110 | defines the history block: the labelled lines joined by newlines; `HistoryTextLines` proves it splits back into those lines |
| JarvisLlm.ParseResponse | speech-to-text/websocket/jarvis/python/llm.py:178-184 | a reply is STOP exactly when its upper-cased text starts with "STOP:" and then carries no text; a "SPEAK:" prefix in any case is cut and the rest stripped; any other reply is kept as it is |
| JarvisLlm.StopInAnyCase | speech-to-text/websocket/jarvis/python/llm.py:180-181 | any casing of "STOP:" followed by anything is a STOP |
| JarvisLlm.SpeakInAnyCase | speech-to-text/websocket/jarvis/python/llm.py:182-183 | any casing of "SPEAK:" followed by `rest` gives the stripped `rest` |
| JarvisLlm.SpeakRoundTrip | speech-to-text/websocket/jarvis/llm.py:189-191 | prefixing an already stripped answer with "SPEAK:" and parsing gives the answer back |
| JarvisLlm.GetResponse | speech-to-text/websocket/jarvis/python/llm.py:103-169 | without "screenshot" in the lowercased query, or without a captured image, the reply is the parsed, stripped text-model answer to the prompt; with both, a successful vision request's reply is stripped and parsed the same way |
| JarvisLlm.VisionFailureIsSpoken | speech-to-text/websocket/jarvis/python/llm.py:174-176 | a failed vision request is never a STOP: it yields the spoken apology that names the error |
| JarvisTts.ChunkText | speech-to-text/websocket/jarvis/python/tts.py:135-138 | there are as many chunks as `n`-word groups of the text's words |
| JarvisTts.GroupsAreWords | speech-to-text/websocket/jarvis/python/tts.py:135-138 | every group is made of non-empty words without white space |
| JarvisTts.ChunksFlattenMembers | speech-to-text/websocket/jarvis/python/tts.py:138 | every element of a slice is an element of the sliced sequence |
| JarvisTts.ChunkTextSizes | speech-to-text/websocket/jarvis/python/tts.py:135-138 | each chunk holds between 1 and `n` words, and every chunk but the last exactly `n` |
| JarvisTts.ChunkTextJoin | speech-to-text/websocket/jarvis/python/tts.py:135-138 | the chunks joined by spaces are the text's words joined by spaces: no word is lost, split or moved |
| JarvisTts.JoinGroups | speech-to-text/websocket/jarvis/python/tts.py:138 | joining the joined non-empty groups is joining their concatenation |
| JarvisTts.ChunkTextCount | speech-to-text/websocket/jarvis/python/tts.py:135-138 | there are ceil(words / n) chunks |
| JarvisTts.ChunkTextBlank | speech-to-text/websocket/jarvis/python/tts.py:135-138 | blank text gives no chunk at all |
| JarvisTts.SpeakAllRequests | speech-to-text/websocket/jarvis/python/tts.py:69-87 | `speak_all` sends one message per chunk, in order, each with the client's voice and sample rate; no chunk, no message |
| JarvisTts.Pieces | speech-to-text/websocket/jarvis/tts.py:107-108 | the queue items for a body are its 4800-byte slices, in order |
| JarvisTts.PiecesStep | speech-to-text/websocket/jarvis/tts.py:107-108 | one turn of the slicing loop takes the next slice of at most 4800 bytes |
| JarvisTts.Playable | speech-to-text/websocket/jarvis/tts.py:48-57 | the playback loop writes the queue items before the first sentinel, in order, and stops at the sentinel |
| JarvisTts.AfterSentinel | speech-to-text/websocket/jarvis/tts.py:48-57 | what stays queued after the playback loop is strictly shorter than the queue, or nothing |
| JarvisTts.PlayableCons | speech-to-text/websocket/jarvis/tts.py:50-55 | one turn of the playback loop: a sentinel ends it, audio is written and the loop goes on |
| JarvisTts.SentinelEndsPlayback | speech-to-text/websocket/jarvis/tts.py:53-54 | nothing queued behind the sentinel is played, and a queue without a sentinel is played whole before it |
| JarvisTts.PlayableAppend | speech-to-text/websocket/jarvis/tts.py:50-57 | audio queued behind other audio is played after it |
| JarvisTts.PiecesPlayBody | speech-to-text/websocket/jarvis/tts.py:104-108 | the pieces of a body hold no sentinel, are played whole, each 1 to 4800 bytes, all but the last exactly 4800, and together give the body back in order |
| JarvisTts.PlayablePieces | speech-to-text/websocket/jarvis/tts.py:50-55 | a queue of audio only is played item by item |
| JarvisTts.TtsClient.constructor | speech-to-text/websocket/jarvis/tts.py:40-46 | a new client has an empty queue, the stop flag down and no request |
| JarvisTts.TtsClient.Speak | speech-to-text/websocket/jarvis/tts.py:73-108 | blank text posts nothing and queues nothing; otherwise the text is posted, a non-200 answer queues nothing, and a 200 answer queues the body's slices in order |
| JarvisTts.TtsClient.QueuePieces | speech-to-text/websocket/jarvis/tts.py:107-108 | the slicing loop queues exactly `Pieces(body)` after what was queued |
| JarvisTts.TtsClient.Stop | speech-to-text/websocket/jarvis/tts.py:114-117 | stopping raises the flag and queues the sentinel |
| JarvisTts.TtsClient.PlayAudio | speech-to-text/websocket/jarvis/tts.py:48-57 | with the flag up nothing is written; otherwise the queue items before the sentinel are written in order and the rest stays queued |
| Jarvis.AfterWakeWord | speech-to-text/websocket/jarvis/python/jarvis.py:134 | the text a wake transcript leaves for the query is empty or stripped (non-empty, no white space at either end) |
| Jarvis.AfterFirstWakeWord | speech-to-text/websocket/jarvis/python/jarvis.py:134 | when "jarvis" occurs in the lowercased transcript, the query text is what follows its FIRST occurrence, stripped |
| Jarvis.CaptureCut | speech-to-text/websocket/jarvis/python/jarvis.py:143 | the cut made by the greedy `^.*jarvis` substitution is 0 or the end of a match with no line break before it, and no match ends later |
| Jarvis.CutIsMatch | speech-to-text/websocket/jarvis/python/jarvis.py:143 | the last "jarvis" on the first line ends a match of `^.*jarvis` |
| Jarvis.CutIsLongest | speech-to-text/websocket/jarvis/python/jarvis.py:143 | every match of `^.*jarvis` ends no later than the last "jarvis" on the first line |
| Jarvis.CaptureClean | speech-to-text/websocket/jarvis/python/jarvis.py:143 | the cleaned capture text is empty or stripped |
| Jarvis.Restarted | speech-to-text/websocket/jarvis/python/jarvis.py:151-158 | restarting the timer raises the timer version and changes nothing else, so every check armed earlier is stale |
| Jarvis.WakeWordStep | speech-to-text/websocket/jarvis/python/jarvis.py:122-139 | without "jarvis" in the lowercased transcript nothing changes; with it the assistant captures, with an empty history, both clocks at `now`, a newer timer, and the text after the wake word as the only buffered piece when it is non-empty |
| Jarvis.CaptureStep | speech-to-text/websocket/jarvis/python/jarvis.py:141-149 | capturing appends the cleaned text to the buffer only when it is non-empty, sets the transcript clock and restarts the timer; phase, history and speaking flag are kept |
| Jarvis.TranscriptStep | speech-to-text/websocket/jarvis/python/jarvis.py:104-115 | non-final or blank messages and any message while PROCESSING change nothing; otherwise the stripped transcript goes to the wake-word handler when LISTENING and to the capture handler when CAPTURING |
| Jarvis.Busy | speech-to-text/websocket/jarvis/python/jarvis.py:186-199 | before the LLM is asked the buffer is emptied, the phase is PROCESSING and the assistant is speaking |
| Jarvis.Recovered | speech-to-text/websocket/jarvis/python/jarvis.py:203-208 | after a STOP reply the assistant captures again, silent, with a newer timer, and keeps the buffer and the history |
| Jarvis.ProcessQueryAsWritten | speech-to-text/websocket/jarvis/python/jarvis.py:184-228 | as written, a processed query always empties the buffer and ends either in PROCESSING or in CAPTURING with a newer timer |
| Jarvis.ProcessQueryStep | speech-to-text/websocket/jarvis/python/jarvis.py:184-228 | with failed calls handled, a processed query always ends in CAPTURING with an empty buffer and a newer timer |
| Jarvis.SilenceStep | speech-to-text/websocket/jarvis/python/jarvis.py:160-170 | a check whose version is stale, or that runs outside CAPTURING, changes nothing |
| Jarvis.SilenceDecision | speech-to-text/websocket/jarvis/python/jarvis.py:171-180 | a current check while capturing changes nothing before 4.9 s have passed since the last transcript; after that a non-empty buffer makes the step exactly the processed query (`ProcessQueryStep`), and an empty one returns to LISTENING with no history after more than 60 s without a conversation, and otherwise only re-arms the timer |
| Jarvis.InitialGood | speech-to-text/websocket/jarvis/python/jarvis.py:54-63 | the state a new assistant starts in satisfies the handler invariant `Good` |
| Jarvis.Initial | speech-to-text/websocket/jarvis/python/jarvis.py:50-63 | defines the fields `__init__` sets: LISTENING, empty buffer and history, zero clocks and version, not speaking; `InitialGood` proves it satisfies the invariant |
| Jarvis.TranscriptKeepsGood | speech-to-text/websocket/jarvis/python/jarvis.py:99-115 | every STT message keeps the invariant: history of whole user/assistant pairs, buffer of stripped non-empty pieces, never PROCESSING or speaking between events, LISTENING with no query and no context |
| Jarvis.WakeWordKeepsGood | speech-to-text/websocket/jarvis/python/jarvis.py:122-139 | the wake-word handler keeps the invariant |
| Jarvis.Woken | speech-to-text/websocket/jarvis/python/jarvis.py:128-139 | a transcript holding the wake word leads to exactly the capturing state built from the text after it |
| Jarvis.WokenGood | speech-to-text/websocket/jarvis/python/jarvis.py:128-139 | that capturing state satisfies the invariant |
| Jarvis.CaptureKeepsGood | speech-to-text/websocket/jarvis/python/jarvis.py:141-149 | the capture handler keeps the invariant |
| Jarvis.Captured | speech-to-text/websocket/jarvis/python/jarvis.py:141-149 | a capture leads to exactly the state with the cleaned text appended (when non-empty), the clock set and the timer restarted |
| Jarvis.QueryOfBuffer | speech-to-text/websocket/jarvis/python/jarvis.py:186-189 | a non-empty buffer of stripped pieces joins to a non-empty query, so the empty-query branch is only taken for an empty buffer |
| Jarvis.Query | speech-to-text/websocket/jarvis/python/jarvis.py:186 | defines the query as `" ".join(query_buffer).strip()`; `QueryOfBuffer` proves a buffer of stripped pieces gives a non-empty query |
| Jarvis.ProcessQueryKeepsGood | speech-to-text/websocket/jarvis/python/jarvis.py:184-228 | processing a query (failures handled) keeps the invariant |
| Jarvis.ProcessQueryCases | speech-to-text/websocket/jarvis/python/jarvis.py:184-228 | processing splits into: empty query (restart capture), LLM raised (recover), or the reply handled after the busy state |
| Jarvis.ProcessQueryKeepsPairs | speech-to-text/websocket/jarvis/python/jarvis.py:222-223 | a history of whole user/assistant pairs stays one after any processed query |
| Jarvis.QueryKeepsPairs | speech-to-text/websocket/jarvis/python/jarvis.py:194-225 | the same for a non-empty query, whatever the reply and outcome |
| Jarvis.HistoryAfterQuery | speech-to-text/websocket/jarvis/python/jarvis.py:194-225 | for a non-empty query the assistant ends silent; a STOP reply or a failed call leaves the (possibly reset) history and conversation clock, a spoken reply appends the user query and the assistant answer and sets the clock to `later` |
| Jarvis.AfterReplyCases | speech-to-text/websocket/jarvis/python/jarvis.py:203-228 | the same history and clock outcome, stated for the step after the LLM replied |
| Jarvis.AfterReply | speech-to-text/websocket/jarvis/python/jarvis.py:201-229 | defines `_process_query` after the LLM answered, as written: STOP resumes capture, a raising TTS call leaves PROCESSING with speaking cleared, a spoken reply records the pair; `AfterReplyCases` and `HistoryAfterQuery` state the outcomes |
| Jarvis.SilenceKeepsGood | speech-to-text/websocket/jarvis/python/jarvis.py:160-182 | every silence check keeps the invariant |
| Jarvis.ContextOfGoodState | speech-to-text/websocket/jarvis/python/jarvis.py:201 | the context sent with any query keeps whole pairs and starts with a user entry |
| Jarvis.ProcessQueryHistory | speech-to-text/websocket/jarvis/python/jarvis.py:194-225 | from any reachable state: the history is reset after more than 60 s, then a spoken reply adds one user and one assistant entry, and a STOP reply adds nothing |
| Jarvis.EmptyQuerySkipsLlm | speech-to-text/websocket/jarvis/python/jarvis.py:186-192 | an empty joined query never consults the LLM or TTS: the result is the same for any LLM and outcome, a restarted capture with an empty buffer |
| Jarvis.StuckAfterFailedCall | speech-to-text/websocket/jarvis/python/jarvis.py:213-220 | as written, an LLM or TTS exception leaves the assistant in PROCESSING, where every later transcript and every silence check changes nothing |
| Jarvis.ProcessQueryRecovers | speech-to-text/websocket/jarvis/python/jarvis.py:184-228 | with failures handled the assistant always returns to CAPTURING, silent, with an empty buffer and a newer timer; on success it agrees with the code as written |
| Jarvis.SpokenQueryRecovers | speech-to-text/websocket/jarvis/python/jarvis.py:197-228 | for a non-empty query the assistant is never left speaking, and on success the step agrees with the code as written |
| Jarvis.JarvisAssistant.constructor | speech-to-text/websocket/jarvis/python/jarvis.py:50-63 | a new assistant is LISTENING with empty buffer and history, clocks and version at 0, not speaking |
| Jarvis.JarvisAssistant.ReceiveTranscript | speech-to-text/websocket/jarvis/python/jarvis.py:104-115 | the fields after one STT message are `TranscriptStep` of the fields before |
| Jarvis.JarvisAssistant.HandleWakeWord | speech-to-text/websocket/jarvis/python/jarvis.py:122-139 | the fields after the handler are `WakeWordStep` of the fields before |
| Jarvis.JarvisAssistant.Wake | speech-to-text/websocket/jarvis/python/jarvis.py:128-139 | the in-place updates of a wake: capturing, new buffer, cleared history, clocks set, timer restarted |
| Jarvis.JarvisAssistant.HandleCapture | speech-to-text/websocket/jarvis/python/jarvis.py:141-149 | the fields after the handler are `CaptureStep` of the fields before |
| Jarvis.JarvisAssistant.Capture | speech-to-text/websocket/jarvis/python/jarvis.py:144-149 | the in-place updates of a capture: append when non-empty, set the clock, restart the timer |
| Jarvis.JarvisAssistant.RestartTimer | speech-to-text/websocket/jarvis/python/jarvis.py:151-158 | the fields after a restart are `Restarted` of the fields before |
| Jarvis.JarvisAssistant.SilenceCheck | speech-to-text/websocket/jarvis/python/jarvis.py:160-182 | the fields after a silence check are `SilenceStep` of the fields before |
| Jarvis.JarvisAssistant.Recover | speech-to-text/websocket/jarvis/python/jarvis.py:203-208 | the fields after a STOP reply or failed call are `Recovered` of the fields before |
| Jarvis.JarvisAssistant.ProcessQuery | speech-to-text/websocket/jarvis/python/jarvis.py:184-228 | the fields after processing are `ProcessQueryStep` of the fields before |
| Jarvis.JarvisAssistant.StartProcessing | speech-to-text/websocket/jarvis/python/jarvis.py:186-199 | the fields once the query is taken are `Busy` of the fields before |
| Jarvis.JarvisAssistant.Reply | speech-to-text/websocket/jarvis/python/jarvis.py:203-228 | the fields after the reply is handled are the STOP, failed-speech or spoken-answer outcome of the fields before |
| Sentiment.Classify | voice-agents/background_agent/sentiment_analyzer.py:88-92 | the label is always one of the four; the stripped, lowercased reply when it is one of them, "neutral" otherwise |
| Sentiment.NextFrustration | voice-agents/background_agent/sentiment_analyzer.py:101-111 | "negative" or "frustrated" adds one, "positive" takes one off but never below zero, "neutral" keeps the count; a count never goes negative |
| Sentiment.FrustrationMonotone | voice-agents/background_agent/sentiment_analyzer.py:101-111 | for a label, the count rises exactly on "negative"/"frustrated" and falls exactly on "positive" when it was above zero |
| Sentiment.Sentiments | voice-agents/background_agent/sentiment_analyzer.py:127 | the labels of the history, one per entry, in order |
| Sentiment.LastN | voice-agents/background_agent/sentiment_analyzer.py:139 | Python's `xs[-n:]`: the last min(n, len) elements |
| Sentiment.SummaryOf | voice-agents/background_agent/sentiment_analyzer.py:122-140 | an empty history gives only "neutral" and an empty list; otherwise current label, count and the escalation flag (count at least 3), an overall label that is recorded and has a maximal count, and the last five entries (or all, when fewer) |
| Sentiment.SummaryOverall | voice-agents/background_agent/sentiment_analyzer.py:129-132 | the overall label is the first-seen most common label, as `Counter.most_common(1)` picks it |
| Sentiment.LabelledAppend | voice-agents/background_agent/sentiment_analyzer.py:96-99 | appending a labelled entry keeps every recorded label among the four |
| Sentiment.SentimentAnalyzer.constructor | voice-agents/background_agent/sentiment_analyzer.py:36-49 | a new analyzer has no history, "neutral" as current label, a zero count and the caller not speaking |
| Sentiment.SentimentAnalyzer.ShouldEscalate | voice-agents/background_agent/sentiment_analyzer.py:118-120 | escalation is due exactly when the count is at least 3 |
| Sentiment.SentimentAnalyzer.GetSentimentSummary | voice-agents/background_agent/sentiment_analyzer.py:122-140 | defines `get_sentiment_summary` on the analyzer's fields as `SummaryOf`, whose contract gives the empty-history answer and otherwise the five fields |
| Sentiment.SentimentAnalyzer.AnalyzeSentiment | voice-agents/background_agent/sentiment_analyzer.py:72-116 | a raising LLM call changes nothing; a reply sets the current label to its classification, appends the entry and updates the count; the count stays non-negative and every label one of the four |
| Sentiment.SentimentAnalyzer.UpdateFrustration | voice-agents/background_agent/sentiment_analyzer.py:101-111 | the count becomes `NextFrustration` of the old count and nothing else changes |
| Sentiment.SentimentAnalyzer.ProcessEvent | voice-agents/background_agent/sentiment_analyzer.py:51-70 | started/stopped-speaking events set and clear the speaking flag; only a caller transcript is analysed; every other event changes nothing |
| Sentiment.CustomerSentimentText | voice-agents/background_agent/support_agent.py:132-145 | the tool's text fails (a `KeyError`) exactly when the summary lacks the current label or count; otherwise it reads "Current sentiment: …. Overall mood: …. Frustration level: n/3 (escalation threshold)." |
| Sentiment.CustomerSentimentNeedsHistory | voice-agents/background_agent/support_agent.py:139-145 | asking for the customer's sentiment fails exactly when no sentiment has been recorded yet |
| Sentiment.SupportAgent.constructor | voice-agents/background_agent/support_agent.py:20-60 | the agent holds the analyzer it is given |
| Sentiment.SupportAgent.GenerateResponse | voice-agents/background_agent/support_agent.py:62-86 | when escalation is due the three apology lines are yielded, no LLM call is made and the count drops to 0; otherwise the LLM's pieces are passed on and the count kept; afterwards escalation is never due |
| Sentiment.SupportAgent.GetCustomerSentiment | voice-agents/background_agent/support_agent.py:132-145 | the tool fails exactly while the analyzer's history is empty |
| Sentiment.SupportAgent.CheckEscalationNeeded | voice-agents/background_agent/support_agent.py:147-155 | the "YES" answer exactly when the count is at least 3, the "NO" answer exactly when below |
| Sentiment.SupportAgent.TransferToSupervisor | voice-agents/background_agent/support_agent.py:167-177 | the fixed transfer notice is returned and the analyzer is not changed |
| Tally.MostCommon | voice-agents/background_agent/sentiment_analyzer.py:130-132 | `Counter.most_common(1)[0][0]`: an element of the list with a maximal count, the first such in order of first appearance |
| Tally.Count | voice-agents/background_agent/sentiment_analyzer.py:130-132 | the number of occurrences `Counter` records: at most the length, and positive exactly for present values |
| Profanity.MaskWord | voice-agents/language_switching/profanity_filter.py:58-60 | masking one word only turns characters into asterisks: same length, every other character kept |
| Profanity.MatchSurvivesMasking | voice-agents/language_switching/profanity_filter.py:58-60 | a match in masked text was already a match before masking, since an asterisk never matches a letter |
| Profanity.MaskWordRemovesAll | voice-agents/language_switching/profanity_filter.py:58-60 | after `pattern.sub`, no case-insensitive occurrence of the word is left |
| Profanity.MaskWordChangesOnlyMatches | voice-agents/language_switching/profanity_filter.py:58-60 | every character masking changes lies inside an occurrence of the word in the input |
| Profanity.MaskWordWithoutMatch | voice-agents/language_switching/profanity_filter.py:58-60 | text without an occurrence of the word comes back unchanged |
| Profanity.MaskingKeepsAbsence | voice-agents/language_switching/profanity_filter.py:56-60 | masking one word never creates an occurrence of another |
| Profanity.FilterText | voice-agents/language_switching/profanity_filter.py:52-62 | the filtered text is the input with some characters turned into asterisks |
| Profanity.MaskAll | voice-agents/language_switching/profanity_filter.py:56-60 | masking the words one after the other only turns characters into asterisks |
| Profanity.Filter | voice-agents/language_switching/profanity_filter.py:52-62 | the loop over the listed words, reassigning the result, computes `FilterText` |
| Profanity.FilterRemovesAll | voice-agents/language_switching/profanity_filter.py:52-62 | no listed word occurs in the filtered text, in any letter case |
| Profanity.FilterWithoutWords | voice-agents/language_switching/profanity_filter.py:52-62 | text containing none of the words is returned as it is |
| Profanity.FilterIdempotent | voice-agents/language_switching/profanity_filter.py:52-62 | filtering filtered text changes nothing |
| Profanity.FilterChangesOnlyWords | voice-agents/language_switching/profanity_filter.py:52-62 | every character the filter changes lies inside an occurrence, in the original text, of one of the listed words |
| Profanity.ProfanityFilter.constructor | voice-agents/language_switching/profanity_filter.py:30-32 | a new filter has counted nothing and sent nothing |
| Profanity.ProfanityFilter.ProcessEvent | voice-agents/language_switching/profanity_filter.py:34-50 | a response chunk is sent on filtered and counted exactly when filtering changed it; any other event is sent on unchanged; each event is sent once |
| Language.DetectedName | voice-agents/language_switching/language_detector.py:73 | a missing `language` key gives "english", a present one its lowercase form |
| Language.DetectStep | voice-agents/language_switching/language_detector.py:53-85 | a failed detection resets the language to "english" and keeps the history; a parsed reply appends its language to the history, and sets it as detected unless the log line after it raises, which resets it to "english" |
| Language.DetectionRecordsLanguage | voice-agents/language_switching/language_detector.py:73-75 | after a successful detection the detected language is the newest history entry, and the history grew by one |
| Language.DetectKeepsLower | voice-agents/language_switching/language_detector.py:73-84 | the history and the detected language stay lowercase |
| Language.PrimaryLanguage | voice-agents/language_switching/language_detector.py:87-94 | "english" for an empty history; otherwise a recorded language with a maximal count, ties going to the one seen first |
| Language.PrimaryOfUniform | voice-agents/language_switching/language_detector.py:87-94 | a history holding one language has that language as its primary one |
| Language.LanguageDetector.constructor | voice-agents/language_switching/language_detector.py:32-41 | a new detector has "english" detected, no history and sent nothing |
| Language.LanguageDetector.ProcessEvent | voice-agents/language_switching/language_detector.py:43-51 | every event is sent on exactly once, unchanged; only a caller transcript runs detection, every other event leaves the state as it was |
| Language.LanguageDetector.DetectLanguage | voice-agents/language_switching/language_detector.py:53-85 | the state after detection is `DetectStep` of the state before, nothing is sent |
| Language.LanguageDetector.GetPrimaryLanguage | voice-agents/language_switching/language_detector.py:87-94 | defines `get_primary_language` on the recorded history as `PrimaryLanguage`, whose contract gives "english" for no history and otherwise the first-seen most common language |
| Ivr.Names | voice-agents/inbound_ivr/ivr_agent.py:207 | the department names of a table, one per department, in order |
| Ivr.FindDepartment | voice-agents/inbound_ivr/ivr_agent.py:206-209 | a found department is in the table under that exact key; no result means no department has that name |
| Ivr.DepartmentLines | voice-agents/inbound_ivr/ivr_agent.py:183-187 | one "Name: description (Hours: hours)" line per department, in table order |
| Ivr.GetDepartments | voice-agents/inbound_ivr/ivr_agent.py:178-188 | the loop collecting the lines returns them joined by newlines, in declaration order |
| Ivr.LineWithoutNewline | voice-agents/inbound_ivr/ivr_agent.py:186 | a department line holds no newline when its fields hold none |
| Ivr.DepartmentListing | voice-agents/inbound_ivr/ivr_agent.py:178-188 | splitting the listing at newlines gives back exactly one line per department, in table order, each opening with the title-cased name |
| Ivr.LineStartsWithName | voice-agents/inbound_ivr/ivr_agent.py:186 | each line starts with the title-cased name and ": " |
| Ivr.TransferStep | voice-agents/inbound_ivr/ivr_agent.py:191-237 | an unknown (lowercased) name changes nothing, sends nothing and names the departments; a known one records the lowercased name, adds exactly one to the count, sends one event to the department's number with hold music, warm (with the briefing naming department and reason) exactly when asked, and answers with the title-cased department |
| Ivr.TransferReply | voice-agents/inbound_ivr/ivr_agent.py:237 | defines the reply after a transfer: "Transferring to {Title} department."; `TransferStep` states when it is given |
| Ivr.TransferFound | voice-agents/inbound_ivr/ivr_agent.py:209-237 | for a known department the new state is exactly the recorded name, the count plus one and the one appended event |
| Ivr.InitialConsistent | voice-agents/inbound_ivr/ivr_agent.py:72-73 | the starting state has counted no transfer, remembered no department and sent no event |
| Ivr.TransferKeepsConsistent | voice-agents/inbound_ivr/ivr_agent.py:209-235 | every call of the tool keeps the count equal to the number of transfer events sent and the remembered department the one the last transfer went to |
| Ivr.TransferIgnoresCase | voice-agents/inbound_ivr/ivr_agent.py:204 | names differing only in letter case transfer alike |
| Ivr.IvrAgent.constructor | voice-agents/inbound_ivr/ivr_agent.py:72-73 | a new agent has no intent, a zero count and sent nothing |
| Ivr.IvrAgent.TransferToDepartment | voice-agents/inbound_ivr/ivr_agent.py:191-237 | the state and reply after the tool are `TransferStep` of the state before |
| Ivr.IvrAgent.SendTransfer | voice-agents/inbound_ivr/ivr_agent.py:209-235 | the found-department branch records the name, counts the transfer and appends its one event |
| Interrupt.SetStep | voice-agents/interrupt_control/configurable_agent.py:136-154 | enabling unmutes and sends an unmute event, disabling mutes and sends a mute event; nothing else is sent |
| Interrupt.SettingsReport | voice-agents/interrupt_control/configurable_agent.py:131-134 | `check_settings` reports "User muted: " followed by the flag as Python renders it |
| Interrupt.ToolStep | voice-agents/interrupt_control/configurable_agent.py:131-160 | `check_settings` changes nothing; `end_call` only sends the end-call event |
| Interrupt.ToolsStepSnoc | voice-agents/interrupt_control/configurable_agent.py:90-93 | running the first i + 1 of a response's tool calls in order is running the first i, then call i (the source runs them with `parallel=True`; see Left out) |
| Interrupt.ToolsStep | voice-agents/interrupt_control/configurable_agent.py:90-93 | defines a response's tool calls run one after another, in order (the source runs them in parallel; see Left out); `ToolsStepAgrees` and `MutedByLastSet` state what it keeps |
| Interrupt.ResponseStep | voice-agents/interrupt_control/configurable_agent.py:68-129 | defines a whole response: the tool calls, then the auto-unmute; `ResponseAgrees` proves it ends unmuted with the flag agreeing with the events |
| Interrupt.AutoUnmute | voice-agents/interrupt_control/configurable_agent.py:125-129 | at the end of a response the caller is unmuted; the unmute event is sent when the caller was muted, and otherwise nothing changes |
| Interrupt.LastControl | voice-agents/interrupt_control/configurable_agent.py:143-154 | the last mute or unmute event sent is never the end-call event |
| Interrupt.InitialAgrees | voice-agents/interrupt_control/configurable_agent.py:41 | a new agent's flag (false) agrees with having sent no mute event |
| Interrupt.ToolStepAgrees | voice-agents/interrupt_control/configurable_agent.py:131-160 | every tool keeps the flag equal to what the last mute/unmute event sent says |
| Interrupt.ToolsStepAgrees | voice-agents/interrupt_control/configurable_agent.py:90-93 | so does any sequence of tools |
| Interrupt.ResponseAgrees | voice-agents/interrupt_control/configurable_agent.py:68-129 | a response keeps the flag in agreement with the events and always ends with the caller unmuted |
| Interrupt.MutedAfterTools | voice-agents/interrupt_control/configurable_agent.py:136-154 | after the tools the last `set_interruptible` call decides the flag; without one it is kept |
| Interrupt.MutedByLastSet | voice-agents/interrupt_control/configurable_agent.py:136-154 | the last `set_interruptible` call decides the flag |
| Interrupt.MutedKept | voice-agents/interrupt_control/configurable_agent.py:131-160 | tools other than `set_interruptible` keep the flag |
| Interrupt.AutoUnmuteSentWhenMuted | voice-agents/interrupt_control/configurable_agent.py:126-128 | the auto-unmute event is sent exactly when the tools left the caller muted |
| Interrupt.ConfigurableAgent.constructor | voice-agents/interrupt_control/configurable_agent.py:41 | a new agent has the caller unmuted and sent nothing |
| Interrupt.ConfigurableAgent.SetInterruptible | voice-agents/interrupt_control/configurable_agent.py:136-154 | the state and reply after the tool are `SetStep` of the state before |
| Interrupt.ConfigurableAgent.EndCallNow | voice-agents/interrupt_control/configurable_agent.py:156-160 | ending the call only sends the end-call event |
| Interrupt.ConfigurableAgent.RunTool | voice-agents/interrupt_control/configurable_agent.py:90-93 | one tool call moves the state by `ToolStep` |
| Interrupt.ConfigurableAgent.GenerateResponse | voice-agents/interrupt_control/configurable_agent.py:68-129 | the state after a response is `ResponseStep` of the state before, and the caller is unmuted |
| Assistant.AppointmentLines | atoms/agent_with_tools/assistant_agent.py:138-139 | one line per appointment, numbered from 1 in booking order |
| Assistant.ListingIsJoin | atoms/agent_with_tools/assistant_agent.py:137-140 | the accumulated listing is the header and the numbered lines joined by newlines, with a final newline |
| Assistant.Listing | atoms/agent_with_tools/assistant_agent.py:132-140 | defines the answer of `list_appointments`: the fixed text for an empty book, else the header and one numbered line per appointment, each followed by a newline; `ListingIsJoin`, `ListingLines` and `ListingAfterBooking` state its form |
| Assistant.ListingLines | atoms/agent_with_tools/assistant_agent.py:134-140 | for appointments without newlines, splitting a non-empty listing gives the header, one numbered line per appointment in booking order, and the empty piece after the final newline |
| Assistant.ListingAsJoin | atoms/agent_with_tools/assistant_agent.py:137-140 | a non-empty listing is the header, the lines and an empty last piece joined by newlines |
| Assistant.ListingAfterBooking | atoms/agent_with_tools/assistant_agent.py:127-140 | booking one more appointment adds exactly its numbered line at the end of the listing (after the header when the book was empty) |
| Assistant.GetWeather | atoms/agent_with_tools/assistant_agent.py:100-116 | a known city, matched case-insensitively, gets its table entry; any other city the default; the city is echoed as given |
| Assistant.WeatherIgnoresCase | atoms/agent_with_tools/assistant_agent.py:113-116 | two spellings of a city differing only in letter case get the same weather |
| Assistant.AssistantAgent.constructor | atoms/agent_with_tools/assistant_agent.py:28-29 | a new agent has no appointments |
| Assistant.AssistantAgent.BookAppointment | atoms/agent_with_tools/assistant_agent.py:118-129 | exactly one appointment is appended at the end, earlier ones unchanged, and the confirmation names it |
| Assistant.BookingReply | atoms/agent_with_tools/assistant_agent.py:129 | defines the confirmation text of `book_appointment`, which `BookAppointment` returns |
| Assistant.AssistantAgent.ListAppointments | atoms/agent_with_tools/assistant_agent.py:131-140 | the loop returns "You have no upcoming appointments." for an empty book and otherwise the numbered listing, changing nothing |
| Emotion.SpeakerLabel | speech-to-text/emotion-analyzer/backend/app.py:120 | a segment's speaker is "Speaker " followed by the utterance's speaker, or "?" when it is missing |
| Emotion.MergeStep | speech-to-text/emotion-analyzer/backend/app.py:113-123 | one turn of the merge loop keeps one opening key per segment |
| Emotion.Merge | speech-to-text/emotion-analyzer/backend/app.py:111-123 | the merge has one opening key per segment, never more segments than utterances, a segment as soon as there is an utterance, and the last utterance's key as the last opened key |
| Emotion.MergeStepConsistent | speech-to-text/emotion-analyzer/backend/app.py:114-123 | one turn keeps every segment's times and speaker label those of the utterance that opened it |
| Emotion.MergeConsistent | speech-to-text/emotion-analyzer/backend/app.py:111-123 | every merged segment's start, end (missing as 0) and speaker label come from the utterance that opened it |
| Emotion.MergeStepText | speech-to-text/emotion-analyzer/backend/app.py:114-122 | one turn appends the utterance's text (missing as "") to the merged texts |
| Emotion.MergeKeepsText | speech-to-text/emotion-analyzer/backend/app.py:114-122 | the merged segment texts, concatenated, are the utterance texts concatenated in order: nothing lost or reordered |
| Emotion.MergeStepKeys | speech-to-text/emotion-analyzer/backend/app.py:113-123 | one turn keeps adjacent opening keys different, and adds a segment exactly when the key differs from the last opened one |
| Emotion.MergeAdjacentKeysDiffer | speech-to-text/emotion-analyzer/backend/app.py:113-123 | consecutive segments were opened by different raw (start, end, speaker) keys |
| Emotion.MergeCountsKeyChanges | speech-to-text/emotion-analyzer/backend/app.py:113-123 | the number of segments is the number of positions where the key differs from the previous utterance's |
| Emotion.MergeUtterances | speech-to-text/emotion-analyzer/backend/app.py:111-123 | the loop in `analyze` builds exactly `Merge(utterances)` |
| Emotion.MergeSnoc | speech-to-text/emotion-analyzer/backend/app.py:112 | merging one more utterance is one more turn of the loop |
| Emotion.AddUtterance | speech-to-text/emotion-analyzer/backend/app.py:113-123 | one turn of the loop in place: the segments and the previous key become those of the merge of one more utterance |
| Emotion.ProcessUtterance | speech-to-text/emotion-analyzer/backend/app.py:60-79 | a segment under 0.5 s is skipped with no emotions and no request; otherwise a request is made and the emotions are the reply's (empty when the key is absent), none when it failed; index, text, speaker and times are the segment's |
| Emotion.Results | speech-to-text/emotion-analyzer/backend/app.py:140-157 | one result per segment, in segment order, each that of `process_utterance` with the index key dropped |
| Emotion.SegmentSpeakers | speech-to-text/emotion-analyzer/backend/app.py:145-146 | the speaker of each segment, in order |
| Emotion.AnalyzeErrors | speech-to-text/emotion-analyzer/backend/app.py:88-134 | a missing API key gives 500; a missing file 400; no utterances the fixed 400 message; the analysis is returned exactly when every check passes and the audio decodes |
| Emotion.AnalyzeSpec | speech-to-text/emotion-analyzer/backend/app.py:88-165 | defines the handler's answer: the 500, 400, 502, 400 and decode-400 checks in order, then `Report`; `AnalyzeErrors` states each error status and when the analysis is returned |
| Emotion.Report | speech-to-text/emotion-analyzer/backend/app.py:140-165 | defines the successful response: the transcription text, the sorted distinct speakers and one result per merged segment; `ReportSegments` and `SpeakersListed` state its parts |
| Emotion.ReportSegments | speech-to-text/emotion-analyzer/backend/app.py:140-164 | a successful analysis has one result per merged segment, in segment order, no more than there were utterances, each with its segment's text, speaker and skip flag |
| Emotion.SpeakersListed | speech-to-text/emotion-analyzer/backend/app.py:141-163 | the response's speakers are strictly increasing, each listed once, and exactly the segments' speakers |
| Emotion.ProcessSegments | speech-to-text/emotion-analyzer/backend/app.py:140-157 | the loop over the segments records every speaker and fills the results by index, as `Results` says |
| Emotion.Analyze | speech-to-text/emotion-analyzer/backend/app.py:87-165 | the handler returns `AnalyzeSpec` of its inputs |
| Ordering.IncreasingIsStrict | speech-to-text/emotion-analyzer/backend/app.py:163 | an increasing list of strings is strictly increasing, so duplicate-free |
| Ordering.Insert | speech-to-text/emotion-analyzer/backend/app.py:163 | inserting into an increasing list keeps it increasing and adds exactly the new element |
| Ordering.SortDistinct | speech-to-text/emotion-analyzer/backend/app.py:163 | `sorted(set(xs))`: increasing, and holding exactly the elements of `xs` |
| Ordering.SortDistinctOnce | speech-to-text/emotion-analyzer/backend/app.py:163 | each element is listed once |
| Ordering.IncreasingUnique | speech-to-text/emotion-analyzer/backend/app.py:163 | two increasing lists with the same elements are equal, so the sorted result does not depend on the set's iteration order |
| Ordering.SortDistinctOfSameElements | speech-to-text/emotion-analyzer/backend/app.py:141-163 | lists with the same elements give the same sorted result |
| Ordering.LessTransitive | speech-to-text/emotion-analyzer/backend/app.py:163 | code-point order on strings is transitive |
| Ordering.LessTotal | speech-to-text/emotion-analyzer/backend/app.py:163 | and total on distinct strings |
| Ordering.LessIrreflexive | speech-to-text/emotion-analyzer/backend/app.py:163 | and irreflexive |
| YouTube.MatchAt | speech-to-text/youtube-summarizer/python/summarize.py:75-76 | a pattern matches at a position exactly when one of its alternatives occurs there followed by 11 id characters, and the match is those 11 characters |
| YouTube.Search | speech-to-text/youtube-summarizer/python/summarize.py:79 | `re.search`: a found match is at the leftmost position where the pattern matches, and no match means the pattern matches nowhere |
| YouTube.ExtractVideoId | speech-to-text/youtube-summarizer/python/summarize.py:72-82 | a returned id is always exactly 11 characters from [A-Za-z0-9_-]; a failure carries the "Could not extract video ID from URL" message |
| YouTube.SearchFindsFirst | speech-to-text/youtube-summarizer/python/summarize.py:79 | the search returns the leftmost match |
| YouTube.ExtractLeftmostFirst | speech-to-text/youtube-summarizer/python/summarize.py:74-81 | when the watch/short-link/embed pattern matches, its leftmost match is the id |
| YouTube.ExtractLeftmostSecond | speech-to-text/youtube-summarizer/python/summarize.py:74-81 | only when it matches nowhere is the shorts pattern tried, and its leftmost match is the id |
| YouTube.SearchFindsNothing | speech-to-text/youtube-summarizer/python/summarize.py:79 | a pattern that matches nowhere finds nothing |
| YouTube.ExtractFails | speech-to-text/youtube-summarizer/python/summarize.py:78-82 | extraction fails exactly when neither pattern matches anywhere |
| YouTube.NoMatchWithoutY | speech-to-text/youtube-summarizer/python/summarize.py:75 | no alternative can match at a character other than 'y' |
| YouTube.MatchAfterAlternative | speech-to-text/youtube-summarizer/python/summarize.py:75 | an alternative followed by an id matches with that id, even when more id characters follow (no end anchor) |
| YouTube.WatchLinkRoundTrip | speech-to-text/youtube-summarizer/python/summarize.py:237 | the watch link written into the summary file extracts back to its id |
| YouTube.WatchLink | speech-to-text/youtube-summarizer/python/summarize.py:237 | defines the watch link written into the summary file; `WatchLinkRoundTrip` proves the video id extracts back from it |
| YouTube.PrefixedIdRoundTrip | speech-to-text/youtube-summarizer/python/summarize.py:75 | any prefix without a 'y', then "youtube.com/watch?v=", an id and anything after it extracts to that id |
| YouTube.OutputFilesOf | speech-to-text/youtube-summarizer/python/summarize.py:218-234 | each output name starts with the video id |
| YouTube.OutputFilesSafe | speech-to-text/youtube-summarizer/python/summarize.py:218-234 | for a valid id the three names "{id}.mp3", "{id}_transcript.txt", "{id}_summary.md" differ and hold no path separator |
| YouTube.SummaryDocument | speech-to-text/youtube-summarizer/python/summarize.py:233-238 | defines the summary file: the title, the watch-link line, then the summary text |
| YouTube.SummaryDocumentParts | speech-to-text/youtube-summarizer/python/summarize.py:233-238 | the summary file starts with its title, contains the video's watch link and ends with the summary text unchanged |
| Streaming.Fields | blog-code-samples/pulse-stt-developer-guide/python/websocket/streaming_client.py:73 | one "key=value" field per parameter, in order |
| Streaming.BuildUrl | blog-code-samples/pulse-stt-developer-guide/python/websocket/streaming_client.py:65-74 | the URL is the fixed endpoint, "?", then the query |
| Streaming.ParseQuery | blog-code-samples/pulse-stt-developer-guide/python/websocket/streaming_client.py:73 | reading a query back gives one parameter per "&"-separated piece |
| Streaming.FieldRoundTrip | blog-code-samples/pulse-stt-developer-guide/python/websocket/streaming_client.py:73 | a field whose key holds no "=" reads back as its parameter |
| Streaming.QueryRoundTrip | blog-code-samples/pulse-stt-developer-guide/python/websocket/streaming_client.py:73 | parameters whose keys hold no "=" and whose keys and values hold no "&" read back from the joined query unchanged, in order |
| Streaming.Query | blog-code-samples/pulse-stt-developer-guide/python/websocket/streaming_client.py:73 | defines the query string as the `k=v` fields joined by "&"; `QueryRoundTrip` proves `ParseQuery` reads it back |
| Streaming.BuildUrlRoundTrip | blog-code-samples/pulse-stt-developer-guide/python/websocket/streaming_client.py:65-74 | for a language without "&", the URL's query reads back as exactly the five parameters in fixed order: language, encoding=linear16, sample_rate, word_timestamps=true, full_transcript=true |
| Streaming.ParamsEncodable | blog-code-samples/pulse-stt-developer-guide/python/websocket/streaming_client.py:66-72 | the five parameters are unescaped-safe when the language holds no "&" |
| Streaming.Receive | blog-code-samples/pulse-stt-developer-guide/python/websocket/streaming_client.py:80-95 | a message reaches the callback exactly when it is not an error and has a non-empty transcript, with is_final true only when the message says so; an error whose message contains "timed out" in any case is skipped silently, any other error is reported with its message ("Unknown error" when absent); unparseable messages are reported as parse errors; JSON that is not an object, and only that, ends the loop |
| Streaming.TimeoutIgnoresCase | blog-code-samples/pulse-stt-developer-guide/python/websocket/streaming_client.py:85 | the timeout test ignores letter case |
| Streaming.Handled | blog-code-samples/pulse-stt-developer-guide/python/websocket/streaming_client.py:78-97 | the messages the loop gets through are a prefix of those received, hold no non-object message, and are followed by one when they stop short |
| Streaming.NothingAfterNotObject | blog-code-samples/pulse-stt-developer-guide/python/websocket/streaming_client.py:78-97 | after a message that is not a JSON object no later message is handled |
| Streaming.ReceivedSnoc | blog-code-samples/pulse-stt-developer-guide/python/websocket/streaming_client.py:79-95 | messages are handled one after the other, in arrival order |
| Streaming.Calls | blog-code-samples/pulse-stt-developer-guide/python/websocket/streaming_client.py:90-92 | defines the `on_transcript` calls for a run of messages, in order; `CallsFromTranscripts` and `CollectedAreFinalTranscripts` state which messages produce them |
| Streaming.CallsFromTranscripts | blog-code-samples/pulse-stt-developer-guide/python/websocket/streaming_client.py:90-92 | every callback call carries the non-empty transcript of a non-error message |
| Streaming.TimeoutsNeverReported | blog-code-samples/pulse-stt-developer-guide/python/websocket/streaming_client.py:83-88 | no reported API error is a timeout |
| Streaming.FinalsAppend | blog-code-samples/pulse-stt-developer-guide/python/websocket/streaming_client.py:230-232 | the kept final transcripts of a longer stream extend those of its prefix |
| Streaming.CollectedAreFinalTranscripts | blog-code-samples/pulse-stt-developer-guide/python/websocket/streaming_client.py:230-232 | the transcripts `main` collects are exactly the non-empty final transcripts, in arrival order |
| Streaming.FinalTranscripts | blog-code-samples/pulse-stt-developer-guide/python/websocket/streaming_client.py:230-232 | defines the final transcripts read straight off the messages; `CollectedAreFinalTranscripts` proves `main` collects exactly these |
| Streaming.JoinContainsEach | blog-code-samples/pulse-stt-developer-guide/python/websocket/streaming_client.py:252 | each joined transcript occurs in the joined text |
| Streaming.SessionTranscript | blog-code-samples/pulse-stt-developer-guide/python/websocket/streaming_client.py:230-252 | with no final transcript the full transcript is "(no speech detected)"; otherwise it contains every final transcript |
| Streaming.AudioFrames | blog-code-samples/pulse-stt-developer-guide/python/websocket/streaming_client.py:148-151 | one binary frame per slice, in order |
| Streaming.StreamedPrefix | blog-code-samples/pulse-stt-developer-guide/python/websocket/streaming_client.py:143-160 | every frame but the last is a binary slice of 1 to 3200 bytes; a text frame can only be the last one and is the end marker |
| Streaming.Streamed | blog-code-samples/pulse-stt-developer-guide/python/websocket/streaming_client.py:135-162 | defines what the server receives from `_stream_file`: 3200-byte slices while running and while the connection accepts them, then the end marker if still open; `StreamedPrefix`, `StreamedWhole` and `EndMarkerWhenOpen` state its shape |
| Streaming.StreamedWhole | blog-code-samples/pulse-stt-developer-guide/python/websocket/streaming_client.py:143-160 | when the connection stays open, the binary frames concatenate to the audio in order and the end marker follows them |
| Streaming.EndMarkerWhenOpen | blog-code-samples/pulse-stt-developer-guide/python/websocket/streaming_client.py:144-162 | a stopped client sends no audio but still sends the end marker when the connection is open; a connection that closes mid-stream receives the slices it accepted and nothing after |
| Streaming.PayloadsOfAudio | blog-code-samples/pulse-stt-developer-guide/python/websocket/streaming_client.py:148-151 | the payloads of the binary frames are the slices |
| Streaming.FrameStep | blog-code-samples/pulse-stt-developer-guide/python/websocket/streaming_client.py:144-151 | one turn of the sending loop sends the next slice of at most 3200 bytes |
| Streaming.LoopExit | blog-code-samples/pulse-stt-developer-guide/python/websocket/streaming_client.py:144-153 | the sending loop stops after min(slices, frames the connection accepts) slices when running, and after none when stopped |
| Streaming.Connection.constructor | blog-code-samples/pulse-stt-developer-guide/python/websocket/streaming_client.py:180-185 | a new connection has sent nothing |
| Streaming.Connection.Send | blog-code-samples/pulse-stt-developer-guide/python/websocket/streaming_client.py:151-162 | a send succeeds exactly while the connection still accepts frames, and only a successful send adds the frame |
| Streaming.PulseStreamingClient.constructor | blog-code-samples/pulse-stt-developer-guide/python/websocket/streaming_client.py:45-57 | a new client keeps its language and sample rate, has no connection, is not running and has delivered nothing |
| Streaming.PulseStreamingClient.Connected | blog-code-samples/pulse-stt-developer-guide/python/websocket/streaming_client.py:169-185 | connecting sets the connection and the running flag |
| Streaming.PulseStreamingClient.Stop | blog-code-samples/pulse-stt-developer-guide/python/websocket/streaming_client.py:210-212 | stopping clears only the running flag |
| Streaming.PulseStreamingClient.ReceiveTranscripts | blog-code-samples/pulse-stt-developer-guide/python/websocket/streaming_client.py:76-98 | the loop delivers `Calls` and reports `Reported` of the messages before the first one that is not a JSON object, after what came before; nothing after that message is handled |
| Streaming.PulseStreamingClient.HandleMessage | blog-code-samples/pulse-stt-developer-guide/python/websocket/streaming_client.py:80-95 | one message adds its callback call or its report, and says whether it raised out of the loop (exactly when it is not a JSON object) |
| Streaming.PulseStreamingClient.StreamFile | blog-code-samples/pulse-stt-developer-guide/python/websocket/streaming_client.py:135-162 | the frames sent are exactly `Streamed` of the audio, the running flag and the frames the connection still accepts |
| Streaming.PulseStreamingClient.SendSlices | blog-code-samples/pulse-stt-developer-guide/python/websocket/streaming_client.py:143-153 | the loop sends the first min(slices, accepted) slices in order when running, none otherwise |
| AudioChunks.Slices | blog-code-samples/pulse-stt-developer-guide/utils/audio_preprocessing.py:112 | one slice of the audio per span, in order |
| AudioChunks.SpansSliceAudio | blog-code-samples/pulse-stt-developer-guide/utils/audio_preprocessing.py:111-112 | slicing the audio at the loop's spans from any start gives the fixed-size chunks of the rest of the audio |
| AudioChunks.ChunksCoverRecording | blog-code-samples/pulse-stt-developer-guide/utils/audio_preprocessing.py:111-112 | the chunks, concatenated in order, are the whole recording: contiguous, non-overlapping, nothing lost |
| AudioChunks.SpansCount | blog-code-samples/pulse-stt-developer-guide/utils/audio_preprocessing.py:100-111 | for a positive length the loop makes exactly `num_chunks` = ceil(total / d) chunks |
| AudioChunks.NumChunks | blog-code-samples/pulse-stt-developer-guide/utils/audio_preprocessing.py:100 | defines `num_chunks` as `(total + d - 1) // d`; `SpansCount` proves it equals the number of chunks the loop cuts |
| AudioChunks.Spans | blog-code-samples/pulse-stt-developer-guide/utils/audio_preprocessing.py:111-112 | defines the `[start, start + d)` spans of `range(0, total, d)`, clamped to the recording; `ChunksCoverRecording` and `SpanBounds` state that they tile the recording |
| AudioChunks.SpanBounds | blog-code-samples/pulse-stt-developer-guide/utils/audio_preprocessing.py:111-112 | chunk i spans [i·d, min((i+1)·d, total)) |
| AudioChunks.SpansStep | blog-code-samples/pulse-stt-developer-guide/utils/audio_preprocessing.py:111 | one turn of the loop takes the next span and moves the start on by d |
| AudioChunks.PathsSnoc | blog-code-samples/pulse-stt-developer-guide/utils/audio_preprocessing.py:113-116 | appending the next chunk's path keeps path i at index i |
| AudioChunks.ChunkPath | blog-code-samples/pulse-stt-developer-guide/utils/audio_preprocessing.py:113 | defines the chunk file name `{dir}/{stem}_chunk_{i:03d}.wav`, without path normalisation; `ChunkPathsDistinct` proves distinct indices give distinct names |
| AudioChunks.ChunkLongAudio | blog-code-samples/pulse-stt-developer-guide/utils/audio_preprocessing.py:99-119 | a negative length makes no chunk; a positive one gives the spans above, in order, with one file per span named "{dir}/{stem}_chunk_{i:03d}.wav" at index i |
| AudioChunks.LeadingDigit | blog-code-samples/pulse-stt-developer-guide/utils/audio_preprocessing.py:113 | a decimal rendering starts with '0' only for 0, and numbers from 10 on have at least two digits |
| AudioChunks.NatToStringInjective | blog-code-samples/pulse-stt-developer-guide/utils/audio_preprocessing.py:113 | distinct numbers have distinct decimal renderings |
| AudioChunks.Pad3Injective | blog-code-samples/pulse-stt-developer-guide/utils/audio_preprocessing.py:113 | distinct chunk indices have distinct `{i:03d}` renderings, also past 999 |
| AudioChunks.PaddingMismatch | blog-code-samples/pulse-stt-developer-guide/utils/audio_preprocessing.py:113 | renderings with different digit counts never pad to the same text |
| AudioChunks.ChunkPathsDistinct | blog-code-samples/pulse-stt-developer-guide/utils/audio_preprocessing.py:113 | two chunks of one run never share a file name, so no chunk overwrites another |
| AudioChunks.LastPos | blog-code-samples/pulse-stt-developer-guide/utils/audio_preprocessing.py:172 | the position of the last occurrence of a character, none exactly when it does not occur |
| AudioChunks.DefaultNameAtLastDot | blog-code-samples/pulse-stt-developer-guide/utils/audio_preprocessing.py:172 | `rsplit(".", 1)[0]` is the whole name when there is no dot, and otherwise the text before the last dot |
| AudioChunks.ConvertDefaults | blog-code-samples/pulse-stt-developer-guide/utils/audio_preprocessing.py:171-173 | without an output argument the converted file is the input up to its last dot followed by "_16k.wav" |
| AudioChunks.MainAction | blog-code-samples/pulse-stt-developer-guide/utils/audio_preprocessing.py:135-175 | defines the option handling of `main`: exit for a missing input, then `--info`, then `--chunk` with the default "./chunks" and seconds times 1000, else conversion to the default name; `ConvertDefaults`, `ChunkDefaults` and `MissingInputStops` state the cases |
| AudioChunks.ChunkDefaults | blog-code-samples/pulse-stt-developer-guide/utils/audio_preprocessing.py:164-170 | with `--chunk` and no other option the input is cut into 300 000 ms chunks under "./chunks"; the paths are not normalised, so they keep the "./" that `pathlib` drops |
| AudioChunks.MissingInputStops | blog-code-samples/pulse-stt-developer-guide/utils/audio_preprocessing.py:148-150 | a missing input file stops `main` before any action; an existing one always leads to an action |
| Analytics.ZeroDurationUnknown | voice-agents/analytics/get_calls.py:25-26 | a zero duration formats as "N/A", not "0m 0s" |
| Analytics.DurationParts | voice-agents/analytics/get_calls.py:27-29 | for a positive duration 0 ≤ s < 60 and 60·m + s is the duration, and the text is "{m}m {s}s" |
| Analytics.FormatDuration | voice-agents/analytics/get_calls.py:23-29 | defines `format_duration`: "N/A" for a missing or zero duration, else `{m}m {s}s` with floor division by 60; its meaning is fixed by `DurationParts`, `DurationRoundTrip` and `ZeroDurationUnknown` |
| Analytics.DigitsRoundTrip | voice-agents/analytics/get_calls.py:29 | reading back the decimal rendering of a number gives the number |
| Analytics.DurationRoundTrip | voice-agents/analytics/get_calls.py:23-29 | reading a formatted positive duration back (minutes·60 + seconds) gives the duration: the format loses nothing |
| Analytics.MinutesField | voice-agents/analytics/get_calls.py:29 | the minutes field of "{m}m {s}s" is the text before the first "m" |
| Analytics.FormatTimestamp | voice-agents/analytics/get_calls.py:32-40 | an absent or empty timestamp is "N/A"; one that parses gives its reformatted text; one that does not gives its first 16 characters (all of it when shorter) |
| Analytics.TotalOf | voice-agents/analytics/get_calls.py:71-72 | the "total" count is the reported one when present, otherwise the number of calls returned |
| Analytics.WithId | voice-agents/analytics/export_transcripts.py:58-61 | the number of calls with a non-empty id, never more than the calls |
| Analytics.SelectedAppend | voice-agents/analytics/export_transcripts.py:56-77 | selecting from two lists in turn is selecting from their concatenation |
| Analytics.Selected | voice-agents/analytics/export_transcripts.py:58-78 | defines the records `main` collects: one per call with a truthy `callId`, fetched in list order, id-less calls skipped; `SelectedCount` and `SelectRecords` state its size and the loop it specifies |
| Analytics.SelectedCount | voice-agents/analytics/export_transcripts.py:56-77 | exactly as many records as calls with an id, so at most the calls fetched, and every record has a non-empty id |
| Analytics.SelectRecords | voice-agents/analytics/export_transcripts.py:56-77 | the loop with its `continue` for calls without an id builds exactly `Selected(calls)` |
| Analytics.SelectedSnoc | voice-agents/analytics/export_transcripts.py:56-77 | one more call adds its record, or nothing when it has no id |
| Analytics.ExportOf | voice-agents/analytics/export_transcripts.py:50-106 | no calls means no file; otherwise JSON is written exactly when the format is "json" or the path ends with ".json", holding the selected records, and otherwise the text layout of those records |
| Analytics.ExportWithoutIds | voice-agents/analytics/export_transcripts.py:56-86 | calls none of which has an id still give an export, of no records |
| Analytics.TurnLines | voice-agents/analytics/export_transcripts.py:96-100 | one transcript line per turn, in order |
| Analytics.TurnLabel | voice-agents/analytics/export_transcripts.py:97-100 | a transcript line starts with "Agent: " exactly when the role is "agent", and with "User: " otherwise |
| Analytics.HeadLines | voice-agents/analytics/export_transcripts.py:90-95 | a record opens with the rule of 60 "=", the id, date, duration, numbers lines and the rule of 60 "-" |
| Analytics.RecordLayout | voice-agents/analytics/export_transcripts.py:88-106 | each record opens with the 60 "=" rule and ends with a blank line; its turn lines follow the six head lines in order; it has 7 + turns lines without a summary and 9 + turns with one, the summary text then at line 7 + turns |
| Analytics.ExportLinesAppend | voice-agents/analytics/export_transcripts.py:88-106 | the lines of two lists of records in turn are the lines of their concatenation |
| Analytics.ExportLines | voice-agents/analytics/export_transcripts.py:89-106 | defines the text export's lines: each record's lines in turn; `RecordLayout` and `ExportLinesAppend` state their layout |
| Analytics.FileText | voice-agents/analytics/export_transcripts.py:88-106 | defines the characters written: every line followed by a newline; `FileReadsBack` proves the file splits back into exactly those lines |
| Analytics.FileReadsBack | voice-agents/analytics/export_transcripts.py:88-106 | when no line holds a newline, splitting the written file at newlines gives back the lines and the empty piece after the last newline |
| Analytics.WriteText | voice-agents/analytics/export_transcripts.py:88-106 | the writing loop writes exactly the lines of every record, in order |
| Analytics.WriteRecord | voice-agents/analytics/export_transcripts.py:89-106 | writing one record appends exactly its lines |
| Analytics.WriteHead | voice-agents/analytics/export_transcripts.py:90-95 | writing a head appends exactly its six lines |
| Chunking.ChunksFlatten | speech-to-text/websocket/jarvis/tts.py:107-108 | the fixed-size slices of a sequence, concatenated in order, are the sequence |
| Chunking.ChunkSizes | speech-to-text/websocket/jarvis/python/tts.py:138 | every slice holds 1 to n elements, every slice but the last exactly n |
| Chunking.ChunkCount | speech-to-text/websocket/jarvis/python/tts.py:138 | there are ceil(len / n) slices |
| Chunking.Chunks | speech-to-text/websocket/jarvis/python/tts.py:135-138 | defines the consecutive `n`-element slices, the last possibly shorter; `ChunksFlatten`, `ChunkSizes` and `ChunkCount` fix their meaning |
| Chunking.CeilDiv | blog-code-samples/pulse-stt-developer-guide/utils/audio_preprocessing.py:100 | defines `(a + n - 1) // n`; `ChunkCount` proves it is the number of slices |
| Chunking.FlattenAppend | speech-to-text/websocket/jarvis/tts.py:107-108 | concatenating the pieces of two lists in turn is concatenating the pieces of their concatenation |
| Text.Lower | speech-to-text/websocket/jarvis/python/jarvis.py:124 | `str.lower` keeps the length and lowercases each character |
| Text.Upper | speech-to-text/websocket/jarvis/python/llm.py:180-182 | `str.upper` keeps the length and upper-cases each character |
| Text.Strip | speech-to-text/websocket/jarvis/python/jarvis.py:105 | `str.strip` leaves no white space at either end, is empty exactly for blank text, and is a contiguous slice of the text |
| Text.StripIdempotent | speech-to-text/websocket/jarvis/python/jarvis.py:105-134 | stripping stripped text changes nothing |
| Text.Words | speech-to-text/websocket/jarvis/python/tts.py:137 | `str.split()` gives non-empty words without white space |
| Text.WordsOfBlank | speech-to-text/websocket/jarvis/python/tts.py:137 | blank text has no words |
| Text.WordsOfJoin | speech-to-text/websocket/jarvis/python/tts.py:137-138 | splitting words joined by single spaces gives the words back |
| Text.JoinAppend | speech-to-text/websocket/jarvis/python/tts.py:138 | joining two lists in turn is joining each and putting the separator between |
| Text.Join | speech-to-text/websocket/jarvis/python/jarvis.py:186 | defines Python's `sep.join(xs)`; `JoinAppend`, `WordsOfJoin` and `SplitOnJoin` state how it composes and what undoes it |
| Text.IndexOf | speech-to-text/websocket/jarvis/python/jarvis.py:134 | the first occurrence of a word, or none when it does not occur |
| Text.SplitOn | speech-to-text/websocket/jarvis/python/llm.py:107 | `str.split(c)`: at least one piece, none containing the separator |
| Text.FirstIndex | speech-to-text/websocket/jarvis/python/jarvis.py:143 | where the first line ends, for the `^.*` of the wake-word pattern: the index of the first occurrence of a character known to occur; it holds the character and none comes before it |
| Text.SplitOnJoin | speech-to-text/websocket/jarvis/python/llm.py:107 | splitting the separator-join of pieces without the separator gives the pieces back |
| Text.Repeat | voice-agents/analytics/export_transcripts.py:90 | `c * n` is n copies of c |
| Text.NatToString | voice-agents/analytics/get_calls.py:29 | a decimal rendering is non-empty and made of digits |
| Text.IntToString | voice-agents/analytics/get_calls.py:29 | Python's `str(n)` for any integer: never empty, with a "-" before the digits of a negative number |
| Text.Pad3 | blog-code-samples/pulse-stt-developer-guide/utils/audio_preprocessing.py:113 | `{i:03d}` is at least three characters |
| Text.LastIndexOf | speech-to-text/websocket/jarvis/python/jarvis.py:143 | the greedy `^.*wake` match ends at the last occurrence of the word; none is found exactly when it occurs nowhere |
| Text.Capitalize | voice-agents/inbound_ivr/ivr_agent.py:186 | same length, first character upper-cased, the rest unchanged (department names are single lowercase words, so this is what `str.title` yields) |

## Left out

- **Network and SDK calls.** WebSocket and HTTP connections, the agent SDK's session, and the LLM, TTS and STT services are not modelled. Their answers become parameters: the LLM reply, the HTTP response, the detection result, the diarized transcript and the call records. The model proves what the code does with any answer.
- **Concurrency and time.**
  - asyncio tasks, threads, queues shared between threads, and `ThreadPoolExecutor` are modelled as sequential steps.
  - The Jarvis silence timer is modelled as a check that carries the version it was armed with.
  - Clock readings are integer milliseconds passed in.
  - `asyncio.sleep` pacing in the streaming client is left out.
- **Jarvis STT session.** The microphone capture, `send_audio`, clearing the audio queue while speaking, and the reconnecting run loop are left out. Only the transcript handlers and the query processing are modelled.
- **Jarvis vision path.** `take_screenshot` runs a subprocess and the vision model makes two requests. Both are reduced to the reply `get_response` returns. The missing-API-key `ValueError` raised when the client is built is left out.
- **Jarvis TTS WebSocket client.** `connect`, the receive loop, the audio queue and `close` are left out. Only the messages `speak_all` sends are modelled. The constant fields of each message, other than text, voice and sample rate, are not modelled.
- JarvisTts.TtsClient.PlayAudio: the playback thread runs beside `speak`. The model runs it once, after the pieces are queued, until the queue is drained. The join timeout and the audio device are not modelled.
- **Agent response generation.** The `generate_response` streaming loops that call the LLM and run tools are left out. The tool handlers they dispatch to, the escalation check, the mute handling and the state they keep are modelled. The IVR `mute_caller`, `unmute_caller` and `end_call` tools only send SDK events and are left out, as is the assistant's `end_call`.
- Interrupt.ToolsStepSnoc: the source runs one response's tool calls concurrently (`parallel=True`), and `set_interruptible` sets the flag only after its event is sent. The model runs the calls in order. `ToolsStepAgrees`, `MutedByLastSet` and `ResponseAgrees` are proved for that order only. Interleaved calls are not modelled; in them the flag can disagree with the last mute or unmute event sent.
- **Strings.** `str.lower`, `str.upper`, `str.strip`, `str.split` and `str.title` are modelled on ASCII: no Unicode case mapping, and Python's ASCII whitespace set. Regular expressions are written out as the string operations they perform on these inputs.
- Profanity.FilterText: Python iterates a set in an unspecified order; the model masks the words in the order damn, hell, crap. The three words cannot overlap one another, so the order should not change the result, but that independence is not proved.
- **Language detection.** The `confidence` value is a float and is left out. Whether it can be formatted for the log line is modelled as a flag, because a failure there falls back to the default language.
- Ivr.DepartmentListing: stated for any non-empty table of one-line departments, not computed for the four configured departments.
- **Emotion analyzer.**
  - pydub decoding and slicing are left out; a decoding failure is an input.
  - Flask routing and the index page are left out.
  - Times are `real` numbers rather than floats.
  - Worker completion order is not modelled. Results are stored by index, so the order does not change the output.
- **YouTube summarizer.** `download_audio`, `transcribe`, `summarize_with_groq` and the environment checks in `main` are external calls. Only the video-id extraction, the output file names and the summary document are modelled.
- **Streaming client.**
  - Reading the WAV file is modelled as the frames it yields.
  - The microphone stream is left out.
  - Printing in the default handler and the `InvalidHandshake` messages are left out.
  - `ConnectionClosed` is modelled as a connection that accepts a fixed number of frames.
- **Audio preprocessing.** Format conversion with pydub and `get_audio_info` are left out. Path handling is simplified: the output directory and file stem are given, and joining uses `/`.
- JarvisTts.ChunkText: requires `n > 0`. In the source `n == 0` makes `range` raise `ValueError` and a negative `n` returns an empty list; neither is modelled, as the default `n = 10` is the only value the code gives it.
- AudioChunks.ChunkLongAudio: requires a non-zero chunk length. A zero length makes the source divide by zero, and that error path is not modelled.
- **Analytics.**
  - Console printing in `get_calls` is left out.
  - `datetime.fromisoformat` reformatting is a parameter.
  - Durations are taken as integers, after `int(...)`. The source tests `not seconds` before truncating, so a fractional duration between 0 and 1 second prints "0m 0s" there but "N/A" in the model.
  - JSON serialisation is modelled as the records written, not as their text.
  - Argument parsing is left out.

## Findings

| source | as written | input that shows it | evidently intended | confidence | as-written member | corrected member |
|---|---|---|---|---|---|---|
| speech-to-text/websocket/jarvis/python/jarvis.py:196-226 | `_process_query` sets the state to `PROCESSING` and has no handler around the LLM and TTS calls. If either call raises, the task ends with the state still `PROCESSING`. From then on every transcript is ignored, and if the LLM call raised, `jarvis_speaking` also stays set | a valid assistant state with a non-empty query buffer whose LLM call raises (outcome `LlmRaised`) | a failed call returns to `CAPTURING` with an empty buffer, speaking cleared and a fresh silence timer, as the STOP reply does | not executed | Jarvis.StuckAfterFailedCall | Jarvis.ProcessQueryRecovers |
