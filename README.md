# Interviewbot core, modelled in Dafny

Interviewbot is a browser application for interview practice. It has five parts:

- a voice coaching screen (`ConversationCoach`);
- a two-stage mock interview (`MockInterview`);
- a résumé analyser with a markdown report viewer (`ResumeAnalyzer`);
- a technical screen that exports markdown to PDF (`Technical`);
- a decorative "terminal" background (`MatrixTerminalBackground`).

This project models the deterministic logic underneath those screens and proves properties of it. Each live-session callback is modelled as one atomic step. The device clock, the decoded audio duration, the OCR reply and the PDF library's text measurement are parameters.

| file | module | what it models |
|---|---|---|
| `wrappers.dfy` | `Wrappers` | the `Option` type |
| `text.dfy` | `Text` | the JavaScript string operations the core relies on: `trim` with ECMAScript whitespace, `startsWith`, `includes`, `split('\n')`, `join`, `replace(/\*/g, '')` and a greedy `\d+` |
| `transcript.dfy` | `Transcript` | `Author` and `TranscriptionEntry`; the turn flush into the log; the transcript text sent for feedback |
| `playback.dfy` | `Playback` | the playback cursor `nextStartTimeRef` and the source set `audioSourcesRef`, as the class `PlaybackQueue` |
| `live_message.dfy` | `LiveMessage` | the fields of a live server message the screens read; audio-context refs |
| `audio_codec.dfy` | `AudioCodec` | the byte loops of `encode`/`decode` around `btoa`/`atob`; the de-interleaving index arithmetic of `decodeAudioData` |
| `conversation_coach.dfy` | `ConversationCoach` | the coaching session as the class `CoachSession`: start, `onopen`, `onmessage`, stop, feedback, `onerror` |
| `question_parser.dfy` | `QuestionParser` | the first match of `/Question (\d+):/`, `parseInt`, and the `Math.max` question counter |
| `mock_interview.dfy` | `MockInterview` | the conversational stage as the class `InterviewSession`: start, `onopen`, `onmessage` with the microphone notice and the concluding phrase, `cleanupAudio`, `onerror`, `onclose` |
| `markdown_report.dfy` | `MarkdownReport` | the `MarkdownReport` component's line grouping, as the class `BlockGrouper` plus specification functions |
| `resume_import.dfy` | `ResumeImport` | page-text assembly, the OCR fallback decision, and how an import settles on both screens |
| `technical.dfy` | `Technical` | `renderMarkdownToPdf` with `addTextInternal` (class `Doc`); the emoji strip, `cleanMarkdown`; the `handleRunCode` guard |
| `terminal_log.dfy` | `TerminalLog` | the append-and-cap and typing-tick updates of the background terminal |

Stateful code is modelled as classes with `modifies` frames, following the source:

- the refs and the audio-source `Set` mutated by the callbacks;
- the closures of `MarkdownReport`;
- the jsPDF document and `y` cursor of `renderMarkdownToPdf`.

Each method is proved against a specification function. The pure `filter`/`map`/`join` code, the updaters passed to `setLines` and the decisions are functions.

References that the model only tests for presence (the session promise, the media stream, the nodes) are booleans. Audio contexts are `NoContext | Running | Closed`. The sources in the playback set are told apart by a node counter.

## Model

| member | source | states |
|---|---|---|
| Text.DigitRun | MockInterview.tsx:301 | the greedy `\d+` run: it ends at the first non-digit or at the end of the string |
| Text.DigitRunOf | MockInterview.tsx:301 | a run of digits followed by a non-digit is matched exactly |
| Text.TrimShape | ConversationCoach.tsx:136-137 | `trim` removes whitespace, and only whitespace, from both ends; the result starts and ends with non-whitespace |
| Text.TrimEmptyIff | ConversationCoach.tsx:141-142 | a string trims to empty exactly when every character is whitespace (the `if (userInput)` test) |
| Text.TrimIdempotent | ConversationCoach.tsx:136-137 | trimming twice is trimming once |
| Text.ContainsIff | MockInterview.tsx:315 | `includes` holds exactly when some position starts the phrase |
| Text.RemoveAll | ResumeAnalyzer.tsx:19 | `replace(/\*/g, '')` keeps every other character and its count |
| Text.RemoveAllAppend | ResumeAnalyzer.tsx:19 | removing asterisks works piecewise over concatenation |
| Text.Split | ResumeAnalyzer.tsx:13 | `split('\n')` yields at least one piece and no piece holds a line feed |
| Text.JoinSplit | ResumeAnalyzer.tsx:13 | joining the pieces of `split` with the separator gives back the text |
| Text.SplitJoin | ConversationCoach.tsx:234-237 | splitting a `join` of break-free lines gives back the lines |
| Text.SplitNoSeparator | ResumeAnalyzer.tsx:13 | text without a line feed is one line |
| Text.SplitPrefix | ResumeAnalyzer.tsx:13 | a leading line followed by a line feed is split off as the first line |
| Transcript.AppendTurn | ConversationCoach.tsx:139-144 | earlier entries are untouched, then come the USER entry and the MODEL entry, each only when its text is non-empty |
| Transcript.AppendTurnNoBlank | ConversationCoach.tsx:141-142 | a turn flush never adds an entry with empty text |
| Transcript.Spoken | ConversationCoach.tsx:235 | the filter keeps no SYSTEM entry and never lengthens the log |
| Transcript.SpokenAppend | ConversationCoach.tsx:235 | the filter keeps log order: it distributes over concatenation |
| Transcript.SpokenCounts | ConversationCoach.tsx:235 | exactly the non-SYSTEM entries survive, each as often as in the log |
| Transcript.SpokenEntryFromLog | ConversationCoach.tsx:235 | every filtered entry is an entry of the log |
| Transcript.RenderLines | ConversationCoach.tsx:236 | one `AUTHOR: text` line per entry, in order |
| Transcript.RenderTranscriptLines | ConversationCoach.tsx:234-237 | when no entry holds a line break, the transcript splits back into one labelled line per spoken entry, in log order |
| Transcript.LabelHasNoBreak | ConversationCoach.tsx:236 | the upper-cased author label and its colon contain no line break |
| Transcript.SpokenDropsNotice | ConversationCoach.tsx:235 | on a log of one system notice followed by four spoken entries, the filter leaves exactly those four entries, in order |
| Transcript.TwoPairsRenderFourLines | ConversationCoach.tsx:234-237 | an opening notice plus two question/answer pairs renders as four alternating USER/MODEL lines, without the notice |
| Playback.Max | ConversationCoach.tsx:153 | `Math.max` is an upper bound equal to one of its arguments |
| Playback.StartAt | ConversationCoach.tsx:153 | a payload starts no earlier than the cursor and no earlier than the device time, at one of the two |
| Playback.ScheduleAll | ConversationCoach.tsx:151-163 | every payload of a run starts after the initial cursor and its arrival time and lasts its duration |
| Playback.CursorAfter | ConversationCoach.tsx:153-162 | scheduling never moves the cursor back |
| Playback.ScheduleNeverOverlaps | ConversationCoach.tsx:151-163 | however the payloads arrive, each one starts no earlier than every earlier one ends |
| Playback.ScheduleEndsByCursor | ConversationCoach.tsx:161-162 | every scheduled payload ends by the final cursor |
| Playback.CursorMonotone | ConversationCoach.tsx:153-162 | more payloads never bring the cursor back |
| Playback.PlaybackQueue.constructor | ConversationCoach.tsx:77-78 | the cursor is 0 and the set is empty |
| Playback.PlaybackQueue.Schedule | ConversationCoach.tsx:151-163 | the new source starts at `max(cursor, now)`, the cursor becomes its end, and it joins the set; no two sources overlap (`Valid`) |
| Playback.PlaybackQueue.SourceEnded | ConversationCoach.tsx:158-160 | the 'ended' listener removes exactly that source |
| Playback.PlaybackQueue.Interrupt | ConversationCoach.tsx:166-172 | every scheduled source is stopped and removed, then the cursor is 0 |
| Playback.PlaybackQueue.StopAll | ConversationCoach.tsx:221-224 | every source is stopped and the set cleared; the cursor is left alone |
| Playback.PlaybackQueue.Reset | MockInterview.tsx:149-153 | every source is stopped, the set is cleared and the cursor is 0 |
| LiveMessage.Close | ConversationCoach.tsx:214-219 | closing a context never leaves it running, and a null ref stays null |
| AudioCodec.BinaryString | ConversationCoach.tsx:19-26 | one code point below 256 per byte |
| AudioCodec.ByteValues | ConversationCoach.tsx:9-17 | one byte per character |
| AudioCodec.EncodeLoop | ConversationCoach.tsx:19-26 | the loop builds the binary string of the bytes |
| AudioCodec.DecodeLoop | ConversationCoach.tsx:9-17 | the loop stores the low byte of each character code in a fresh array |
| AudioCodec.BinaryStringRoundTrip | MockInterview.tsx:19-25 | the two byte loops invert each other |
| AudioCodec.AudioPayloadRoundTrip | MockInterview.tsx:19-25 | `decode(encode(b)) == b` for any `atob` that undoes `btoa` on binary strings |
| AudioCodec.InterleavedIndexInBounds | ConversationCoach.tsx:34-43 | in the model, which reads whole frames only, `i * numChannels + channel` stays inside the sample array for every frame and channel read |
| AudioCodec.MultiplyMonotone | ConversationCoach.tsx:35 | scaling a frame bound by the channel count keeps the order |
| AudioCodec.Channel | ConversationCoach.tsx:38-43 | a channel has `length / numChannels` frames |
| AudioCodec.Deinterleave | ConversationCoach.tsx:28-45 | the nested loops produce, for each channel, exactly that channel's samples in frame order |
| AudioCodec.DeinterleaveRecovers | ConversationCoach.tsx:38-43 | every sample of a whole frame lands in channel `k % n` at frame `k / n`; nothing is lost |
| AudioCodec.DivBelow | ConversationCoach.tsx:35 | a sample index below `frames * n` belongs to a frame below `frames` |
| ConversationCoach.CoachSession.constructor | ConversationCoach.tsx:62-78 | inactive, empty log and report, idle status, no refs, cursor 0 |
| ConversationCoach.CoachSession.Start | ConversationCoach.tsx:80-93 | a no-op while a session is active; otherwise the report is cleared and the log reset to the "Connecting" notice, then the session goes live, or reports the microphone failure |
| ConversationCoach.CoachSession.StartFresh | ConversationCoach.tsx:77-93 | the corrected start: the same outcome as `Start`, and a session that goes live also starts with the playback cursor at 0 and nothing queued, every left-over source stopped |
| ConversationCoach.StaleCursorDelaysFirstReply | ConversationCoach.tsx:151-162 | with the cursor kept from an earlier session and above the new context's clock, the first reply starts at the old cursor, strictly after it arrives |
| ConversationCoach.FreshCursorPlaysOnArrival | ConversationCoach.tsx:151-162 | with the cursor at 0, the first reply of a session starts exactly when it arrives |
| ConversationCoach.CoachSession.Opened | ConversationCoach.tsx:105-126 | without an input context nothing changes; otherwise the processor is wired and the status is "Listening" |
| ConversationCoach.CoachSession.Receive | ConversationCoach.tsx:127-173 | fragments append to the buffers; a completed turn flushes the trimmed buffers through `AppendTurn` and empties them; audio with an output context is scheduled; an interruption stops every source and zeroes the cursor |
| ConversationCoach.CoachSession.ReceiveText | ConversationCoach.tsx:128-148 | the transcription half of `onmessage`, as above |
| ConversationCoach.CoachSession.ReceiveAudio | ConversationCoach.tsx:150-172 | the audio half of `onmessage`, as above |
| ConversationCoach.CoachSession.SourceEnded | ConversationCoach.tsx:158-160 | the ended source leaves the set |
| ConversationCoach.CoachSession.Stop | ConversationCoach.tsx:191-237 | a no-op unless active or pending; otherwise every ref is released and the contexts closed but not nulled. All sources are stopped and the cursor kept. Feedback is requested, with the rendered transcript, exactly when the log has more than one entry |
| ConversationCoach.CoachSession.Release | ConversationCoach.tsx:194-226 | refs nulled, contexts closed, every source stopped, session inactive |
| ConversationCoach.CoachSession.FeedbackSettled | ConversationCoach.tsx:261-273 | the report and success status, or the failure status; never generating afterwards |
| ConversationCoach.CoachSession.SessionError | ConversationCoach.tsx:174-178 | without a live session only the error status is set and nothing else changes. With one, the outcome is exactly `Stop`'s: refs released, contexts closed, sources stopped, the transcript handed back when the log has more than one entry, and the stop's status replacing the error text. The log, report, buffers and cursor are kept |
| QuestionParser.QuestionAt | MockInterview.tsx:301 | a match at a position starts with "Question " |
| QuestionParser.QuestionFromLeftmost | MockInterview.tsx:301 | the scan finds nothing exactly when no position matches; otherwise it returns the number of the leftmost match |
| QuestionParser.QuestionAtFront | MockInterview.tsx:301-303 | a turn opening with "Question N:" is read as N |
| QuestionParser.ParsesTwelve | MockInterview.tsx:301-303 | "Question 12: Tell me about a conflict." is read as 12 |
| QuestionParser.NextQuestionCount | MockInterview.tsx:301-306 | the count never decreases; it becomes the parsed number when that is larger, and stays put when nothing matches |
| QuestionParser.DisplayedQuestion | MockInterview.tsx:532 | the banner shows the count when it is at most 10, and 10 above that |
| QuestionParser.DisplayedQuestionMonotone | MockInterview.tsx:532 | the banner never goes back while the count does not |
| MockInterview.TurnLog | MockInterview.tsx:284-298 | earlier entries are untouched; when due, the microphone notice comes first; no other SYSTEM entry is added |
| MockInterview.NoticeCountAppend | MockInterview.tsx:289-292 | notices count additively over concatenation |
| MockInterview.NoMentionNoNotice | MockInterview.tsx:289 | a log that never mentions the microphone holds no notice |
| MockInterview.NoSystemNoNotice | MockInterview.tsx:294-298 | user and model entries are never notices |
| MockInterview.NoticeAtMostOnce | MockInterview.tsx:289-292 | a turn adds the notice when due and otherwise adds none, so a log never holds two |
| MockInterview.TurnNotices | MockInterview.tsx:289-298 | the entries a turn appends hold exactly one notice when due, none otherwise |
| MockInterview.FreshLogHasNoNotice | MockInterview.tsx:188 | the log a session starts with has no notice |
| MockInterview.InterviewSession.constructor | MockInterview.tsx:48-84 | setup stage, empty log, count 0, everything released |
| MockInterview.InterviewSession.CleanupAudio | MockInterview.tsx:133-157 | every ref and both contexts are null, every source is stopped and the set empty. The cursor is 0, the mic flag down and the session inactive. A second run changes nothing |
| MockInterview.InterviewSession.ReleaseRefs | MockInterview.tsx:134-156 | the ref half of `cleanupAudio` |
| MockInterview.InterviewSession.StartConversational | MockInterview.tsx:186-198 | the log is the "Connecting" notice, the count 0, the mic flag down; then live, or back to setup with the microphone error |
| MockInterview.InterviewSession.Opened | MockInterview.tsx:225-254 | without an input context or a stream: the error, a full cleanup and every scheduled source stopped. Otherwise the source and processor are wired and the session is active, with the other refs, the mic flag, the error and the queue kept. The log, count, buffers, stage and question are outside its frame |
| MockInterview.InterviewSession.Receive | MockInterview.tsx:255-331 | buffers, then audio scheduling, then the turn (log, count, mic flag). The concluding phrase cleans up, starts question generation and skips the interruption. Otherwise an interruption empties the set and zeroes the cursor, and the stage, error, question, refs and session flag are kept. Every source that is stopped is one scheduled before or by this message |
| MockInterview.InterviewSession.BufferFragments | MockInterview.tsx:258-259 | both fragments are appended in arrival order |
| MockInterview.InterviewSession.ScheduleAudio | MockInterview.tsx:261-278 | a payload with an output context is scheduled at `max(cursor, now)`, and nothing else changes |
| MockInterview.InterviewSession.FlushTurn | MockInterview.tsx:280-321 | the `turnComplete` branch. The concluding phrase ends the stage with a cleanup that stops every source; otherwise the stage, error, question, refs and playback queue are kept |
| MockInterview.InterviewSession.RecordTurn | MockInterview.tsx:281-312 | the log gets `TurnLog`, the count `NextQuestionCount`, the flag rises with the notice, and the buffers empty |
| MockInterview.InterviewSession.Conclude | MockInterview.tsx:315-319 | on the concluding phrase the audio is cleaned up and the stage becomes question generation, with the question and the error cleared |
| MockInterview.InterviewSession.BeginTechnicalQuestion | MockInterview.tsx:159-162 | the stage becomes question generation, and the question and the error are cleared |
| MockInterview.InterviewSession.TechnicalQuestionSettled | MockInterview.tsx:172-183 | the question and the solving stage with the error kept, or the error and setup with the question kept |
| MockInterview.InterviewSession.OnError | MockInterview.tsx:332 | cleanup with every source stopped, the error message, setup. The log, count, question, buffers and node counter are outside its frame |
| MockInterview.InterviewSession.OnClose | MockInterview.tsx:333-339 | cleanup with every source stopped; a close during the conversational stage goes back to setup with the error (the corrected test of the current stage). The log, count, question and buffers are outside its frame |
| MockInterview.InterviewSession.OnCloseAsWritten | MockInterview.tsx:333-339 | cleanup with every source stopped; the stage test reads the stage captured when the callbacks were built. The log, count, question and buffers are outside its frame |
| MockInterview.ClosedStage | MockInterview.tsx:334-338 | the stage and error after `onclose` for a given tested stage |
| MockInterview.StaleCloseKeepsStage | MockInterview.tsx:333-339 | with the captured `Setup`, a close mid-interview leaves the conversational stage and sets no error |
| MockInterview.CloseLeavesConversation | MockInterview.tsx:333-339 | testing the current stage, a close never leaves the screen conversational, and it reports why |
| MarkdownReport.CleanText | ResumeAnalyzer.tsx:19 | no asterisk is left, and every other character keeps its count |
| MarkdownReport.StripNumber | ResumeAnalyzer.tsx:76 | without leading digits and a full stop the item is unchanged. Otherwise what is left is the suffix after the digits, the full stop and every whitespace character that follows, so it does not start with whitespace |
| MarkdownReport.ParagraphFlushed | ResumeAnalyzer.tsx:21-30 | the paragraph is emptied and the list untouched |
| MarkdownReport.ListFlushed | ResumeAnalyzer.tsx:32-46 | the paragraph is untouched; a list with items and a kind is emptied and its kind cleared |
| MarkdownReport.StepWellFormed | ResumeAnalyzer.tsx:53-83 | each line keeps the state coherent: at most one pending block, items exactly when a kind is set, no empty block emitted |
| MarkdownReport.StepsWellFormed | ResumeAnalyzer.tsx:53-83 | the same holds after any number of lines |
| MarkdownReport.FinalFlush | ResumeAnalyzer.tsx:85 | after the final flush nothing is pending and no emitted paragraph or list is empty |
| MarkdownReport.FlattenSnoc | ResumeAnalyzer.tsx:23-42 | emitting a block appends its content |
| MarkdownReport.ParagraphFlushedShown | ResumeAnalyzer.tsx:21-30 | `flushParagraph` moves the paragraph to the elements unchanged |
| MarkdownReport.ListFlushedShown | ResumeAnalyzer.tsx:32-46 | `flushList` moves the list to the elements unchanged |
| MarkdownReport.AllFlushedShown | ResumeAnalyzer.tsx:48-51 | `flushAll` moves the pending block unchanged and leaves nothing pending |
| MarkdownReport.ItemAddedShown | ResumeAnalyzer.tsx:63-76 | adding an item, closing a list of the other kind first, adds just that item |
| MarkdownReport.KindStepShown | ResumeAnalyzer.tsx:56-82 | each branch keeps everything shown, in order, and adds the line's contribution |
| MarkdownReport.StepShown | ResumeAnalyzer.tsx:53-83 | each line keeps everything shown, in order, and adds its contribution |
| MarkdownReport.StepsShown | ResumeAnalyzer.tsx:53-83 | after any prefix of the lines, what is shown is exactly the lines' contributions |
| MarkdownReport.ContentPreserved | ResumeAnalyzer.tsx:53-85 | every non-blank line's text reaches exactly one block, in input order |
| MarkdownReport.HeaderClosesPending | ResumeAnalyzer.tsx:56-62 | a header flushes everything pending, then is emitted with the text after "### " |
| MarkdownReport.BulletExtendsList | ResumeAnalyzer.tsx:63-69 | a bullet continuing a bulleted list only adds its item |
| MarkdownReport.NumberedSwitchesList | ResumeAnalyzer.tsx:70-76 | a numbered line after a bulleted list closes it and opens a numbered one |
| MarkdownReport.NumberedExtendsList | ResumeAnalyzer.tsx:70-76 | a numbered line continuing a numbered list only adds its item |
| MarkdownReport.BulletSwitchesList | ResumeAnalyzer.tsx:63-69 | a bullet after a numbered list closes it and opens a bulleted one |
| MarkdownReport.TextClosesList | ResumeAnalyzer.tsx:79-81 | a plain line closes the list and starts the paragraph, untrimmed |
| MarkdownReport.HeaderTextNonEmpty | ResumeAnalyzer.tsx:54-60 | header text is never empty |
| MarkdownReport.BlockGrouper.constructor | ResumeAnalyzer.tsx:14-17 | nothing emitted, nothing pending |
| MarkdownReport.BlockGrouper.FlushParagraph | ResumeAnalyzer.tsx:21-30 | the state becomes `ParagraphFlushed` of the old one |
| MarkdownReport.BlockGrouper.FlushList | ResumeAnalyzer.tsx:32-46 | the state becomes `ListFlushed` of the old one |
| MarkdownReport.BlockGrouper.FlushAll | ResumeAnalyzer.tsx:48-51 | the state becomes `AllFlushed` of the old one |
| MarkdownReport.BlockGrouper.Feed | ResumeAnalyzer.tsx:53-83 | the state becomes `Step` of the old one and the line |
| MarkdownReport.Render | ResumeAnalyzer.tsx:12-92 | the elements are `Blocks(text)`; none is empty; their contents are the lines' contributions in order |
| ResumeImport.ItemTexts | ResumeAnalyzer.tsx:147 | one string per item, `''` for an item without one |
| ResumeImport.PageText | ResumeAnalyzer.tsx:147 | a page's text ends with a line feed |
| ResumeImport.PagesTextLength | ResumeAnalyzer.tsx:143-148 | each page adds at least its line feed |
| ResumeImport.ExtractText | ResumeAnalyzer.tsx:143-148 | the loop concatenates the page texts in page order |
| ResumeImport.OcrPageCount | ResumeAnalyzer.tsx:158 | at most three pages, and at most the page count |
| ResumeImport.RasterisedPages | ResumeAnalyzer.tsx:160-178 | image parts come from the first pages only, in increasing order, one for each page with a canvas context |
| ResumeImport.RasteriseForOcr | ResumeAnalyzer.tsx:156-178 | the loop yields those image parts, at most three |
| ResumeImport.ResumeOutcome | ResumeAnalyzer.tsx:150-205 | a text layer of at least 100 characters is used trimmed. Otherwise the trimmed OCR reply is used; an empty reply gives the OCR-empty error and no image gives the no-images error, both with text and file name cleared. There is either résumé text or an error, never both or neither |
| ResumeImport.ImportResume | ResumeAnalyzer.tsx:109-211 | a non-PDF file gives its error. A document that fails to load, a failing page call, or an OCR request that rejects or returns no text all give the read error, with text and file name cleared. Otherwise the result is the outcome above on the extracted text and the image parts |
| ResumeImport.JoinBlank | ResumeAnalyzer.tsx:147 | blank items join into spaces |
| ResumeImport.BlankPagesText | ResumeAnalyzer.tsx:143-148 | pages without text strings yield only whitespace |
| ResumeImport.BlankPagesNeedOcr | ResumeAnalyzer.tsx:150-153 | a scanned document always goes to OCR |
| ResumeImport.InterviewResumeOutcome | MockInterview.tsx:105-127 | the interview screen's import: the text layer, or the trimmed OCR reply. An empty reply gives `'OCR failed.'`, and no image parts leave neither text nor error. The file name is kept in every case |
| ResumeImport.InterviewImportCanBeSilent | MockInterview.tsx:123-126 | for every document that needs OCR, no image parts or a reply that is only whitespace leave the interview screen with neither text nor error, where the résumé screen reports `NoImages` or `OcrEmpty` |
| ResumeImport.BlankReplyIsSilent | MockInterview.tsx:124-125 | a one-space OCR reply passes the interview screen's emptiness test and trims to no text |
| Technical.StripEmoji | Technical.tsx:25-26 | no emoji code point survives, and nothing is added |
| Technical.StripEmojiAppend | Technical.tsx:25-26 | stripping works piecewise, keeping every other character in order |
| Technical.StripEmojiNone | Technical.tsx:25-26 | text without emoji passes unchanged |
| Technical.CleanMarkdown | Technical.tsx:67 | `replace(/\*\*/g, '')` keeps every non-asterisk character and its count |
| Technical.CleanMarkdownHead | Technical.tsx:67 | a leading non-asterisk stays in front |
| Technical.CleanMarkdownNoDoubleStar | Technical.tsx:67 | no "**" survives cleaning |
| Technical.CleanMarkdownFixed | Technical.tsx:67 | text without "**" passes unchanged |
| Technical.CleanMarkdownIdempotent | Technical.tsx:67 | cleaning twice is cleaning once |
| Technical.PlacedSpec | Technical.tsx:56-62 | a page break happens exactly when the cursor is below the top margin and the text would pass the bottom margin. The text is drawn at the margin plus its offset, on the current page, and the cursor moves down by its height plus spacing |
| Technical.PlacedFitsOrTop | Technical.tsx:56-61 | a drawn block either fits above the bottom margin or starts at the top of its page |
| Technical.FenceParity | Technical.tsx:69-77 | inside a code block exactly when an odd number of fence lines has been seen |
| Technical.StepFlipsOnFence | Technical.tsx:73-76 | only a fence line changes the code-block flag, and it always flips it |
| Technical.StepMonotone | Technical.tsx:70-107 | each line moves the cursor down, except when it opens one new page, where it restarts at or below the top margin; nothing drawn is lost |
| Technical.LinesMonotone | Technical.tsx:70-107 | between page breaks the cursor never moves up |
| Technical.CodeLineVerbatim | Technical.tsx:79-82 | inside a code block a line is drawn exactly as it is, in Courier at 9 pt, indented 5 |
| Technical.RuleDrawsNothing | Technical.tsx:84-88 | a horizontal rule draws nothing and adds a gap of 2 |
| Technical.RuleIsNoItem | Technical.tsx:85-99 | a rule line is never a header, bullet or numbered item |
| Technical.Doc.constructor | Technical.tsx:21-22 | a one-page document, nothing drawn |
| Technical.Doc.AddTextInternal | Technical.tsx:29-64 | the document and cursor become `Placed` of the old ones |
| Technical.RenderLine | Technical.tsx:70-107 | the document, cursor and code flag become `LineStep` of the old ones |
| Technical.RenderProse | Technical.tsx:84-92 | outside a code block, a rule or header line leaves the document and cursor as the step for that line's kind |
| Technical.RenderBody | Technical.tsx:93-106 | outside a code block, a list item, blank line or text line leaves the document and cursor as the step for that line's kind |
| Technical.RenderMarkdownToPdf | Technical.tsx:14-109 | the document and returned cursor are the layout of the emoji-free lines from `initialY`; the final code flag is the fence parity |
| Technical.RunCode | Technical.tsx:144-148 | analysis is refused, with its message, exactly when the code or the question is empty |
| TerminalLog.NewLine | src/components/MatrixTerminalBackground.tsx:20-25 | the text is the prompt followed by the command; nothing is shown yet; the line is not complete |
| TerminalLog.AppendLine | src/components/MatrixTerminalBackground.tsx:26-27 | at most 30 lines, the new line last, and the rest the newest old lines in order |
| TerminalLog.AppendLineOk | src/components/MatrixTerminalBackground.tsx:26-27 | appending keeps every line's display a prefix of its text |
| TerminalLog.AppendKeepsOrder | src/components/MatrixTerminalBackground.tsx:26-27 | surviving lines keep their relative order |
| TerminalLog.TickLine | src/components/MatrixTerminalBackground.tsx:38-51 | id and text never change; a complete line is returned unchanged |
| TerminalLog.TickLineOk | src/components/MatrixTerminalBackground.tsx:41-50 | the shown text stays a prefix and grows by one character until it equals the text; only then is the line complete |
| TerminalLog.Tick | src/components/MatrixTerminalBackground.tsx:37-52 | the count and order are kept, and each line ticks |
| TerminalLog.TickOk | src/components/MatrixTerminalBackground.tsx:37-52 | a tick keeps the log well-formed, and keeps ids, texts and completed lines |
| TerminalLog.TypingProgress | src/components/MatrixTerminalBackground.tsx:41-45 | after k ticks a new line shows its first k characters |
| TerminalLog.TypingFinishes | src/components/MatrixTerminalBackground.tsx:41-50 | a new line completes after one tick per character plus one, fully shown |

## Left out

- Calls to the Gemini SDK (`ai.live.connect`, `generateContent`), `getUserMedia`, and `AudioContext`/`ScriptProcessor` wiring. These are foreign I/O. Each callback is one atomic step, and its outcomes (microphone granted, reply text, failure) are parameters.
- A transcription object whose `text` is absent is not modelled in `ServerMessage`. The source appends it with `+=`, which adds the string "undefined" to the pending buffer, while `Option<string>` has only a present text or no transcription at all.
- The promise chains and the interleaving of asynchronous callbacks are not modelled. `CoachSession.Stop` models `handleStopSession` with the current state. When `onerror`/`onclose` call it, they reach the handler captured when the session started, with its stale `transcription`; this is not modelled.
- Float sample conversion (`createBlob`, the `/32768.0` scaling) is not modelled. The samples are left as 16-bit integers.
- Base64 itself: `btoa`/`atob` are parameters, assumed to be inverses on binary strings.
- AudioCodec.DecodeLoop: the failure of `atob` on malformed input is not modelled.
- AudioCodec.FrameCount: an odd byte length, which makes `new Int16Array(data.buffer)` throw, is not modelled.
- AudioCodec.InterleavedIndexInBounds: holds for the model's whole frames only. The source loops `i < frameCount` with a fractional `frameCount` when the sample count is not a multiple of `numChannels`, and its last read is then past the array; `createBuffer` truncates the frame count, so that stray value is never stored. Both call sites pass one channel, where this cannot happen.
- The decoded audio duration comes from the browser; it is an input of each message.
- pdf.js text extraction and canvas rendering, and jsPDF's `splitTextToSize`, `getTextDimensions`, `setFont`, `addPage` and `text`. A page is its text items plus whether a canvas context exists. Line wrapping and height are one abstract non-negative `measure` per document; a drawn block is recorded as one string.
- The jsPDF report downloads, with their duplicated page-break helpers, and the prompt template texts (other than the transcript rendering).
- The background terminal's timers, random command choice and `Date.now()` ids are parameters.
- The screens' other handlers: résumé analysis, the technical solution and report requests, and navigation. JSX, styling and routing are also left out.
- ResumeImport.ImportResume: the `FileReader` error path, the missing-library guard and the interview screen's catch path are not modelled. A failing page call is one flag for the whole document, not tied to the page where it happens; every such failure has the same outcome.
- Text.Trim, Text.IsSpace: JavaScript strings are UTF-16, while Dafny `char` is a code point. A character outside the Basic Multilingual Plane counts once here, where `length` counts it twice.
- QuestionParser.DecimalValue: `parseInt` loses precision above 2^53; the model's integers are exact.

## Findings

| source | as written | input that shows it | evidently intended | confidence | as-written member | corrected member |
|---|---|---|---|---|---|---|
| MockInterview.tsx:333-339 | `onclose` tests `interviewState` as captured when `startConversational` built the callbacks. The start button is only on the setup screen, so the captured value is always `SETUP`. | the live session closes during the conversational stage (captured `Setup`, current `Conversational`) | a close mid-interview returns to setup with "Conversational session ended unexpectedly." | medium, not executed | MockInterview.StaleCloseKeepsStage | MockInterview.CloseLeavesConversation |
| ConversationCoach.tsx:151-171 | the playback cursor is zeroed only on an interruption; `handleStartSession` (line 93) opens a new output context, whose clock restarts at 0, but keeps the previous session's cursor | a second session started after the first one queued audio up to 40 s: its first reply, arriving at about 0 s on the new clock, is scheduled at 40 s | each session starts scheduling at its own context's time, so the first reply plays on arrival | medium, not executed | ConversationCoach.StaleCursorDelaysFirstReply | ConversationCoach.CoachSession.StartFresh |
