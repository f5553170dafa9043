# Praxtica front end: verified model of its audio frame accumulator and page rules

This project models, in Dafny, the parts of the Praxtica web front end that carry
behaviour of their own:

- **The audio frame accumulator** (`AudioProcessor`, an `AudioWorkletProcessor`). It
  owns a 4096-slot buffer and a write index. Each `process` call copies channel 0 of
  input 0 into the buffer, one sample at a time. Each time the buffer fills, it posts a
  copy of the full frame to the main thread and resets the index. The model is a class
  with the buffer as an `array`. Its `Process` method runs the source's loop. Its object
  invariant says that the posted frames and the buffered samples are exactly what the
  copy loop (`Feed`) gives when run over every sample received so far. Lemmas about
  `Feed` then prove the promised properties:
  - every posted frame holds exactly 4096 samples;
  - no sample is dropped, duplicated or reordered across frame boundaries;
  - one call posts (i + n) / 4096 frames and leaves the index at (i + n) % 4096;
  - frames already posted are never changed;
  - how the stream is split across calls does not matter.
- **The comment list** of a challenge page: optimistic add of a top-level comment or
  of a reply, and the filter that keeps the top-level comments.
- **The route guard** on "/" and "/dashboard".
- **The dashboard**: the difficulty colour, and starting a challenge (the English
  branch, the id-matched status update, and the repository URL built from the title).
- **The English practice page**: the grammar-feedback badge, practice-type contexts,
  the opening message, the suggestion toggle map, and the page state changed by its
  handlers. Those handlers are choosing a practice type, submitting a message and
  toggling speech recognition; they are methods of a `PracticePage` class.
- **The pricing page's checkout button label**.

The JavaScript string built-ins these rules use are in `text.dfy`: `toLowerCase`,
`includes`, `trim` and `replace(/ /g, '-')`.

Samples are a type parameter, because the worklet only copies them. Service calls
(grammar check, conversation generation) are parameters of the handlers: `None`
stands for a call that threw.

## Model

| member | source | states |
|---|---|---|
| `AudioWorklet.AudioProcessor.constructor` | public/audio-processor.js:3-8 | After construction the buffer has 4096 slots, the index is 0, nothing is posted or received, and the invariant holds. |
| `AudioWorklet.AudioProcessor.Process` | public/audio-processor.js:10-36 | It always returns true. An input with no channels changes nothing. Otherwise only channel 0 of input 0 is read. The new state is the copy loop run over that channel from the old state. The call posts (i + n) / 4096 frames and leaves the index at (i + n) % 4096. Earlier posted frames are kept, and the invariant (index below 4096) is preserved. |
| `AudioWorklet.AudioProcessor.ValidMeansNoLoss` | public/audio-processor.js:17-31 | Between calls, every posted frame has exactly 4096 samples. The posted frames, followed by `buffer[0..bufferIndex)`, are exactly the channel-0 samples received, in order. |
| `AudioWorklet.Step` | public/audio-processor.js:18-30 | One loop iteration posts at most one frame. That frame is the buffer with the new sample appended, and it is posted exactly when that fills the buffer. A buffer with room keeps room afterwards. |
| `AudioWorklet.Feed` | public/audio-processor.js:17-31 | Running the loop over a channel only ever appends frames: the frames posted before are kept as they were. |
| `AudioWorklet.FeedAppend` | public/audio-processor.js:17-32 | Feeding `a` then `b` gives the same result as feeding `a + b`, so how the stream is cut into `process` calls does not matter. |
| `AudioWorklet.FeedKeepsFrames` | public/audio-processor.js:22-30 | From a well-formed state, every frame posted is full and the buffer never overflows. Frames already posted stay unchanged: the posted copy is not altered by later writes. |
| `AudioWorklet.FeedConservesSamples` | public/audio-processor.js:17-31 | Posted frames followed by buffered samples equal the old ones followed by the samples fed: no drop, no duplication, no reordering. |
| `AudioWorklet.FeedCounts` | public/audio-processor.js:17-31 | Feeding n samples into a buffer holding i posts (i + n) / 4096 frames and leaves (i + n) % 4096 samples buffered. |
| `AudioWorklet.FrameCompleteness` | public/audio-processor.js:17-31 | From an empty buffer, a stream of L samples posts exactly its first L - L % 4096 samples, in order. The last L % 4096 samples stay buffered. |
| `CommentSection.OrElse` | src/components/comments/CommentSection.tsx:57 | JavaScript's `s or fallback`: the string when present and non-empty, the fallback otherwise. |
| `CommentSection.NewComment` | src/components/comments/CommentSection.tsx:54-62 | A new comment has votes 1, the given parentId and text, no replies, and an image only when a non-empty one is known. Its author is the user's name, or 'Usuario Anónimo' when the name is missing or empty. |
| `CommentSection.AddReply` | src/components/comments/CommentSection.tsx:70-76 | The reply update keeps the number of top-level entries. |
| `CommentSection.ReplyTo` | src/components/comments/CommentSection.tsx:70-76 | The entry whose id equals parentId gets the reply appended to its replies, missing replies counting as empty. Every other field is kept. Any other entry is returned unchanged. |
| `CommentSection.AddComment` | src/components/comments/CommentSection.tsx:51-81 | With no signed-in user the list is unchanged. A reply keeps the list length. A top-level add makes the list exactly one longer. |
| `CommentSection.AddReplyAt` | src/components/comments/CommentSection.tsx:70-76 | Each entry whose id equals parentId gets the reply appended at the end of its replies (missing replies count as empty). Every other entry is returned unchanged. |
| `CommentSection.AddReplyUnknownParent` | src/components/comments/CommentSection.tsx:70-75 | A parentId that no top-level entry carries, such as a nested reply's id, leaves the list unchanged: only one level is searched. |
| `CommentSection.AddTopLevel` | src/components/comments/CommentSection.tsx:78-79 | A falsy parentId (missing or empty) puts the new comment at index 0. Every existing comment follows it, in the same order. |
| `CommentSection.TopLevel` | src/components/comments/CommentSection.tsx:87 | The filter keeps only comments with a falsy parentId, and keeps every such comment. Its counts and order are stated by TopLevelCounts and TopLevelAppend. |
| `CommentSection.TopLevelCounts` | src/components/comments/CommentSection.tsx:87 | Each comment with a falsy parentId occurs in the filtered list exactly as often as in the input. Every other comment occurs zero times. |
| `CommentSection.TopLevelAppend` | src/components/comments/CommentSection.tsx:87 | The filter keeps the original order: filtering a concatenation is concatenating the filtered parts. |
| `CommentSection.AddTopLevelShownFirst` | src/components/comments/CommentSection.tsx:79-87 | After a top-level add, the shown top-level list is the new comment followed by the previously shown ones. |
| `CommentSection.AddReplyKeepsTopLevelIds` | src/components/comments/CommentSection.tsx:70-87 | Adding a reply does not change how many top-level comments are shown, nor their ids or order. |
| `Middleware.Middleware` | src/middleware.ts:5-25 | Redirect to "/dashboard" exactly for "/" with a token. Redirect to "/" exactly for "/dashboard" without one. Every other request (any other path, "/" without a token, "/dashboard" with one) passes through. |
| `Middleware.Authorized` | src/middleware.ts:26-30 | The `authorized` callback admits every request. |
| `Middleware.Guard` | src/middleware.ts:4-35 | A path outside the matcher passes through. On a matched path, a request the `authorized` callback refuses is sent to sign in, and any other request gets the inner decision. |
| `Middleware.GuardIsMiddleware` | src/middleware.ts:4-35 | The deployed guard runs only on the matched paths "/" and "/dashboard", and answers as the inner decision does for every request. Every unmatched path passes through. |
| `Dashboard.DifficultyColor` | src/app/dashboard/page.tsx:95-106 | 'fácil', 'intermedio' and 'difícil', in any letter case, give green, yellow and red. Any other label gives gray. The shade is 400 in dark mode and 600 in light mode. |
| `Dashboard.DifficultyColorIgnoresCase` | src/app/dashboard/page.tsx:96 | A label and its lower-cased form get the same colour. |
| `Dashboard.CapitalizedHardIsRed` | src/app/dashboard/page.tsx:101-102 | The capitalised label 'Difícil' of the sample challenges is shown red. |
| `Dashboard.CapitalizedIntermediateIsYellow` | src/app/dashboard/page.tsx:99-100 | The capitalised label 'Intermedio' is shown yellow. |
| `Dashboard.Slug` | src/app/dashboard/page.tsx:124 | Each character of the title is lower-cased by LowerChar, and a space becomes '-'. In the model this keeps the length (see Left out). |
| `Dashboard.SlugHasNoSpace` | src/app/dashboard/page.tsx:124 | A slug contains no space. |
| `Dashboard.RepoUrl` | src/app/dashboard/page.tsx:124 | repoUrl is "https://github.com/username/" followed by the title's slug. |
| `Dashboard.Start` | src/app/dashboard/page.tsx:119-126 | A challenge whose id matches gets status 'in_progress' and the repoUrl of its own title. Every other field is kept. Any other challenge is returned unchanged. |
| `Dashboard.MarkStarted` | src/app/dashboard/page.tsx:119-127 | The update keeps the list length. |
| `Dashboard.MarkStartedAt` | src/app/dashboard/page.tsx:119-127 | Position by position, order kept: a challenge whose id matches gets status 'in_progress' and the repoUrl of its own title, all its other fields kept. Every other challenge is unchanged. |
| `Dashboard.MarkStartedIdempotent` | src/app/dashboard/page.tsx:119-127 | Starting an id twice is the same as starting it once. Starting an id absent from the list changes nothing. |
| `Dashboard.HandleStartChallenge` | src/app/dashboard/page.tsx:108-128 | An 'english' challenge navigates to "/english-practice" and leaves the list untouched. Any other challenge navigates to "/challenges/<id>" and gets the id-matched update. |
| `EnglishPractice.HasGrammarError` | src/app/english-practice/page.tsx:189 | `some(type === 'grammar')` holds exactly when some error has type 'grammar'. |
| `EnglishPractice.FeedbackTypeOf` | src/app/english-practice/page.tsx:187-189 | The badge is 'perfect' exactly when the error list is empty. It is 'error' exactly when the list is non-empty and holds a 'grammar' error. It is 'suggestion' exactly when the list is non-empty and holds no 'grammar' error. |
| `EnglishPractice.PracticeContext` | src/app/english-practice/page.tsx:99-116 | Each of the five practice types gets a fixed, non-empty context phrase, never the empty initial value. |
| `EnglishPractice.PracticeContextInjective` | src/app/english-practice/page.tsx:100-116 | Each of the five practice types maps to its own fixed context string, and no two types share one. |
| `EnglishPractice.OpeningMessage` | src/app/english-practice/page.tsx:122-124 | The opening line is the last conversation entry's content. When the conversation is missing or empty, it is "I'll help you practice <context>. Let's get started!". |
| `EnglishPractice.StartMessages` | src/app/english-practice/page.tsx:126-152 | On success two messages are appended: the user's "I want to practice <context>." and the assistant's opening line, neither with feedback. On failure only the error reply is appended. |
| `EnglishPractice.SubmitReply` | src/app/english-practice/page.tsx:172-207 | The reply is the apology when either call threw or the conversation is missing or empty. Otherwise it is the last turn's content with the badge and the grammar suggestions. |
| `EnglishPractice.ToggleSuggestions` | src/app/english-practice/page.tsx:213-218 | The flag at the index is flipped, a missing entry counting as false. Every other index is unchanged. |
| `EnglishPractice.ToggleTwice` | src/app/english-practice/page.tsx:213-218 | Toggling the same index twice shows every message as before. |
| `EnglishPractice.PracticePage.constructor` | src/app/english-practice/page.tsx:22-33 | Initial page state: the greeting only, nothing expanded, empty input, not loading, not listening, no practice type, conversation not started. |
| `EnglishPractice.PracticePage.ToggleListening` | src/app/english-practice/page.tsx:80-93 | Without a recogniser: the alert, and no state change. Otherwise isListening flips and the recogniser is stopped or started. The input is cleared only when starting. Listening never starts without a recogniser. |
| `EnglishPractice.PracticePage.SelectPracticeType` | src/app/english-practice/page.tsx:95-156 | Records the type and appends the start messages. The conversation counts as started once a response arrives. Loading ends false. |
| `EnglishPractice.PracticePage.HandleSubmit` | src/app/english-practice/page.tsx:158-211 | Nothing changes when the trimmed input is empty or a request is loading. Otherwise listening stops, the trimmed input is appended as the user's message followed by the reply, the input is cleared, and loading ends false. |
| `EnglishPractice.PracticePage.ToggleSuggestion` | src/app/english-practice/page.tsx:213-218 | Only the expanded-suggestions map changes, by the toggle. |
| `Plans.GetButtonProps` | src/app/plans/page.tsx:9-15 | href is the link unchanged. The label is 'Comenzar ahora' exactly when the link contains 'ysVnjr'. Otherwise it is 'Ahorrar ahora' exactly when the link contains 'X1EkJt', and 'Pagar ahora' when it contains neither. |
| `Plans.BothCodesPreferStart` | src/app/plans/page.tsx:12-13 | Any link containing both codes, in either order, gets 'Comenzar ahora': the 'ysVnjr' check takes precedence. |
| `Text.LowerChar` | src/app/dashboard/page.tsx:96 | Only upper-case Basic Latin and Latin-1 letters change, and an ASCII capital maps to its lower-case letter. |
| `Text.ToLower` | src/app/dashboard/page.tsx:96 | Each character is lower-cased in place by LowerChar, so the length is kept (see Left out). |
| `Text.ToLowerIdempotent` | src/app/dashboard/page.tsx:96 | Lower-casing twice is lower-casing once. |
| `Text.Includes` | src/app/plans/page.tsx:12-13 | `includes` holds exactly when the substring occurs at some position. |
| `Text.TrimStart` | src/app/english-practice/page.tsx:160 | `trimStart` never lengthens the input. What it keeps is stated by TrimStartKeepsSuffix. |
| `Text.TrimEnd` | src/app/english-practice/page.tsx:160 | `trimEnd` never lengthens the input. What it keeps is stated by TrimEndKeepsPrefix. |
| `Text.Trim` | src/app/english-practice/page.tsx:160 | `trim` is `trimEnd` after `trimStart` and never lengthens the input. What it keeps is stated by TrimIsSlice and TrimEmptyIff. |
| `Text.TrimStartKeepsSuffix` | src/app/english-practice/page.tsx:160 | `trimStart` keeps a suffix that does not start with whitespace, and drops only whitespace. |
| `Text.TrimEndKeepsPrefix` | src/app/english-practice/page.tsx:160 | `trimEnd` keeps a prefix that does not end with whitespace, and drops only whitespace. |
| `Text.TrimIsSlice` | src/app/english-practice/page.tsx:167 | The sent message is a contiguous slice of the input with only whitespace around it and no whitespace at its ends. |
| `Text.TrimEmptyIff` | src/app/english-practice/page.tsx:160 | The submit guard's `!input.trim()` holds exactly when the input is all whitespace. |
| `Text.SpacesToHyphens` | src/app/dashboard/page.tsx:124 | `replace(/ /g, '-')` keeps the length, turns every space into '-', and leaves every other character in place. |

## Left out

- The AudioWorklet host is left out: `registerProcessor`, the `type: 'audioData'` tag and the global `sampleRate` carried with each message. Posting on `port` is modelled as appending the frame to `posted`.
- The Float32 storage of samples is left out: samples are copied, never computed on, so they are an opaque type parameter.
- `Process` requires at least one input. `inputs[0].length` throws on an empty list, and the host always passes one entry per node input.
- The rest of the speech pipeline is not part of this model: PCM16 encode/decode, base64, voice activity detection, playback scheduling, turn-taking, transport and session lifecycle. None of that code is among the repository files modelled here. In the code, the capture side is only the accumulator above, and its sample rate comes from the host, not from a 16 kHz constant.
- Network and service layers are left out: they are I/O over REST and a database. Their answers enter the handlers as parameters, and a thrown call is `None`.
- Asynchrony is left out: each handler's `await`s are collapsed into one atomic step. State changes between the awaits are not modelled.
- The speech recogniser's own events are left out (`onresult`, `onerror`, `onend`, and the `stop` on unmount). Its `start`/`stop` calls are recorded in `recognizerCalls`, and its presence is the flag `recognitionSupported`.
- The `disabled` attributes of the form's buttons are left out: they keep `handleSubmit` and `toggleListening` unreachable before a conversation starts. They belong to the rendering, and the handlers do not check this themselves.
- `Date.now()` is left out: the temporary comment id is a parameter.
- `setTimeout` loading, `router.push` and the comment loading effect are left out. Navigation is a returned path.
- Text.LowerChar: `toLowerCase` is modelled one character at a time, for the Basic Latin and Latin-1 capitals only. Capitals of other scripts stay as they are.
- Text.ToLower: the model keeps the length. JavaScript does not always: U+0130 (capital I with dot above) lower-cases to two characters, 'i' followed by U+0307, while the model keeps U+0130 as it is. Outside Latin-1, the only capitals whose lower case is a Basic Latin letter are U+0130 and U+212A (Kelvin sign, lower-cased to 'k'). The lower case of U+0130 carries a combining U+0307, and no difficulty name contains a 'k'. So a label containing either capital matches no difficulty name, in JavaScript and in the model alike, and the difficulty colour is the same.
- Dashboard.Slug: inherits the Text.ToLower gap. A title with capitals outside Latin-1 keeps them upper-case in the modelled slug. A title with U+0130 gets a slug one character shorter than in JavaScript per occurrence.
- Middleware.Guard: the sign-in answer is the constant SignIn. The authentication layer's sign-in URL and its callbackUrl parameter are not modelled. The answer is never given, because the `authorized` callback admits every request.
- Middleware.Middleware: the redirect target is kept as a path. The source resolves it against the request URL, so the origin is unchanged.
- The rendering is left out (JSX, theme classes other than the difficulty colour, suggestion colours), along with the pages and components that only render or fetch.
