# AutoTube Studio, modelled in Dafny

AutoTube Studio is a single-page dashboard for YouTube automation. It has
four views with handlers. What each of them uses is below:

- The workflow page calls the AI service and logs each stage.
- The dashboard calls the AI service and does not log.
- The assistant page talks to the model through its own SDK chat session,
  not through the service, and does not log.
- The channels page calls no model and only logs.

This project models the parts of the views and the service that have state
or decisions in them:

- **Session store** (`session.dfy`): the interface language, which toggles
  between English and Traditional Chinese, the seeded channel list, and the
  newest-first activity log, capped at 100 entries. `Store` is a class. Its
  ghost `history` holds every entry ever added. The invariant `Valid()`
  says the visible buffer is always `Window(history)`, the newest 100
  entries, newest first.
- **AI service** (`gemini.dfy`): script generation and grounded trend
  search.
  - Both check the API key, pick the system instruction for the language
    and build the request.
  - Script generation treats an empty answer as "No response from AI" and
    hands anything else to `JSON.parse`.
  - Trend search extracts the web citations of the first candidate.
  - The model and `JSON.parse` are function parameters (oracles), so every
    possible answer is covered.
  - The declared output schema is a value. Every `VideoScript`'s JSON form
    is proved to conform to it, and a value is proved to conform exactly
    when it decodes as a `VideoScript`. Extra members are allowed.
- **Workflow page** (`automation.dfy`): `handleGenerate`. It takes the
  five-stage indicator through its values around one generation call and
  logs each stage. The panel classifies each stage as completed, current or
  pending.
- **Assistant page** (`chatbot.dfy`): session set-up per language and
  `handleSend`. Every send adds exactly one user message and one model
  message. A failure becomes a substitute message. Because each send is
  modelled as running to completion, the transcript is proved to alternate
  model and user messages, starting with the welcome message.
- **Dashboard** (`dashboard.dfy`): the trend search form, when its submit
  button is enabled, and when the sources block is shown.
- **Channels page** (`channels.dfy`): the status flip and the three
  buttons. Each of them only adds one log entry.
- **Shared shapes** (`types.dfy`) and the `String.prototype.trim` and
  number-to-text helpers the views use (`text.dfy`).

An async handler is modelled as one method that runs to completion. The
settled outcome of each awaited call is a parameter. State that exists only
while the handler is suspended is kept in ghost fields:
`AutomationPage.stepTrace` and `stepAtCall`, `DashboardPage.inFlight`, and
`ChatPage.inFlight`. Two more ghost fields record what a page has sent:
`AutomationPage.requests` holds every generation request, and
`ChatPage.sent` every text handed to the chat session.

The model follows the code in three places where a reader might expect
otherwise:

- A generated script is not checked against the schema after parsing.
  `ParsedValueIsNotChecked` exhibits an answer without any of the six
  fields that still comes back as a success.
- The channel list is never updated. The status toggle only logs.
- Sending a chat message before a session exists is silently ignored. It
  is not an error.

## Model

| member | source | states |
|---|---|---|
| Types.TagsAreDistinct | types.ts:1-26 | The tags of languages, channel statuses and log levels are distinct, so each closed enumeration has exactly its listed values |
| Text.SkipSpaces | pages/Chatbot.tsx:54 | The leading run of white space is skipped: everything skipped is white space and the scan stops at the first other character |
| Text.SkipSpacesBack | pages/Chatbot.tsx:54 | The trailing run of white space is skipped: everything skipped is white space and the scan stops after the last other character |
| Text.Trim | pages/Dashboard.tsx:31 | The trimmed text is the input with a white-space prefix and a white-space suffix removed; it is empty exactly when the input is all white space; otherwise it starts and ends with a non-space, so exactly the leading and trailing white space is removed |
| Text.TrimsToEmpty | pages/Dashboard.tsx:31 | `!s.trim()` holds exactly when the text is all white space |
| Text.NumberText | pages/Chatbot.tsx:57 | The id text of a millisecond count (below 10^21, as `Date.now()` values are) is non-empty, all decimal digits, and without a leading zero unless the count is 0 |
| Text.NumberTextRoundTrip | pages/Chatbot.tsx:57 | Reading the digits of the id text back gives the count |
| Text.NumberTextInjective | pages/Chatbot.tsx:72 | Distinct counts give distinct id texts |
| Session.Toggled | contexts/AppContext.tsx:20-22 | The toggled language always differs from the current one |
| Session.ToggleTwice | contexts/AppContext.tsx:21 | en maps to zh-TW and zh-TW to en, so toggling twice restores the language |
| Session.Prepend | contexts/AppContext.tsx:31 | After adding, the new entry is at index 0, the length is min(old length + 1, 100), and the old entries follow in their order |
| Session.PrependEviction | contexts/AppContext.tsx:31 | Below 100 entries nothing is dropped; with 100 entries exactly the last (oldest) entry is dropped |
| Session.Window | contexts/AppContext.tsx:31 | The buffer a history should leave holds min(n, 100) entries |
| Session.WindowSnoc | contexts/AppContext.tsx:31 | Adding an entry to the window of a history gives the window of the extended history |
| Session.ReplayIsWindow | contexts/AppContext.tsx:24-32 | Any sequence of `addLog` calls on an empty buffer leaves exactly the newest 100 entries, newest first |
| Session.OldestEvicted | contexts/AppContext.tsx:31 | Once more than 100 entries were added, the oldest no longer affects the buffer |
| Session.Entries | contexts/AppContext.tsx:25-30 | Adding k records produces k entries |
| Session.EntriesCarryRecords | contexts/AppContext.tsx:25-30 | Each entry carries exactly its record's level and message, and no channel id |
| Session.EntriesSnoc | contexts/AppContext.tsx:25-31 | The entries of records added one more time extend the earlier entries by exactly one |
| Session.Store.constructor | contexts/AppContext.tsx:16-18 | The store starts in English with the seed channels and an empty log |
| Session.Store.ToggleLanguage | contexts/AppContext.tsx:20-22 | The language flips; the logs and the channels stay as they were |
| Session.Store.AddLog | contexts/AppContext.tsx:24-32 | The entry with the given level and message is prepended and the buffer stays the window of all entries added; the language and the channels are unchanged |
| Gemini.VideoScriptSchemaFields | services/geminiService.ts:5-16 | The schema requires exactly title, description, script, hashtags, thumbnailPrompt and bgMusicType, declares exactly those six properties, each once, and wants hashtags as an array of strings |
| Gemini.EncodeConforms | services/geminiService.ts:5-16 | Every VideoScript, written as JSON, satisfies the declared schema |
| Gemini.DecodeEncode | types.ts:12-19 | Reading a written VideoScript back gives the same six fields, hashtags in order |
| Gemini.ConformingField | services/geminiService.ts:7-15 | A value satisfying the schema has each declared field, in its declared shape |
| Gemini.ConformingDecodes | services/geminiService.ts:5-16 | Every value satisfying the schema can be read as a VideoScript |
| Gemini.DecodesConforming | services/geminiService.ts:5-16 | Every value that can be read as a VideoScript satisfies the schema, so conforming and decoding coincide |
| Gemini.ScriptInstruction | services/geminiService.ts:24-26 | The Chinese instruction is chosen exactly for zh-TW, the English one for en |
| Gemini.SearchInstruction | services/geminiService.ts:60-62 | The Chinese researcher instruction is chosen exactly for zh-TW, the English one for en |
| Gemini.Prompt | services/geminiService.ts:28-29 | The prompt embeds the topic verbatim between two double quotes |
| Gemini.PromptTopicRoundTrip | services/geminiService.ts:28-29 | The topic can be read back from the prompt, so different topics give different prompts |
| Gemini.GenerateVideoContent | services/geminiService.ts:18-51 | Without a key it fails with "API Key not found" and sends nothing. Otherwise it sends the generation request; a model error is rethrown unchanged; an absent or empty text fails with "No response from AI"; any other text gives what `JSON.parse` gives |
| Gemini.ParsedValueIsNotChecked | services/geminiService.ts:46 | An answer parsing to an object without any schema field is still returned as a success |
| Gemini.FirstCandidateChunks | services/geminiService.ts:76 | The chunks are the first candidate's grounding chunk list when it is present, and default to none when there are no candidates, or when the first candidate has no grounding metadata or no chunk list |
| Gemini.PresentWebs | services/geminiService.ts:81 | The filter keeps exactly the present citations and never grows the list |
| Gemini.PresentWebsAppend | services/geminiService.ts:81 | The filter works piecewise over concatenation, so it keeps the order |
| Gemini.ToSourcesAppend | services/geminiService.ts:82 | Mapping citations to sources works piecewise over concatenation |
| Gemini.GroundingSources | services/geminiService.ts:79-82 | There are no more sources than chunks; every web chunk's title and uri is a source; every source comes from a web chunk |
| Gemini.GroundingSourcesPreservesOrder | services/geminiService.ts:79-82 | Sources of consecutive chunks follow each other; a chunk without a web citation adds nothing; one with a citation adds its title and uri |
| Gemini.SearchTrends | services/geminiService.ts:53-89 | Without a key it fails with "API Key not found" and sends nothing. Otherwise it sends the grounded search request and rethrows model errors; on an answer the text is the answer's text, or "" when absent, and the sources are those of the first candidate's grounding chunks |
| Gemini.NoGroundingNoSources | services/geminiService.ts:76 | An answer without candidates or grounding chunks gives an empty source list |
| Automation.Display | pages/Automation.tsx:148-151 | A stage is current exactly when its 1-based number equals the step, and completed exactly when it is below the step |
| Automation.DisplayCounts | pages/Automation.tsx:148-151 | At step s, min(n, s - 1) stages are completed, and exactly one is current when 1 <= s <= n (none otherwise) |
| Automation.ErrorText | pages/Automation.tsx:71 | The error shown and logged is never empty: the error's message, or "Failed to generate content" when it has none |
| Automation.RunLogShape | pages/Automation.tsx:42-72 | A run first logs its topic; success logs info, info, success, info, info, success; failure logs info, info, then one error carrying the error text |
| Automation.StepTraceShape | pages/Automation.tsx:39-68 | The step indicator only moves forward through 0, 1, 2 before the call and ends at 5 on success, at 2 on failure |
| Automation.AutomationPage.constructor | pages/Automation.tsx:11-15 | The page starts with an empty topic, not generating, no result, step 0 and no error |
| Automation.AutomationPage.EditTopic | pages/Automation.tsx:117 | Editing replaces the topic and nothing else |
| Automation.AutomationPage.HandleGenerate | pages/Automation.tsx:25-78 | An empty topic changes nothing. Without a key, the missing-key text is shown and logged once as an error, and no generation request is sent. Otherwise exactly one generation request, for the topic in the current language, is sent at step 2, the step trace and log follow the outcome, generation ends, and the page shows the script or the error text |
| Automation.AutomationPage.Run | pages/Automation.tsx:36-77 | A started run sends exactly one generation request at step 2, for the topic in the current language, logs the run's records for the outcome, and ends not generating, showing the script or the error text |
| Automation.AutomationPage.Begin | pages/Automation.tsx:36-50 | The result and error are cleared, generation starts, the start and the call are logged, and the indicator goes 0, 1, 2 |
| Automation.AutomationPage.Settle | pages/Automation.tsx:52-74 | Once generation settles, a script leads through stages 3 to 5 with their logs; an error logs and shows the error text and the indicator stays |
| Automation.AutomationPage.Succeed | pages/Automation.tsx:53-69 | A generated script is shown and the indicator moves through 3 and 4 to 5, logging each stage |
| Automation.AutomationPage.Fail | pages/Automation.tsx:70-74 | A failed generation logs one error with the error text and shows the same text; the indicator stays where it was |
| Automation.AutomationPage.Emit | pages/Automation.tsx:42 | One `addLog` of a run appends that run's next entry to the store's history |
| Chatbot.ChatInstruction | pages/Chatbot.tsx:27-29 | The assistant's Chinese instruction is chosen exactly for zh-TW, the English one for en |
| Chatbot.ReplyContent | pages/Chatbot.tsx:67-86 | The model message is never empty: the reply when non-empty, the language's "no response" text for an empty reply, the language's connection-error text when the call failed |
| Chatbot.SendDisabled | pages/Chatbot.tsx:165 | The send button is enabled exactly when no reply is awaited and the input is not all white space |
| Chatbot.ExchangeKeepsConversation | pages/Chatbot.tsx:63-86 | Appending a user message and then a model message to a conversation keeps roles alternating, with the model first and last |
| Chatbot.ConversationCounts | pages/Chatbot.tsx:38-86 | In a live transcript the model has written exactly one message more than the user |
| Chatbot.ChatPage.constructor | pages/Chatbot.tsx:11-14 | The page starts with no messages, empty input, not loading and no session |
| Chatbot.ChatPage.EditInput | pages/Chatbot.tsx:157 | Editing replaces the input and nothing else |
| Chatbot.ChatPage.InitSession | pages/Chatbot.tsx:17-45 | Without a key nothing changes. With one, a session for the current language replaces the old one and the transcript restarts as the single welcome message |
| Chatbot.ChatPage.HandleSend | pages/Chatbot.tsx:53-90 | Blank input or no session changes nothing. Otherwise the transcript gains the user's message and then exactly one model message; the input is cleared, loading ends, and the text went to the session; while the reply was awaited the page showed the transcript ending in the user's message, an empty input and the loading flag; the conversation invariant is kept |
| Dashboard.SubmitDisabled | pages/Dashboard.tsx:77 | Submit is enabled exactly when no search is running and the query is non-empty |
| Dashboard.ShowsSources | pages/Dashboard.tsx:90 | The sources block shows exactly when there is a result with at least one source |
| Dashboard.BlankQueryEnabledButIgnored | pages/Dashboard.tsx:31 | A non-empty all-white-space query enables submit, but the search does not start |
| Dashboard.DashboardPage.constructor | pages/Dashboard.tsx:25-27 | The dashboard starts with an empty query, not searching and no result |
| Dashboard.DashboardPage.EditQuery | pages/Dashboard.tsx:70 | Editing replaces the query and nothing else |
| Dashboard.DashboardPage.HandleSearch | pages/Dashboard.tsx:29-44 | A blank query changes nothing. Otherwise the search starts with the spinner on and no result; it ends with the spinner off, showing the result on success and nothing on failure; the untrimmed query is searched in the current language |
| Dashboard.ShownSourcesComeFromGrounding | pages/Dashboard.tsx:90 | After a search, sources are shown exactly when the model answered with a first candidate citing at least one web page |
| Channels.NewStatus | pages/Channels.tsx:15 | The new status is paused exactly when the current status text is "active" |
| Channels.FlipTwice | pages/Channels.tsx:15 | Flipping changes either status, and flipping twice gives it back |
| Channels.StatusLabel | pages/Channels.tsx:68 | The badge reads "Active" exactly for an active channel, otherwise "Paused" |
| Channels.ToggleRecord | pages/Channels.tsx:16 | The toggle logs the warning "<name> is now <new status>": the channel name, then " is now ", then the new status text |
| Channels.AddChannelRecord | pages/Channels.tsx:11 | The add button logs an info entry, with the English text exactly for en and the Chinese text otherwise |
| Channels.OpenLinkRecord | pages/Channels.tsx:20 | The link button logs an info entry naming the channel after its fixed prefix |
| Channels.MoreOptionsRecord | pages/Channels.tsx:24 | The options button logs an info entry naming the channel after its fixed prefix |
| Channels.ToggleMessageNamesChannel | pages/Channels.tsx:16 | The toggle message determines the channel name |
| Channels.ChannelsPage.constructor | pages/Channels.tsx:7 | The page uses the shared store |
| Channels.ChannelsPage.HandleAddChannel | pages/Channels.tsx:10-12 | Adds exactly one info entry in the current language; the channels are unchanged |
| Channels.ChannelsPage.HandleToggleStatus | pages/Channels.tsx:14-17 | Adds exactly one warning entry naming the channel and the new status; no channel's status changes |
| Channels.ChannelsPage.HandleOpenLink | pages/Channels.tsx:19-21 | Adds exactly one info entry naming the channel |
| Channels.ChannelsPage.HandleMoreOptions | pages/Channels.tsx:23-25 | Adds exactly one info entry naming the channel |

## Left out

- The model client and chat sessions of the AI SDK are network I/O. The model is a function parameter from request to answer or thrown error. A chat reply is a parameter of `HandleSend`. Chat history kept on the server is not modelled.
- `JSON.parse` is a function parameter. Its syntax rules are not modelled.
- The delays between workflow stages (`setTimeout`) are not modelled. A handler runs to completion, and interleavings with other events while it waits are not modelled.
- The interval in the store that injects random log entries is not modelled. Its effect is that of arbitrary `AddLog` calls, which the store's invariant already covers.
- Random log ids and wall-clock display times come from the store's `clock`, indexed by how many entries were added before.
- `Date.now()` readings are parameters. Both readings used to build one chat message are taken as the same instant. The reply id is the reply reading plus one, as the code writes it.
- `Chatbot.ChatPage.HandleSend`: the closure's language is taken to be the store's language when the send runs.
- The welcome text of the translations table is a parameter of `InitSession`. The seed channel list is a parameter of the store's constructor. Neither table's contents are part of this model.
- `exportConfig` is a browser download (Blob, object URL, anchor click) and is not modelled.
- Rendering is not modelled beyond the stage classification, the button conditions and the sources block. This covers the markup, styling, chart data, scrolling, routing, sidebar, stat cards and log page.
- `Gemini.Web`: citation titles and uris are strings. A citation with a missing title or uri is not distinguished from one with an empty title or uri.
- `Gemini.Temperature`: the sampling temperature is a `real`, not a floating-point number.
- `Chatbot.ChatPage.HandleSend`: a send is modelled as running to completion. In the application the language toggle stays clickable while a reply is awaited. Toggling re-runs the session set-up, which resets the transcript to the welcome message, and the pending reply is then appended to that fresh transcript. The result has two model messages in a row and an even length. The conversation invariant (`ChatPage.Valid`) does not cover this interleaving.
- The `console.error` calls on failure paths are diagnostic output only and are not modelled. They appear in the service, the workflow page, the assistant page and the dashboard.
