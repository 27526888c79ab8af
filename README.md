# SmartMoodJournal in Dafny

A model of the logic inside the screens of SmartMoodJournal, an Android
journaling app written in Kotlin on Firebase and Gemini. The model proves
properties of five pieces of that logic:

- **Dominant mood** (`MoodTally`, used by `Insights` and `Music`). The mood
  labels are tallied in an insertion-ordered map, and the label with the
  highest count wins. Ties go to the label seen first, and no labels give
  `"neutral"`.
- **Insights screen** (`Insights`, `Prompts`). It loads mood entries, keeps
  the entries of a chosen day and builds the two analysis prompts. It shows
  the music section for four dominant moods and picks a music search from
  the analysis text.
- **Music screen** (`Music`). It tallies the moods of the ten newest entries,
  shows `Detected Mood: <Mood>` and picks a music search from that text.
- **Home screen** (`Homepage`). It shows a greeting, derives the titles of the
  five newest entries and picks a mood bubble from the newest title.
- **Conversation screen** (`Chat`). It keeps a transcript list: a user line is
  appended, a `"Typing..."` placeholder fills a remembered slot that is later
  overwritten, and the list is rebuilt from the stored records.
- **Login screen** (`Login`). It checks the input before a sign-in, caches
  signed-in users on the device, offers a switch-user shortcut and routes to
  the home screen or the profile form.

The modules below them:

- `Text` models the Kotlin string functions the screens use:
  - `contains` and `lowercase`;
  - `replaceFirstChar { it.uppercase() }`;
  - `trim`, `take`, `lines` and `trimIndent`.
- `Seqs` models the `for … ?: continue` loop shape.
- `KeywordRules` models the `when { "k" in text -> … }` chains.
- `Journal` holds the Firestore documents and the outcomes of the calls the
  screens make.

Each screen is a class whose fields are the screen state the Kotlin code
reassigns. Its methods take the outcome of a Firestore query or a Gemini call
as a parameter. Each loop is a `while` loop proved against the function that
specifies it, and the screens' promises are proved as lemmas about those
functions.

## Model

Source paths are relative to the repository root. Every `.kt` file lives in
`SmartMoodJournal/app/src/main/java/com/example/smartmoodjournal/`.

| member | source | states |
|---|---|---|
| MoodTally.Distinct | SmartMoodJournal/app/src/main/java/com/example/smartmoodjournal/MusicActivity.kt:57-62 | the keys of the insertion-ordered count map are exactly the counted labels, each once |
| MoodTally.Tally | SmartMoodJournal/app/src/main/java/com/example/smartmoodjournal/MusicActivity.kt:57-62 | the count map has a key exactly for each counted label |
| MoodTally.FirstMaxIndex | SmartMoodJournal/app/src/main/java/com/example/smartmoodjournal/MusicActivity.kt:63 | `maxByOrNull` picks a key whose count no key exceeds, and every earlier key has a strictly smaller count |
| MoodTally.TopMood | SmartMoodJournal/app/src/main/java/com/example/smartmoodjournal/InsightsActivity.kt:100-101 | the dominant mood is "neutral" for no labels, otherwise one of the labels, and no label occurs more often |
| MoodTally.TopMoodFirstSeen | SmartMoodJournal/app/src/main/java/com/example/smartmoodjournal/InsightsActivity.kt:100-101 | on a tie the dominant mood is the label seen first: it occurs at or before any label with the same count |
| MoodTally.TopMoodUnique | SmartMoodJournal/app/src/main/java/com/example/smartmoodjournal/MusicActivity.kt:63 | any label with the top count that is seen no later than the other such labels is the dominant mood |
| MoodTally.TallyStep | SmartMoodJournal/app/src/main/java/com/example/smartmoodjournal/MusicActivity.kt:61 | counting one more label raises its count by one (from 0 when new) and leaves every other count unchanged |
| MoodTally.DistinctStep | SmartMoodJournal/app/src/main/java/com/example/smartmoodjournal/MusicActivity.kt:61 | a new label joins the map's key order at the end, and a known label leaves the order unchanged |
| MoodTally.CountStep | SmartMoodJournal/app/src/main/java/com/example/smartmoodjournal/MusicActivity.kt:61 | one iteration of the counting loop turns the map of a prefix into the map of the prefix plus one label |
| MoodTally.TallySum | SmartMoodJournal/app/src/main/java/com/example/smartmoodjournal/MusicActivity.kt:57-62 | the counts add up to the number of counted labels |
| MoodTally.TwoHappyOneTired | SmartMoodJournal/app/src/main/java/com/example/smartmoodjournal/InsightsActivity.kt:100-101 | the labels happy, tired, happy give "happy" |
| Seqs.FilterMapSpec | SmartMoodJournal/app/src/main/java/com/example/smartmoodjournal/InsightsActivity.kt:71-78 | a loop that skips rejected records yields one element per kept record, in record order, and a record is kept exactly when the step accepts it |
| Seqs.FilterMapAppend | SmartMoodJournal/app/src/main/java/com/example/smartmoodjournal/AddEntryActivity.kt:91-95 | replaying two runs of records one after the other gives the two results concatenated |
| Text.Lower | SmartMoodJournal/app/src/main/java/com/example/smartmoodjournal/MusicActivity.kt:32 | `lowercase()` keeps the length, lowers each ASCII capital and keeps every other character |
| Text.CapitalizeFirst | SmartMoodJournal/app/src/main/java/com/example/smartmoodjournal/MusicActivity.kt:64 | `replaceFirstChar { it.uppercase() }` uppercases the first character and keeps the rest |
| Text.LowerCapitalizeFirst | SmartMoodJournal/app/src/main/java/com/example/smartmoodjournal/MusicActivity.kt:64 | lowercasing a capitalised text gives the lowercased original |
| Text.TrimEmptyIffBlank | SmartMoodJournal/app/src/main/java/com/example/smartmoodjournal/AddEntryActivity.kt:65-66 | `trim()` gives the empty string exactly when the text is all whitespace |
| Text.Take | SmartMoodJournal/app/src/main/java/com/example/smartmoodjournal/HomepageActivity.kt:86 | `take(n)` is the prefix of length n, or the whole text when it is shorter |
| Text.LinesJoinLines | SmartMoodJournal/app/src/main/java/com/example/smartmoodjournal/InsightsActivity.kt:109 | lines without line breaks joined with "\n" split back into the same lines |
| KeywordRules.FirstMatchSpec | SmartMoodJournal/app/src/main/java/com/example/smartmoodjournal/MusicActivity.kt:33-39 | a `when` chain of substring tests yields the output of the first keyword found, or the `else` branch when none is |
| KeywordRules.FirstMatchRange | SmartMoodJournal/app/src/main/java/com/example/smartmoodjournal/MusicActivity.kt:33-39 | the chain always yields one of its outputs or its fallback |
| KeywordRules.FirstMatchAfterPrefix | SmartMoodJournal/app/src/main/java/com/example/smartmoodjournal/MusicActivity.kt:32-39 | text in front that holds no keyword's first letter does not change the choice |
| Prompts.IndentLines | SmartMoodJournal/app/src/main/java/com/example/smartmoodjournal/InsightsActivity.kt:110-119 | inside the raw literal each template line carries twelve spaces, except the empty line |
| Prompts.RawTemplateLines | SmartMoodJournal/app/src/main/java/com/example/smartmoodjournal/InsightsActivity.kt:110-120 | the interpolated literal splits into an empty line, the indented template lines, the entries block as its own lines (only the first indented) and the closing line |
| Prompts.TrimRaw | SmartMoodJournal/app/src/main/java/com/example/smartmoodjournal/InsightsActivity.kt:120 | `trimIndent()` of the interpolated literal drops its blank first and last lines and cuts the common indent from every other line |
| Prompts.MultiLineKeepsIndent | SmartMoodJournal/app/src/main/java/com/example/smartmoodjournal/InsightsActivity.kt:108-121 | with two or more entry lines the common indent is zero, so the template lines keep their twelve spaces |
| Prompts.MultiLineDiffers | SmartMoodJournal/app/src/main/java/com/example/smartmoodjournal/InsightsActivity.kt:108-121 | with two or more entry lines the prompt as written starts with a space and differs from the intended prompt |
| Prompts.SingleLineAsIntended | SmartMoodJournal/app/src/main/java/com/example/smartmoodjournal/InsightsActivity.kt:108-121 | with exactly one entry line the prompt as written is the intended prompt |
| Prompts.IntendedLines | SmartMoodJournal/app/src/main/java/com/example/smartmoodjournal/InsightsActivity.kt:108-121 | the intended prompt is the template lines followed by the entry lines, one line each, in order |
| Insights.LoadEntriesSpec | SmartMoodJournal/app/src/main/java/com/example/smartmoodjournal/InsightsActivity.kt:70-78 | loading keeps exactly the documents with a note and a timestamp, in result order; a missing mood becomes "neutral" and a missing aiMood "" |
| Insights.DayEntriesSpec | SmartMoodJournal/app/src/main/java/com/example/smartmoodjournal/InsightsActivity.kt:87-89 | the day filter keeps exactly the entries whose day key equals the selected one, in their order |
| Insights.InsightsLabels | SmartMoodJournal/app/src/main/java/com/example/smartmoodjournal/InsightsActivity.kt:100 | one label per entry: its aiMood, or its mood when the aiMood is empty |
| Insights.DayMoodSpec | SmartMoodJournal/app/src/main/java/com/example/smartmoodjournal/InsightsActivity.kt:100-101 | the day's mood is "neutral" for no entries, otherwise some entry's label, and no entry's label is more frequent |
| Insights.DayMoodFirstSeen | SmartMoodJournal/app/src/main/java/com/example/smartmoodjournal/InsightsActivity.kt:100-101 | on a tie the day's mood belongs to an entry at or before any entry whose label has the same count |
| Insights.NoteLines | SmartMoodJournal/app/src/main/java/com/example/smartmoodjournal/InsightsActivity.kt:109 | one `- note` line per entry, in order |
| Insights.NoteMoodLines | SmartMoodJournal/app/src/main/java/com/example/smartmoodjournal/InsightsActivity.kt:129 | one `- note (mood)` line per entry, in order |
| Insights.DatePromptLines | SmartMoodJournal/app/src/main/java/com/example/smartmoodjournal/InsightsActivity.kt:108-121 | the date prompt is the eight template lines, the second naming the date, then one `- note` line per entry in input order |
| Insights.OverallPromptLines | SmartMoodJournal/app/src/main/java/com/example/smartmoodjournal/InsightsActivity.kt:129-139 | the overall prompt is the six template lines, then one `- note (mood)` line per entry in input order |
| Insights.DatePromptAsWrittenIndented | SmartMoodJournal/app/src/main/java/com/example/smartmoodjournal/InsightsActivity.kt:108-121 | as written, two or more entries leave the template lines indented, so the prompt differs from the intended one |
| Insights.DatePromptAsWrittenSingle | SmartMoodJournal/app/src/main/java/com/example/smartmoodjournal/InsightsActivity.kt:108-121 | as written, a single entry gives the intended prompt |
| Insights.OverallPromptAsWrittenIndented | SmartMoodJournal/app/src/main/java/com/example/smartmoodjournal/InsightsActivity.kt:129-139 | as written, two or more entries leave the overall template indented, so the prompt differs from the intended one |
| Insights.InsightsMusicQuerySpec | SmartMoodJournal/app/src/main/java/com/example/smartmoodjournal/InsightsActivity.kt:198-206 | the search is chosen by the first of happy, sad, angry, relaxed found in the lowercased analysis text, else "mood music" |
| Insights.Reply | SmartMoodJournal/app/src/main/java/com/example/smartmoodjournal/InsightsActivity.kt:148-156 | the shown reply is the response text, "No response." without one, or "Error: " and the exception message ("null" when it has none) |
| Insights.InsightsScreen.constructor | SmartMoodJournal/app/src/main/java/com/example/smartmoodjournal/InsightsActivity.kt:23 | the screen starts with no entries and no recorded conversations |
| Insights.InsightsScreen.LoadAllEntries | SmartMoodJournal/app/src/main/java/com/example/smartmoodjournal/InsightsActivity.kt:65-84 | the entry list is replaced by the loaded entries and the status says to pick a date; a failure shows the error and keeps the list; no user means no change |
| Insights.InsightsScreen.AnalyzeWithGemini | SmartMoodJournal/app/src/main/java/com/example/smartmoodjournal/InsightsActivity.kt:144-174 | the analysis view shows the reply, and the prompt and reply are recorded only when a user is signed in |
| Insights.InsightsScreen.ShowEntriesForDate | SmartMoodJournal/app/src/main/java/com/example/smartmoodjournal/InsightsActivity.kt:86-106 | an empty day shows "No entries found", hides the music section and sends no prompt; otherwise the date prompt is analysed and the music section is shown iff the day's mood is happy, sad, angry or relaxed |
| Insights.InsightsScreen.GenerateOverallSummary | SmartMoodJournal/app/src/main/java/com/example/smartmoodjournal/InsightsActivity.kt:123-142 | no entries shows "No entries to summarize." and sends nothing; otherwise the overall prompt is analysed |
| Insights.InsightsScreen.GenerateInsightsClicked | SmartMoodJournal/app/src/main/java/com/example/smartmoodjournal/InsightsActivity.kt:49-54 | the trimmed input is analysed exactly when the input is not blank |
| Insights.InsightsScreen.PlayMoodMusic | SmartMoodJournal/app/src/main/java/com/example/smartmoodjournal/InsightsActivity.kt:198-209 | the search comes from the analysis view's text, and the link is the YouTube Music search for it |
| Music.MusicLabelsSpec | SmartMoodJournal/app/src/main/java/com/example/smartmoodjournal/MusicActivity.kt:58-60 | one label per document with an aiMood or a mood, in order: the lowercased aiMood when present (even empty), else the lowercased mood |
| Music.CountMoods | SmartMoodJournal/app/src/main/java/com/example/smartmoodjournal/MusicActivity.kt:57-62 | the loop leaves the counts of the documents' labels, with the keys in first-seen order |
| Music.MaxByCount | SmartMoodJournal/app/src/main/java/com/example/smartmoodjournal/MusicActivity.kt:63 | "neutral" for an empty map, otherwise the first key in insertion order with a maximal count |
| Music.TallyTopMood | SmartMoodJournal/app/src/main/java/com/example/smartmoodjournal/MusicActivity.kt:57-63 | the tally and the pick give the dominant mood of the documents' labels |
| Music.MusicQuerySpec | SmartMoodJournal/app/src/main/java/com/example/smartmoodjournal/MusicActivity.kt:32-39 | the search is chosen by the first of happy, sad, angry, relaxed found in the lowercased text, else "mood+booster+music" |
| Music.DetectedMoodQuery | SmartMoodJournal/app/src/main/java/com/example/smartmoodjournal/MusicActivity.kt:32-64 | reading "Detected Mood: " plus the capitalised mood back gives the search of the lowercased mood itself |
| Music.TopMoodLowercase | SmartMoodJournal/app/src/main/java/com/example/smartmoodjournal/MusicActivity.kt:59-63 | the dominant mood is already lowercase |
| Music.SuggestedQueryFollowsTopMood | SmartMoodJournal/app/src/main/java/com/example/smartmoodjournal/MusicActivity.kt:32-64 | after a fetch, the suggest button searches by the keyword chain applied to the dominant mood of the ten newest entries |
| Music.NeutralQuery | SmartMoodJournal/app/src/main/java/com/example/smartmoodjournal/MusicActivity.kt:33-38 | "neutral" contains none of the keywords, so it gets "mood+booster+music" |
| Music.NoMoodsNeutral | SmartMoodJournal/app/src/main/java/com/example/smartmoodjournal/MusicActivity.kt:63-64 | with nothing to count the screen shows "Detected Mood: Neutral" and suggests "mood+booster+music" |
| Music.MusicScreen.constructor | SmartMoodJournal/app/src/main/java/com/example/smartmoodjournal/MusicActivity.kt:17 | the mood text starts empty |
| Music.MusicScreen.FetchMoodAndSuggest | SmartMoodJournal/app/src/main/java/com/example/smartmoodjournal/MusicActivity.kt:49-69 | the text becomes "Detected Mood: " plus the capitalised dominant mood of the ten newest entries, or "Couldn't detect mood 😕" on failure; no user means no change |
| Music.MusicScreen.SuggestQuery | SmartMoodJournal/app/src/main/java/com/example/smartmoodjournal/MusicActivity.kt:31-45 | the search comes from the shown text, and the link is the YouTube Music search for it |
| Homepage.EntryTitleSpec | SmartMoodJournal/app/src/main/java/com/example/smartmoodjournal/HomepageActivity.kt:85-86 | a title is the summary; else the note's first 40 characters plus "..." (added even to a short note, at most 43 characters); else "Untitled Entry" |
| Homepage.Titles | SmartMoodJournal/app/src/main/java/com/example/smartmoodjournal/HomepageActivity.kt:84-88 | one title per fetched document, in order |
| Homepage.MoodBubbleSpec | SmartMoodJournal/app/src/main/java/com/example/smartmoodjournal/HomepageActivity.kt:94-104 | no titles gives the "haven't written anything" bubble; otherwise only the first title counts, case-insensitively, with priority happy > tired > sad > angry > stressed, else "💭 Reflective days lately?" |
| Homepage.BubbleFollowsNewest | SmartMoodJournal/app/src/main/java/com/example/smartmoodjournal/HomepageActivity.kt:78-89 | after a fetch, the bubble depends only on the newest entry's title |
| Homepage.GreetingSpec | SmartMoodJournal/app/src/main/java/com/example/smartmoodjournal/HomepageActivity.kt:71-72 | the greeting is "Hey ", the user's name (or "there" when the profile has no name), then ", here's how you've been..." |
| Homepage.GreetingNameReadBack | SmartMoodJournal/app/src/main/java/com/example/smartmoodjournal/HomepageActivity.kt:71-72 | the signed-in user's name can be read back from the greeting (it lies between "Hey " and the fixed suffix), so two greetings are equal exactly when the names are |
| Homepage.HomepageScreen.constructor | SmartMoodJournal/app/src/main/java/com/example/smartmoodjournal/HomepageActivity.kt:29 | the entry list starts empty |
| Homepage.HomepageScreen.LoadUserGreeting | SmartMoodJournal/app/src/main/java/com/example/smartmoodjournal/HomepageActivity.kt:68-74 | a found profile sets the greeting; no user or a failed lookup changes nothing |
| Homepage.HomepageScreen.LoadRecentEntries | SmartMoodJournal/app/src/main/java/com/example/smartmoodjournal/HomepageActivity.kt:76-92 | the list is replaced by the titles of at most five newest documents and the bubble follows that list; no user or a failed query changes nothing |
| Chat.Records | SmartMoodJournal/app/src/main/java/com/example/smartmoodjournal/AddEntryActivity.kt:107-111 | each line is stored as its message with type "user" or "ai" |
| Chat.ReplaySpec | SmartMoodJournal/app/src/main/java/com/example/smartmoodjournal/AddEntryActivity.kt:91-94 | reloading gives one line per record with a message, in record order; a line is a user line exactly when its type is "user" |
| Chat.ReplayRecords | SmartMoodJournal/app/src/main/java/com/example/smartmoodjournal/AddEntryActivity.kt:86-94 | storing a transcript and reloading it gives the same transcript |
| Chat.ReplyText | SmartMoodJournal/app/src/main/java/com/example/smartmoodjournal/AddEntryActivity.kt:127-155 | the placeholder becomes the reply, "I'm here for you." without text, or the apology on failure |
| Chat.ReplayAfterSend | SmartMoodJournal/app/src/main/java/com/example/smartmoodjournal/AddEntryActivity.kt:101-157 | reloading after a send adds the user's message, and the reply only when the call succeeded |
| Chat.ShownMatchesReloadIffAnswered | SmartMoodJournal/app/src/main/java/com/example/smartmoodjournal/AddEntryActivity.kt:127-155 | after a send, the transcript on screen equals the reloaded one exactly when the call did not fail |
| Chat.ChatScreen.constructor | SmartMoodJournal/app/src/main/java/com/example/smartmoodjournal/AddEntryActivity.kt:32 | the transcript starts empty |
| Chat.ChatScreen.LoadConversation | SmartMoodJournal/app/src/main/java/com/example/smartmoodjournal/AddEntryActivity.kt:84-99 | the transcript is rebuilt from the records; no user or a failed query changes nothing |
| Chat.ChatScreen.AddUserMessage | SmartMoodJournal/app/src/main/java/com/example/smartmoodjournal/AddEntryActivity.kt:101-116 | exactly one user line is appended, the earlier lines stay, and a "user" record is stored |
| Chat.ChatScreen.ShowTyping | SmartMoodJournal/app/src/main/java/com/example/smartmoodjournal/AddEntryActivity.kt:120-125 | the "Typing..." placeholder is appended at an index equal to the old length |
| Chat.ChatScreen.ShowReply | SmartMoodJournal/app/src/main/java/com/example/smartmoodjournal/AddEntryActivity.kt:127-155 | only the remembered slot changes and the length stays; with a signed-in user the slot shows the reply and an "ai" record is stored only on success; with nobody signed in the store's null dereference is caught, so the slot shows the apology and nothing is stored |
| Chat.ChatScreen.GenerateAIResponse | SmartMoodJournal/app/src/main/java/com/example/smartmoodjournal/AddEntryActivity.kt:118-157 | the transcript gains one line at its end: the reply (stored only on success) when a user is signed in, the apology (nothing stored) when nobody is |
| Chat.ChatScreen.SendText | SmartMoodJournal/app/src/main/java/com/example/smartmoodjournal/AddEntryActivity.kt:67-69 | the user line and then the reply line are appended, the field is cleared, and the user record is stored before the reply record, which is stored only on success |
| Chat.ChatScreen.SendClicked | SmartMoodJournal/app/src/main/java/com/example/smartmoodjournal/AddEntryActivity.kt:64-71 | a blank input does nothing, whether or not anyone is signed in; otherwise the trimmed text and the reply are appended and the field is cleared |
| Login.CanAttemptLoginIff | SmartMoodJournal/app/src/main/java/com/example/smartmoodjournal/LoginActivity.kt:55-61 | a sign-in is attempted exactly when neither field is blank |
| Login.UidKeyInjective | SmartMoodJournal/app/src/main/java/com/example/smartmoodjournal/LoginActivity.kt:160 | different emails have different `uid_` keys |
| Login.AddUserSpec | SmartMoodJournal/app/src/main/java/com/example/smartmoodjournal/LoginActivity.kt:155-159 | caching adds the email to the stored users, keeps every earlier email, adds nothing else and leaves other sets alone |
| Login.AddUserIdempotent | SmartMoodJournal/app/src/main/java/com/example/smartmoodjournal/LoginActivity.kt:155-159 | caching the same email twice leaves the sets as caching it once |
| Login.RouteFor | SmartMoodJournal/app/src/main/java/com/example/smartmoodjournal/LoginActivity.kt:136-140 | the route is the home screen iff the profile exists with a non-empty name, else the profile form |
| Login.SwitchBackToCachedUser | SmartMoodJournal/app/src/main/java/com/example/smartmoodjournal/LoginActivity.kt:82-89 | once a user is cached, switching to their email while they are signed in redirects, even after other users are cached |
| Login.NoRedirectWithoutCache | SmartMoodJournal/app/src/main/java/com/example/smartmoodjournal/LoginActivity.kt:84-88 | an empty or missing target, an uncached email or no signed-in user never redirects |
| Login.PrefillEmail | SmartMoodJournal/app/src/main/java/com/example/smartmoodjournal/LoginActivity.kt:49-52 | the email field takes the extra only when it is present and non-empty |
| Login.LoginScreen.constructor | SmartMoodJournal/app/src/main/java/com/example/smartmoodjournal/LoginActivity.kt:49-52 | the email field starts prefilled from the extra, and nothing has been attempted or routed |
| Login.LoginScreen.CacheUserToDevice | SmartMoodJournal/app/src/main/java/com/example/smartmoodjournal/LoginActivity.kt:151-162 | nothing changes without a user and an email; otherwise the email joins the users set and its uid is stored under `uid_<email>` |
| Login.LoginScreen.CheckUserProfileAndRedirect | SmartMoodJournal/app/src/main/java/com/example/smartmoodjournal/LoginActivity.kt:128-149 | with a uid and an email the active email is written first, then a found profile sets the route; a failed lookup routes nowhere |
| Login.LoginScreen.CompleteSignIn | SmartMoodJournal/app/src/main/java/com/example/smartmoodjournal/LoginActivity.kt:65-67 | the user becomes the current one; with an email it joins the cached users, its uid and the active email are stored, and a found profile sets the route; without an email nothing is cached or routed |
| Login.LoginScreen.SubmitCredentials | SmartMoodJournal/app/src/main/java/com/example/smartmoodjournal/LoginActivity.kt:63-71 | the pair is handed to sign-in; a failure changes nothing else, a success makes the user current, caches it and routes |
| Login.LoginScreen.LoginClicked | SmartMoodJournal/app/src/main/java/com/example/smartmoodjournal/LoginActivity.kt:54-72 | blank fields stop the login; otherwise the trimmed pair is tried, and a success caches the user and routes |
| Login.LoginScreen.SwitchToUser | SmartMoodJournal/app/src/main/java/com/example/smartmoodjournal/LoginActivity.kt:82-89 | the profile check runs only when the cached uid for the target equals the signed-in uid |

## Left out

- Firebase calls are not modelled.
  - A query's result is a parameter: its documents in query order, or a failure.
  - `orderBy(...)` is the order of that sequence, and `limit(n)` is `Take`.
  - Writes are appended to ghost logs: `InsightsScreen.conversations` and `ChatScreen.stored`. Their timestamps are not modelled.
- Gemini calls are not modelled. A call's outcome is a parameter: a response with or without text, or an exception with or without a message.
- Coroutines and dispatchers are not modelled: each handler runs as one sequential step. So the "🧠 Thinking..." text that `analyzeWithGemini` shows until the reply arrives is not modelled.
- `SimpleDateFormat("yyyy-MM-dd")` is a `dayKey` parameter, and a `Date` is its millisecond timestamp.
- Case mapping covers the ASCII letters only. `lowercase(Locale)`, `uppercase()` and `contains(ignoreCase = true)` are locale and Unicode dependent.
- These are platform I/O and not modelled:
  - text-to-speech;
  - speech recognition and the voice buttons;
  - starting the YouTube Music intent (its URL is returned);
  - other navigation intents, toasts, logging, and adapter notify/scroll calls.
- Google one-tap sign-in (`LoginActivity.kt:92-126`) is not modelled. On success it makes the same two calls as `LoginClicked`: `cacheUserToDevice`, then `checkUserProfileAndRedirect`.
- The `!!` dereference of the current user in `addUserMessage` (`AddEntryActivity.kt:113`) is not caught, so the app crashes there when nobody is signed in. The crash is not modelled: `ChatScreen.AddUserMessage` and `ChatScreen.SendText` require a signed-in user, and `ChatScreen.SendClicked` requires one unless the input is blank. The same dereference at `AddEntryActivity.kt:145` sits inside a `try`, and `ShowReply` models it as caught.
- A string field holding a non-string, or a numeric field holding a non-number, makes `getString`/`getLong` throw, which crashes the snapshot listeners at `InsightsActivity.kt:70-78`, `MusicActivity.kt:57-62`, `HomepageActivity.kt:84-88` and `AddEntryActivity.kt:91-95`. A floating-point number read by `getLong` is truncated rather than thrown. The model's documents hold only the declared types (a timestamp is already a whole number), so neither case is modelled.
- Layout text set before any handler runs is modelled as "" or hidden.
- Other screens (profile, splash, view entry), the adapters and the API declarations are not part of this model.
- Insights.InsightsScreen.ShowEntriesForDate: records the corrected `DatePrompt` as the prompt sent to Gemini. The app sends the as-written prompt (`DatePromptAsWritten`), which differs from it once the day has two or more entries (see Findings).
- Insights.InsightsScreen.GenerateOverallSummary: records the corrected `OverallPrompt`. The app sends `OverallPromptAsWritten`, which differs from it once there are two or more entries (see Findings).
- Homepage.EntryTitleSpec: lengths count Unicode scalar values. Kotlin's `take(40)` counts UTF-16 code units, so a note with characters outside the Basic Multilingual Plane (most emoji) keeps fewer characters in the app, can be cut inside a surrogate pair, and the 43 bound holds in code units rather than characters.
- Text.Take: on notes it has the same difference from Kotlin's `take`, which counts UTF-16 code units. On lists of documents the two agree.
- Insights.DatePromptLines: stated only for notes and a date without line breaks. A line break inside a note would split that entry over several prompt lines.
- Insights.OverallPromptLines: stated only for notes and moods without line breaks, for the same reason.
- Insights.DatePromptAsWrittenIndented: stated only for notes and a date without line breaks, for the same reason.
- Insights.OverallPromptAsWrittenIndented: stated only for notes and moods without line breaks, for the same reason.
- Insights.DatePromptAsWrittenSingle: stated only for notes and a date without line breaks, for the same reason.

## Findings

| source | as written | input that shows it | evidently intended | confidence | as-written member | corrected member |
|---|---|---|---|---|---|---|
| SmartMoodJournal/app/src/main/java/com/example/smartmoodjournal/InsightsActivity.kt:108-121 | `trimIndent()` runs after `$combined` is interpolated. Every entry line after the first starts at column 0, so the common indent is 0 and each template line keeps its twelve leading spaces. | two entries on the selected day, with notes "a" and "b" | the template lines without indentation, followed by `- a` and `- b` | not executed | Insights.DatePromptAsWrittenIndented | Insights.DatePromptLines |
| SmartMoodJournal/app/src/main/java/com/example/smartmoodjournal/InsightsActivity.kt:129-139 | The same: with two or more entries the overall prompt keeps the template's indentation. | two entries in total | the six template lines without indentation, followed by one `- note (mood)` line per entry | not executed | Insights.OverallPromptAsWrittenIndented | Insights.OverallPromptLines |

The screens send the corrected prompts, `DatePrompt` and `OverallPrompt`.
