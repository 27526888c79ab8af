/**
 * The insights screen: it loads every mood entry of the signed-in user, shows
 * an AI analysis of the entries of a chosen day (or of all entries), shows the
 * music section when the day's dominant mood is one of four, and picks a music
 * search from the analysis text.
 */
module Insights {
  import opened Wrappers
  import opened Text
  import opened Seqs
  import opened MoodTally
  import opened KeywordRules
  import opened Prompts
  import opened Journal

  /** An entry as the screen keeps it in memory; `timestamp` stands for its `Date`. */
  datatype MoodEntry = MoodEntry(note: string, mood: string, aiMood: string, timestamp: int)

  /** A record of `users/{uid}/aiConversations`. */
  datatype Conversation = Conversation(prompt: string, reply: string)

  const SelectDateText: string := "📅 Select a date to get insights!"
  const LoadErrorText: string := "Error loading data 😢"
  const NoDayEntriesText: string := "📭 No entries found for selected date."
  const NoEntriesText: string := "📭 No entries to summarize."
  const NoResponseText: string := "No response."

  // ---------------------------------------------------------------- loading

  /** One step of the loading loop: skip a document without note or timestamp, default the rest. */
  function EntryOf(d: MoodDoc): Option<MoodEntry> {
    if d.note.None? || d.timestamp.None? then None
    else Some(MoodEntry(d.note.value, d.mood.GetOr(Neutral), d.aiMood.GetOr(""), d.timestamp.value))
  }

  /** The entry list after a successful load. */
  function LoadEntries(docs: seq<MoodDoc>): seq<MoodEntry> {
    FilterMap(EntryOf, docs)
  }

  /**
   * Loading keeps exactly the documents with a note and a timestamp, in result
   * order, one entry each; a missing mood becomes "neutral" and a missing
   * aiMood the empty string.
   */
  lemma LoadEntriesSpec(docs: seq<MoodDoc>)
    ensures forall i :: 0 <= i < |docs| ==>
              (i in Survivors(EntryOf, docs) <==> docs[i].note.Some? && docs[i].timestamp.Some?)
    ensures forall k, l :: 0 <= k < l < |Survivors(EntryOf, docs)| ==>
              Survivors(EntryOf, docs)[k] < Survivors(EntryOf, docs)[l]
    ensures |LoadEntries(docs)| == |Survivors(EntryOf, docs)|
    ensures forall k :: 0 <= k < |LoadEntries(docs)| ==>
              Survivors(EntryOf, docs)[k] < |docs| &&
              var d := docs[Survivors(EntryOf, docs)[k]];
              d.note.Some? && d.timestamp.Some? &&
              LoadEntries(docs)[k] == MoodEntry(d.note.value, d.mood.GetOr(Neutral), d.aiMood.GetOr(""), d.timestamp.value)
  {
    FilterMapSpec(EntryOf, docs);
  }

  // ---------------------------------------------------------------- the chosen day

  /** The day filter as a keep-or-skip step; `dayKey` is the `yyyy-MM-dd` formatting of a timestamp. */
  function OnDay(dayKey: int -> string, selected: string): MoodEntry -> Option<MoodEntry> {
    (e: MoodEntry) => if dayKey(e.timestamp) == selected then Some(e) else None
  }

  /** The entries whose day key is the selected one. */
  function DayEntries(entries: seq<MoodEntry>, dayKey: int -> string, selected: string): seq<MoodEntry> {
    FilterMap(OnDay(dayKey, selected), entries)
  }

  /** The day filter keeps exactly the entries of the selected day, in their order. */
  lemma DayEntriesSpec(entries: seq<MoodEntry>, dayKey: int -> string, selected: string)
    ensures forall i :: 0 <= i < |entries| ==>
              (i in Survivors(OnDay(dayKey, selected), entries) <==> dayKey(entries[i].timestamp) == selected)
    ensures forall k, l :: 0 <= k < l < |Survivors(OnDay(dayKey, selected), entries)| ==>
              Survivors(OnDay(dayKey, selected), entries)[k] < Survivors(OnDay(dayKey, selected), entries)[l]
    ensures |DayEntries(entries, dayKey, selected)| == |Survivors(OnDay(dayKey, selected), entries)|
    ensures forall k :: 0 <= k < |DayEntries(entries, dayKey, selected)| ==>
              Survivors(OnDay(dayKey, selected), entries)[k] < |entries| &&
              DayEntries(entries, dayKey, selected)[k] == entries[Survivors(OnDay(dayKey, selected), entries)[k]]
  {
    var f := OnDay(dayKey, selected);
    FilterMapSpec(f, entries);
  }

  /** `aiMood.ifEmpty { mood }`. */
  function InsightsLabel(e: MoodEntry): string {
    if e.aiMood == "" then e.mood else e.aiMood
  }

  function InsightsLabels(entries: seq<MoodEntry>): (labels: seq<string>)
    ensures |labels| == |entries|
    ensures forall i :: 0 <= i < |entries| ==> labels[i] == InsightsLabel(entries[i])
  {
    seq(|entries|, i requires 0 <= i < |entries| => InsightsLabel(entries[i]))
  }

  /** `maxByOrNull` over the day's label counts, or "neutral". */
  function DayMood(day: seq<MoodEntry>): string {
    TopMood(InsightsLabels(day))
  }

  /**
   * The day's dominant mood is the label of one of the entries whose count no
   * other label exceeds; "neutral" for no entries.
   */
  lemma DayMoodSpec(day: seq<MoodEntry>)
    ensures day == [] ==> DayMood(day) == Neutral
    ensures day != [] ==> exists i :: 0 <= i < |day| && DayMood(day) == InsightsLabel(day[i])
    ensures forall i :: 0 <= i < |day| ==>
              multiset(InsightsLabels(day))[InsightsLabel(day[i])] <= multiset(InsightsLabels(day))[DayMood(day)]
  {
    var labels := InsightsLabels(day);
    assert forall i :: 0 <= i < |day| ==> labels[i] in labels;
    if day != [] {
      var k :| 0 <= k < |labels| && labels[k] == DayMood(day);
      assert DayMood(day) == InsightsLabel(day[k]);
    }
  }

  /** A tie goes to the label seen first among the day's entries. */
  lemma DayMoodFirstSeen(day: seq<MoodEntry>, i: nat)
    requires i < |day|
    requires multiset(InsightsLabels(day))[InsightsLabel(day[i])] == multiset(InsightsLabels(day))[DayMood(day)]
    ensures exists j :: 0 <= j <= i && DayMood(day) == InsightsLabel(day[j])
  {
    var labels := InsightsLabels(day);
    TopMoodFirstSeen(labels, i);
    var j :| 0 <= j < |labels[..i + 1]| && labels[..i + 1][j] == DayMood(day);
    assert labels[j] == DayMood(day);
  }

  /** The music section is shown for these dominant moods only. */
  predicate MusicSectionVisible(mood: string) {
    mood in ["happy", "sad", "angry", "relaxed"]
  }

  // ---------------------------------------------------------------- prompts

  function DateHeader(date: string): seq<string> {
    [ "You're an AI therapist.",
      "Analyze these journal entries for " + date + ".",
      "Provide:",
      "1. An emotional summary",
      "2. A short mental wellness observation",
      "3. 1 helpful advice",
      "",
      "Entries:" ]
  }

  const OverallHeader: seq<string> :=
    [ "Analyze the user's overall journaling trends.",
      "1. Emotional pattern",
      "2. Dominant moods",
      "3. 2 helpful tips or affirmations",
      "",
      "Entries:" ]

  /** `"- ${it.note}"` per entry. */
  function NoteLines(entries: seq<MoodEntry>): (ls: seq<string>)
    ensures |ls| == |entries|
    ensures forall i :: 0 <= i < |entries| ==> ls[i] == "- " + entries[i].note
  {
    seq(|entries|, i requires 0 <= i < |entries| => "- " + entries[i].note)
  }

  /** `"- ${it.note} (${it.mood})"` per entry. */
  function NoteMoodLines(entries: seq<MoodEntry>): (ls: seq<string>)
    ensures |ls| == |entries|
    ensures forall i :: 0 <= i < |entries| ==> ls[i] == "- " + entries[i].note + " (" + entries[i].mood + ")"
  {
    seq(|entries|, i requires 0 <= i < |entries| => "- " + entries[i].note + " (" + entries[i].mood + ")")
  }

  /** The date prompt as `buildDatePrompt` builds it. */
  function DatePromptAsWritten(entries: seq<MoodEntry>, date: string): string {
    AsWritten(DateHeader(date), JoinLines(NoteLines(entries)))
  }

  /** The date prompt with the template's indentation removed, as the screen sends it here. */
  function DatePrompt(entries: seq<MoodEntry>, date: string): string {
    Intended(DateHeader(date), JoinLines(NoteLines(entries)))
  }

  /** The overall prompt as `generateOverallSummary` builds it. */
  function OverallPromptAsWritten(entries: seq<MoodEntry>): string {
    AsWritten(OverallHeader, JoinLines(NoteMoodLines(entries)))
  }

  /** The overall prompt with the template's indentation removed, as the screen sends it here. */
  function OverallPrompt(entries: seq<MoodEntry>): string {
    Intended(OverallHeader, JoinLines(NoteMoodLines(entries)))
  }

  /** Notes that stay on one line each: all the date prompt shows of an entry. */
  predicate SingleLineNotes(entries: seq<MoodEntry>) {
    forall i :: 0 <= i < |entries| ==> NoLineBreak(entries[i].note)
  }

  /** Notes and moods that stay on one line each: all the overall prompt shows of an entry. */
  predicate SingleLineEntries(entries: seq<MoodEntry>) {
    forall i :: 0 <= i < |entries| ==> NoLineBreak(entries[i].note) && NoLineBreak(entries[i].mood)
  }

  lemma DateLine(date: string)
    requires NoLineBreak(date)
    ensures HeaderLine("Analyze these journal entries for " + date + ".")
  {
    HeaderLineAppend("Analyze these journal entries for ", date);
    HeaderLineAppend("Analyze these journal entries for " + date, ".");
  }

  lemma DateHeaderLines(date: string)
    requires NoLineBreak(date)
    ensures HeaderLines(DateHeader(date))
  {
    var h := DateHeader(date);
    forall i | 0 <= i < |h| ensures HeaderLine(h[i]) {
      if i == 0 {
        TherapistLine(h[i]);
      } else if i == 1 {
        DateLine(date);
      } else if i == 3 || i == 4 {
        DateTaskLines(h[3], h[4]);
      } else if i == 5 {
        AdviceLine(h[i]);
      }
    }
  }

  lemma TherapistLine(l: string)
    requires l == "You're an AI therapist."
    ensures HeaderLine(l)
  {
  }

  lemma DateTaskLines(l: string, m: string)
    requires l == "1. An emotional summary" && m == "2. A short mental wellness observation"
    ensures HeaderLine(l) && HeaderLine(m)
  {
  }

  lemma AdviceLine(l: string)
    requires l == "3. 1 helpful advice"
    ensures HeaderLine(l)
  {
  }

  /** The first overall line starts with a letter. */
  lemma TrendsLine(l: string)
    requires l == "Analyze the user's overall journaling trends."
    ensures HeaderLine(l)
  {
    var a, b, c := "Analyze the ", "user's overall ", "journaling trends.";
    TrendsPieces(l);
    TrendsPieceLines(a, b, c);
    HeaderLineAppend(a, b);
    HeaderLineAppend(a + b, c);
  }

  lemma TrendsPieces(l: string)
    requires l == "Analyze the user's overall journaling trends."
    ensures l == "Analyze the " + "user's overall " + "journaling trends."
  {
  }

  lemma TrendsPieceLines(a: string, b: string, c: string)
    requires a == "Analyze the " && b == "user's overall " && c == "journaling trends."
    ensures HeaderLine(a) && a != "" && NoLineBreak(b) && NoLineBreak(c)
  {
  }

  lemma OverallTaskLines(l: string, m: string, n: string)
    requires l == "1. Emotional pattern" && m == "2. Dominant moods" && n == "3. 2 helpful tips or affirmations"
    ensures HeaderLine(l) && HeaderLine(m) && HeaderLine(n)
  {
  }

  lemma OverallHeaderLines()
    ensures HeaderLines(OverallHeader)
  {
    var h := OverallHeader;
    forall i | 0 <= i < |h| ensures HeaderLine(h[i]) {
      if i == 0 {
        TrendsLine(h[i]);
      } else if 1 <= i <= 3 {
        OverallTaskLines(h[1], h[2], h[3]);
      }
    }
  }

  lemma NoteLinesEntryLines(entries: seq<MoodEntry>)
    requires |entries| >= 1 && SingleLineNotes(entries)
    ensures EntryLines(NoteLines(entries))
  {
    forall i | 0 <= i < |entries| ensures NoLineBreak(NoteLines(entries)[i]) {
      NoLineBreakAppend("- ", entries[i].note);
    }
  }

  lemma NoteMoodLinesEntryLines(entries: seq<MoodEntry>)
    requires |entries| >= 1 && SingleLineEntries(entries)
    ensures EntryLines(NoteMoodLines(entries))
  {
    forall i | 0 <= i < |entries| ensures NoLineBreak(NoteMoodLines(entries)[i]) {
      var e := entries[i];
      NoLineBreakAppend("- ", e.note);
      NoLineBreakAppend("- " + e.note, " (");
      NoLineBreakAppend("- " + e.note + " (", e.mood);
      NoLineBreakAppend("- " + e.note + " (" + e.mood, ")");
    }
  }

  /**
   * The date prompt is the eight template lines, the second naming the date,
   * followed by one `- note` line per entry in input order.
   */
  lemma DatePromptLines(entries: seq<MoodEntry>, date: string)
    requires |entries| >= 1 && SingleLineNotes(entries) && NoLineBreak(date)
    ensures Lines(DatePrompt(entries, date)) == DateHeader(date) + NoteLines(entries)
    ensures Lines(DatePrompt(entries, date))[1] == "Analyze these journal entries for " + date + "."
  {
    DateHeaderLines(date);
    NoteLinesEntryLines(entries);
    IntendedLines(DateHeader(date), NoteLines(entries));
  }

  /** The overall prompt is the six template lines followed by one `- note (mood)` line per entry in input order. */
  lemma OverallPromptLines(entries: seq<MoodEntry>)
    requires |entries| >= 1 && SingleLineEntries(entries)
    ensures Lines(OverallPrompt(entries)) == OverallHeader + NoteMoodLines(entries)
  {
    OverallHeaderLines();
    NoteMoodLinesEntryLines(entries);
    IntendedLines(OverallHeader, NoteMoodLines(entries));
  }

  /**
   * As written, a day with two or more entries gives a prompt whose template
   * lines keep their twelve spaces of indentation, unlike the intended prompt.
   */
  lemma DatePromptAsWrittenIndented(entries: seq<MoodEntry>, date: string)
    requires |entries| >= 2 && SingleLineNotes(entries) && NoLineBreak(date)
    ensures DatePromptAsWritten(entries, date) == JoinLines(Interior(DateHeader(date), NoteLines(entries)))
    ensures DatePromptAsWritten(entries, date) != DatePrompt(entries, date)
  {
    DateHeaderLines(date);
    NoteLinesEntryLines(entries);
    MultiLineKeepsIndent(DateHeader(date), NoteLines(entries));
    MultiLineDiffers(DateHeader(date), NoteLines(entries));
  }

  /** As written, a day with a single entry gives the intended prompt. */
  lemma DatePromptAsWrittenSingle(entries: seq<MoodEntry>, date: string)
    requires |entries| == 1 && SingleLineNotes(entries) && NoLineBreak(date)
    ensures DatePromptAsWritten(entries, date) == DatePrompt(entries, date)
  {
    DateHeaderLines(date);
    NoteLinesEntryLines(entries);
    assert JoinLines(NoteLines(entries)) == NoteLines(entries)[0];
    SingleLineAsIntended(DateHeader(date), NoteLines(entries)[0]);
  }

  /** The same discrepancy in the overall prompt, for two or more entries. */
  lemma OverallPromptAsWrittenIndented(entries: seq<MoodEntry>)
    requires |entries| >= 2 && SingleLineEntries(entries)
    ensures OverallPromptAsWritten(entries) == JoinLines(Interior(OverallHeader, NoteMoodLines(entries)))
    ensures OverallPromptAsWritten(entries) != OverallPrompt(entries)
  {
    OverallHeaderLines();
    NoteMoodLinesEntryLines(entries);
    MultiLineKeepsIndent(OverallHeader, NoteMoodLines(entries));
    MultiLineDiffers(OverallHeader, NoteMoodLines(entries));
  }

  // ---------------------------------------------------------------- music query

  const InsightsMusicRules: seq<Rule> :=
    [ Rule("happy", "happy pop playlist"),
      Rule("sad", "sad lofi beats"),
      Rule("angry", "calm instrumental"),
      Rule("relaxed", "relaxing jazz") ]

  const InsightsMusicFallback: string := "mood music"

  /** The search `playMoodMusic` opens for the text of the analysis view. */
  function InsightsMusicQuery(text: string): string {
    FirstMatch(Lower(text), InsightsMusicRules, InsightsMusicFallback)
  }

  /** The query is decided by the first of happy, sad, angry, relaxed found in the lowercased text. */
  lemma InsightsMusicQuerySpec(text: string)
    ensures var t := Lower(text);
      && (Contains(t, "happy") ==> InsightsMusicQuery(text) == "happy pop playlist")
      && (!Contains(t, "happy") && Contains(t, "sad") ==> InsightsMusicQuery(text) == "sad lofi beats")
      && (!Contains(t, "happy") && !Contains(t, "sad") && Contains(t, "angry") ==>
            InsightsMusicQuery(text) == "calm instrumental")
      && (!Contains(t, "happy") && !Contains(t, "sad") && !Contains(t, "angry") && Contains(t, "relaxed") ==>
            InsightsMusicQuery(text) == "relaxing jazz")
      && (!Contains(t, "happy") && !Contains(t, "sad") && !Contains(t, "angry") && !Contains(t, "relaxed") ==>
            InsightsMusicQuery(text) == "mood music")
  {
    var t, rs := Lower(text), InsightsMusicRules;
    FirstMatchSpec(t, rs, InsightsMusicFallback);
    assert NoneBefore(t, rs, 0);
    assert !Contains(t, "happy") ==> NoneBefore(t, rs, 1);
    assert !Contains(t, "happy") && !Contains(t, "sad") ==> NoneBefore(t, rs, 2);
    assert !Contains(t, "happy") && !Contains(t, "sad") && !Contains(t, "angry") ==> NoneBefore(t, rs, 3);
  }

  /** The reply text: the response text, "No response." without one, or the error message. */
  function Reply(outcome: AiOutcome): (r: string)
    ensures outcome.Answered? && outcome.text.Some? ==> r == outcome.text.value
    ensures outcome.Answered? && outcome.text.None? ==> r == "No response."
    ensures outcome.Failed? ==> r == "Error: " + outcome.message.GetOr("null")
  {
    match outcome
    case Answered(text) => text.GetOr(NoResponseText)
    case Failed(message) => "Error: " + message.GetOr("null")
  }

  // ---------------------------------------------------------------- the screen

  class InsightsScreen {
    /** `auth.currentUser?.uid`. */
    const uid: Option<string>
    var allEntries: seq<MoodEntry>
    /** The status line above the calendar. */
    var insightsText: string
    /** The analysis view. */
    var insightTextView: string
    var musicVisible: bool
    /** The `aiConversations` records this screen has written. */
    ghost var conversations: seq<Conversation>

    constructor(uid: Option<string>)
      ensures this.uid == uid && allEntries == [] && conversations == []
      ensures insightsText == "" && insightTextView == "" && !musicVisible
    {
      this.uid := uid;
      allEntries := [];
      insightsText := "";
      insightTextView := "";
      musicVisible := false;
      conversations := [];
    }

    /** `loadAllEntries`: replace the entry list from the query result. */
    method LoadAllEntries(result: Fetch<MoodDoc>)
      modifies this
      ensures uid.None? ==> allEntries == old(allEntries) && insightsText == old(insightsText)
      ensures uid.Some? && result.Fetched? ==>
                allEntries == LoadEntries(result.docs) && insightsText == SelectDateText
      ensures uid.Some? && result.FetchFailed? ==>
                allEntries == old(allEntries) && insightsText == LoadErrorText
      ensures insightTextView == old(insightTextView) && musicVisible == old(musicVisible)
      ensures conversations == old(conversations)
    {
      if uid.None? {
        return;
      }
      match result
      case FetchFailed =>
        insightsText := LoadErrorText;
      case Fetched(docs) =>
        allEntries := [];
        var i := 0;
        while i < |docs|
          invariant 0 <= i <= |docs|
          invariant allEntries == LoadEntries(docs[..i])
          invariant insightsText == old(insightsText) && insightTextView == old(insightTextView)
          invariant musicVisible == old(musicVisible) && conversations == old(conversations)
        {
          FilterMapStep(EntryOf, docs, i);
          var note, timestamp := docs[i].note, docs[i].timestamp;
          if note.Some? && timestamp.Some? {
            var mood := docs[i].mood.GetOr(Neutral);
            var aiMood := docs[i].aiMood.GetOr("");
            allEntries := allEntries + [MoodEntry(note.value, mood, aiMood, timestamp.value)];
          }
          i := i + 1;
        }
        assert docs[..i] == docs;
        insightsText := SelectDateText;
    }

    /**
     * `analyzeWithGemini` once its call has completed: the view shows the
     * reply, and the exchange is recorded when a user is signed in.
     */
    method AnalyzeWithGemini(prompt: string, outcome: AiOutcome)
      modifies this
      ensures insightTextView == Reply(outcome)
      ensures conversations == old(conversations) + (if uid.Some? then [Conversation(prompt, Reply(outcome))] else [])
      ensures allEntries == old(allEntries) && insightsText == old(insightsText) && musicVisible == old(musicVisible)
    {
      var reply := Reply(outcome);
      insightTextView := reply;
      if uid.Some? {
        conversations := conversations + [Conversation(prompt, reply)];
      }
    }

    /**
     * `showEntriesForDate`: an empty day shows a message and hides the music
     * section without any prompt; otherwise the day's prompt is analysed and
     * the music section follows the day's dominant mood.
     */
    method ShowEntriesForDate(dayKey: int -> string, selected: string, outcome: AiOutcome)
      modifies this
      ensures var day := DayEntries(old(allEntries), dayKey, selected);
        && (day == [] ==>
              && insightsText == NoDayEntriesText && !musicVisible
              && insightTextView == old(insightTextView) && conversations == old(conversations))
        && (day != [] ==>
              && insightTextView == Reply(outcome)
              && conversations == old(conversations) +
                   (if uid.Some? then [Conversation(DatePrompt(day, selected), Reply(outcome))] else [])
              && musicVisible == MusicSectionVisible(DayMood(day))
              && insightsText == old(insightsText))
      ensures allEntries == old(allEntries)
    {
      var day := DayEntries(allEntries, dayKey, selected);
      if day == [] {
        insightsText := NoDayEntriesText;
        musicVisible := false;
        return;
      }
      AnalyzeWithGemini(DatePrompt(day, selected), outcome);
      musicVisible := MusicSectionVisible(DayMood(day));
    }

    /** `generateOverallSummary`: no prompt for an empty entry list. */
    method GenerateOverallSummary(outcome: AiOutcome)
      modifies this
      ensures old(allEntries) == [] ==>
                insightTextView == NoEntriesText && conversations == old(conversations)
      ensures old(allEntries) != [] ==>
                && insightTextView == Reply(outcome)
                && conversations == old(conversations) +
                     (if uid.Some? then [Conversation(OverallPrompt(old(allEntries)), Reply(outcome))] else [])
      ensures allEntries == old(allEntries) && insightsText == old(insightsText) && musicVisible == old(musicVisible)
    {
      if allEntries == [] {
        insightTextView := NoEntriesText;
        return;
      }
      AnalyzeWithGemini(OverallPrompt(allEntries), outcome);
    }

    /** The generate button: the trimmed input is sent only when it is not empty. */
    method GenerateInsightsClicked(input: string, outcome: AiOutcome)
      modifies this
      ensures IsBlank(input) ==> insightTextView == old(insightTextView) && conversations == old(conversations)
      ensures !IsBlank(input) ==>
                && insightTextView == Reply(outcome)
                && conversations == old(conversations) +
                     (if uid.Some? then [Conversation(Trim(input), Reply(outcome))] else [])
      ensures allEntries == old(allEntries) && insightsText == old(insightsText) && musicVisible == old(musicVisible)
    {
      var text := Trim(input);
      TrimEmptyIffBlank(input);
      if text != [] {
        AnalyzeWithGemini(text, outcome);
      }
    }

    /** `playMoodMusic`: the search chosen from the analysis text, and the link it opens. */
    method PlayMoodMusic() returns (query: string, url: string)
      ensures query == InsightsMusicQuery(insightTextView)
      ensures url == "https://music.youtube.com/search?q=" + query
    {
      query := InsightsMusicQuery(insightTextView);
      url := "https://music.youtube.com/search?q=" + query;
    }
  }
}
