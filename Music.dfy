/**
 * The music screen: it tallies the moods of the ten most recent entries,
 * shows the dominant one, and opens a music search chosen from what it shows.
 */
module Music {
  import opened Wrappers
  import opened Text
  import opened Seqs
  import opened MoodTally
  import opened KeywordRules
  import opened Journal

  /** `.limit(10)` on the newest-first query. */
  const RecentLimit: nat := 10

  const DetectedPrefix: string := "Detected Mood: "
  const CouldNotDetectText: string := "Couldn't detect mood 😕"

  /** A document's label: its lowercased aiMood if present, else its lowercased mood, else none. */
  function MusicLabel(d: MoodDoc): Option<string> {
    if d.aiMood.Some? then Some(Lower(d.aiMood.value))
    else if d.mood.Some? then Some(Lower(d.mood.value))
    else None
  }

  /** The labels the tally loop counts, in document order. */
  function MusicLabels(docs: seq<MoodDoc>): seq<string> {
    FilterMap(MusicLabel, docs)
  }

  /**
   * The labels: one per document with an aiMood or a mood, in document order,
   * the aiMood winning even when it is empty.
   */
  lemma MusicLabelsSpec(docs: seq<MoodDoc>)
    ensures forall i :: 0 <= i < |docs| ==>
              (i in Survivors(MusicLabel, docs) <==> docs[i].aiMood.Some? || docs[i].mood.Some?)
    ensures |MusicLabels(docs)| == |Survivors(MusicLabel, docs)|
    ensures forall k :: 0 <= k < |MusicLabels(docs)| ==>
              Survivors(MusicLabel, docs)[k] < |docs| &&
              var d := docs[Survivors(MusicLabel, docs)[k]];
              MusicLabels(docs)[k] == if d.aiMood.Some? then Lower(d.aiMood.value) else Lower(d.mood.value)
    ensures forall k, l :: 0 <= k < l < |Survivors(MusicLabel, docs)| ==>
              Survivors(MusicLabel, docs)[k] < Survivors(MusicLabel, docs)[l]
  {
    FilterMapSpec(MusicLabel, docs);
  }

  /**
   * The `for` loop filling `moodCounts`: `counts` is the map's values and
   * `order` its insertion order.
   */
  method CountMoods(docs: seq<MoodDoc>) returns (counts: map<string, nat>, order: seq<string>)
    ensures counts == Tally(MusicLabels(docs))
    ensures order == Distinct(MusicLabels(docs))
  {
    counts, order := map[], [];
    var i := 0;
    while i < |docs|
      invariant 0 <= i <= |docs|
      invariant counts == Tally(MusicLabels(docs[..i]))
      invariant order == Distinct(MusicLabels(docs[..i]))
    {
      var labels := MusicLabels(docs[..i]);
      var mood: string;
      if docs[i].aiMood.Some? {
        mood := Lower(docs[i].aiMood.value);
      } else if docs[i].mood.Some? {
        mood := Lower(docs[i].mood.value);
      } else {
        assert MusicLabels(docs[..i + 1]) == labels by {
          FilterMapStep(MusicLabel, docs, i);
        }
        i := i + 1;
        continue;
      }
      assert MusicLabels(docs[..i + 1]) == labels + [mood] by {
        assert MusicLabel(docs[i]) == Some(mood);
        FilterMapStep(MusicLabel, docs, i);
      }
      CountStep(labels, mood, counts, order);
      if mood !in counts {
        order := order + [mood];
      }
      counts := counts[mood := (if mood in counts then counts[mood] else 0) + 1];
      i := i + 1;
    }
    assert docs[..i] == docs;
  }

  /** `maxByOrNull { it.value }?.key ?: "neutral"` over the map in insertion order. */
  method MaxByCount(order: seq<string>, counts: map<string, nat>) returns (top: string)
    requires forall k :: k in order ==> k in counts
    ensures order == [] ==> top == Neutral
    ensures order != [] ==> top == order[FirstMaxIndex(order, counts)]
  {
    top := Neutral;
    if |order| > 0 {
      var best := 0;
      var j := 1;
      while j < |order|
        invariant 1 <= j <= |order|
        invariant best == FirstMaxIndex(order[..j], counts)
      {
        assert order[..j + 1][..j] == order[..j];
        if counts[order[best]] < counts[order[j]] {
          best := j;
        }
        j := j + 1;
      }
      assert order[..j] == order;
      top := order[best];
    }
  }

  /** The tally of the fetched documents and the pick of the dominant mood. */
  method TallyTopMood(docs: seq<MoodDoc>) returns (top: string)
    ensures top == TopMood(MusicLabels(docs))
  {
    var counts, order := CountMoods(docs);
    top := MaxByCount(order, counts);
  }

  /** `"Detected Mood: ${topMood.replaceFirstChar { it.uppercase() }}"`. */
  function DetectedMoodText(top: string): string {
    DetectedPrefix + CapitalizeFirst(top)
  }

  const MusicRules: seq<Rule> :=
    [ Rule("happy", "happy+pop+playlist"),
      Rule("sad", "chill+lofi+beats"),
      Rule("angry", "calming+instrumental+music"),
      Rule("relaxed", "jazz+for+studying") ]

  const MusicFallback: string := "mood+booster+music"

  /** The suggest button's search for the text the screen shows. */
  function MusicQuery(moodText: string): string {
    FirstMatch(Lower(moodText), MusicRules, MusicFallback)
  }

  /** The query is decided by the first of happy, sad, angry, relaxed found in the lowercased text. */
  lemma MusicQuerySpec(moodText: string)
    ensures var t := Lower(moodText);
      && (Contains(t, "happy") ==> MusicQuery(moodText) == "happy+pop+playlist")
      && (!Contains(t, "happy") && Contains(t, "sad") ==> MusicQuery(moodText) == "chill+lofi+beats")
      && (!Contains(t, "happy") && !Contains(t, "sad") && Contains(t, "angry") ==>
            MusicQuery(moodText) == "calming+instrumental+music")
      && (!Contains(t, "happy") && !Contains(t, "sad") && !Contains(t, "angry") && Contains(t, "relaxed") ==>
            MusicQuery(moodText) == "jazz+for+studying")
      && (!Contains(t, "happy") && !Contains(t, "sad") && !Contains(t, "angry") && !Contains(t, "relaxed") ==>
            MusicQuery(moodText) == "mood+booster+music")
  {
    var t, rs := Lower(moodText), MusicRules;
    FirstMatchSpec(t, rs, MusicFallback);
    assert NoneBefore(t, rs, 0);
    assert !Contains(t, "happy") ==> NoneBefore(t, rs, 1);
    assert !Contains(t, "happy") && !Contains(t, "sad") ==> NoneBefore(t, rs, 2);
    assert !Contains(t, "happy") && !Contains(t, "sad") && !Contains(t, "angry") ==> NoneBefore(t, rs, 3);
  }

  /**
   * Read back from the screen, the detected-mood text gives the query of the
   * mood itself: the prefix holds none of the keywords' first letters, and
   * capitalising the first letter is undone by lower-casing.
   */
  lemma DetectedMoodQuery(top: string)
    ensures MusicQuery(DetectedMoodText(top)) == FirstMatch(Lower(top), MusicRules, MusicFallback)
  {
    var p := Lower(DetectedPrefix);
    var c := CapitalizeFirst(top);
    assert Lower(DetectedPrefix + c) == p + Lower(top) by {
      LowerAppend(DetectedPrefix, c);
      LowerCapitalizeFirst(top);
    }
    PrefixLetters(DetectedPrefix);
    PrefixAvoidsKeywords(DetectedPrefix);
    FirstMatchAfterPrefix(p, Lower(top), MusicRules, MusicFallback);
  }

  /** "Detected Mood: " holds none of h, s, a, r in either case. */
  lemma PrefixLetters(d: string)
    requires d == DetectedPrefix
    ensures forall i :: 0 <= i < |d| ==> d[i] !in "hHsSaArR"
  {
  }

  /** Text holding none of h, s, a, r in either case avoids the music keywords once lowercased. */
  lemma PrefixAvoidsKeywords(d: string)
    requires forall i :: 0 <= i < |d| ==> d[i] !in "hHsSaArR"
    ensures KeywordsAvoid(MusicRules, Lower(d))
  {
    assert 'h' !in d && 'H' !in d && 's' !in d && 'S' !in d;
    assert 'a' !in d && 'A' !in d && 'r' !in d && 'R' !in d;
    LowerAvoids(d, 'h');
    LowerAvoids(d, 's');
    LowerAvoids(d, 'a');
    LowerAvoids(d, 'r');
    KeywordsAvoidLetters(Lower(d));
  }

  /** The music keywords start with h, s, a and r. */
  lemma KeywordsAvoidLetters(p: string)
    requires 'h' !in p && 's' !in p && 'a' !in p && 'r' !in p
    ensures KeywordsAvoid(MusicRules, p)
  {
  }

  /** Every label is lowercase, so the dominant mood is too. */
  lemma TopMoodLowercase(docs: seq<MoodDoc>)
    ensures Lower(TopMood(MusicLabels(docs))) == TopMood(MusicLabels(docs))
  {
    var labels := MusicLabels(docs);
    if labels == [] {
      assert Lower(Neutral) == Neutral;
    } else {
      MusicLabelsSpec(docs);
      var k :| 0 <= k < |labels| && labels[k] == TopMood(labels);
      var d := docs[Survivors(MusicLabel, docs)[k]];
      if d.aiMood.Some? {
        LowerIdempotent(d.aiMood.value);
      } else {
        LowerIdempotent(d.mood.value);
      }
    }
  }

  /**
   * End to end: after a successful fetch, the suggest button searches for the
   * playlist of the dominant mood of the most recent entries.
   */
  lemma SuggestedQueryFollowsTopMood(docs: seq<MoodDoc>)
    ensures var top := TopMood(MusicLabels(Take(docs, RecentLimit)));
      MusicQuery(DetectedMoodText(top)) == FirstMatch(top, MusicRules, MusicFallback)
  {
    var top := TopMood(MusicLabels(Take(docs, RecentLimit)));
    DetectedMoodQuery(top);
    TopMoodLowercase(Take(docs, RecentLimit));
  }

  /** None of the keywords occurs in "neutral". */
  lemma NeutralQuery(n: string)
    requires n == "neutral"
    ensures FirstMatch(n, MusicRules, MusicFallback) == MusicFallback
  {
    assert !Contains(n, "happy") by { MissingCharNotContained(n, "happy", 0); }
    assert !Contains(n, "sad") by { MissingCharNotContained(n, "sad", 0); }
    assert !Contains(n, "angry") by { MissingCharNotContained(n, "angry", 4); }
    assert !Contains(n, "relaxed") by { MissingCharNotContained(n, "relaxed", 4); }
    assert NoneBefore(n, MusicRules, |MusicRules|);
    FirstMatchNone(n, MusicRules, MusicFallback);
  }

  /** No entries to count: the screen shows "Detected Mood: Neutral" and suggests the booster mix. */
  lemma NoMoodsNeutral(docs: seq<MoodDoc>)
    requires MusicLabels(Take(docs, RecentLimit)) == []
    ensures DetectedMoodText(TopMood(MusicLabels(Take(docs, RecentLimit)))) == "Detected Mood: Neutral"
    ensures MusicQuery(DetectedMoodText(TopMood(MusicLabels(Take(docs, RecentLimit))))) == MusicFallback
  {
    assert TopMood(MusicLabels(Take(docs, RecentLimit))) == Neutral;
    NeutralCase(Neutral);
    DetectedMoodQuery(Neutral);
    NeutralQuery(Neutral);
  }

  /** "neutral" is already lowercase, and capitalised it reads "Neutral". */
  lemma NeutralCase(n: string)
    requires n == Neutral
    ensures CapitalizeFirst(n) == "Neutral" && Lower(n) == n
    ensures DetectedMoodText(n) == "Detected Mood: Neutral"
  {
  }


  class MusicScreen {
    /** `auth.currentUser?.uid`. */
    const uid: Option<string>
    var moodText: string

    constructor(uid: Option<string>)
      ensures this.uid == uid && moodText == ""
    {
      this.uid := uid;
      moodText := "";
    }

    /**
     * `fetchMoodAndSuggest`. `result` holds the user's entries newest first;
     * only the first ten are counted.
     */
    method FetchMoodAndSuggest(result: Fetch<MoodDoc>)
      modifies this
      ensures uid.None? ==> moodText == old(moodText)
      ensures uid.Some? && result.FetchFailed? ==> moodText == CouldNotDetectText
      ensures uid.Some? && result.Fetched? ==>
                moodText == DetectedMoodText(TopMood(MusicLabels(Take(result.docs, RecentLimit))))
    {
      if uid.None? {
        return;
      }
      match result
      case FetchFailed =>
        moodText := CouldNotDetectText;
      case Fetched(newestFirst) =>
        var top := TallyTopMood(Take(newestFirst, RecentLimit));
        moodText := DetectedMoodText(top);
    }

    /** The suggest button: the search chosen from the shown text, and the link it opens. */
    method SuggestQuery() returns (query: string, url: string)
      ensures query == MusicQuery(moodText)
      ensures url == "https://music.youtube.com/search?q=" + query
    {
      query := MusicQuery(moodText);
      url := "https://music.youtube.com/search?q=" + query;
    }
  }
}
