/**
 * The home screen: a greeting, the titles of the five most recent entries,
 * and a mood bubble chosen from the newest title.
 */
module Homepage {
  import opened Wrappers
  import opened Text
  import opened KeywordRules
  import opened Journal

  /** `.limit(5)` on the newest-first query. */
  const RecentLimit: nat := 5
  /** `take(40)` on the note. */
  const NoteTitleLength: nat := 40
  const Ellipsis: string := "..."
  const UntitledText: string := "Untitled Entry"

  const EmptyBubble: string := "🧘 You haven't written anything lately. Want to reflect?"
  const ReflectiveBubble: string := "💭 Reflective days lately?"

  /** `summary ?: note?.take(40)?.plus("...") ?: "Untitled Entry"`. */
  function EntryTitle(d: MoodDoc): string {
    if d.summary.Some? then d.summary.value
    else if d.note.Some? then Take(d.note.value, NoteTitleLength) + Ellipsis
    else UntitledText
  }

  /**
   * A title is the summary when there is one; otherwise the note's first 40
   * characters followed by "..." (appended even to a shorter note, so at most
   * 43 characters); otherwise "Untitled Entry".
   */
  lemma EntryTitleSpec(d: MoodDoc)
    ensures d.summary.Some? ==> EntryTitle(d) == d.summary.value
    ensures d.summary.None? && d.note.Some? ==>
              var t, n := EntryTitle(d), d.note.value;
              && |t| == (if |n| < NoteTitleLength then |n| else NoteTitleLength) + 3
              && |t| <= 43
              && t[..|t| - 3] == n[..|t| - 3]
              && t[|t| - 3..] == "..."
    ensures d.summary.None? && d.note.None? ==> EntryTitle(d) == "Untitled Entry"
  {
    if d.summary.None? && d.note.Some? {
      var n := d.note.value;
      var k := |Take(n, NoteTitleLength)|;
      var t := Take(n, NoteTitleLength) + Ellipsis;
      assert t[..k] == Take(n, NoteTitleLength);
      assert t[k..] == Ellipsis;
    }
  }

  /** The titles of the fetched documents, one each, in order. */
  function Titles(docs: seq<MoodDoc>): (ts: seq<string>)
    ensures |ts| == |docs|
    ensures forall i :: 0 <= i < |docs| ==> ts[i] == EntryTitle(docs[i])
  {
    seq(|docs|, i requires 0 <= i < |docs| => EntryTitle(docs[i]))
  }

  const BubbleRules: seq<Rule> :=
    [ Rule("happy", "😊 You've been feeling upbeat!"),
      Rule("tired", "😴 You might need a recharge."),
      Rule("sad", "💙 It's okay to feel down. You're not alone."),
      Rule("angry", "😠 Take a breath — you matter."),
      Rule("stressed", "🫂 Remember to pause and breathe.") ]

  /** `getMoodBubble`: `contains(…, ignoreCase = true)` on the first title, as containment in its lowercase form. */
  function MoodBubble(entries: seq<string>): string {
    if entries == [] then EmptyBubble
    else FirstMatch(Lower(entries[0]), BubbleRules, ReflectiveBubble)
  }

  /**
   * The bubble: the empty-list message for no titles; otherwise the message of
   * the first of happy, tired, sad, angry, stressed found in the first title
   * regardless of case, else the reflective message. Titles after the first
   * play no part.
   */
  lemma MoodBubbleSpec(entries: seq<string>)
    ensures entries == [] ==> MoodBubble(entries) == EmptyBubble
    ensures entries != [] ==> MoodBubble(entries) == MoodBubble([entries[0]])
    ensures entries != [] ==>
      var t := Lower(entries[0]);
      && (Contains(t, "happy") ==> MoodBubble(entries) == "😊 You've been feeling upbeat!")
      && (!Contains(t, "happy") && Contains(t, "tired") ==> MoodBubble(entries) == "😴 You might need a recharge.")
      && (!Contains(t, "happy") && !Contains(t, "tired") && Contains(t, "sad") ==>
            MoodBubble(entries) == "💙 It's okay to feel down. You're not alone.")
      && (!Contains(t, "happy") && !Contains(t, "tired") && !Contains(t, "sad") && Contains(t, "angry") ==>
            MoodBubble(entries) == "😠 Take a breath — you matter.")
      && ((!Contains(t, "happy") && !Contains(t, "tired") && !Contains(t, "sad") && !Contains(t, "angry") &&
           Contains(t, "stressed")) ==> MoodBubble(entries) == "🫂 Remember to pause and breathe.")
      && ((!Contains(t, "happy") && !Contains(t, "tired") && !Contains(t, "sad") && !Contains(t, "angry") &&
           !Contains(t, "stressed")) ==> MoodBubble(entries) == ReflectiveBubble)
  {
    if entries != [] {
      var t, rs := Lower(entries[0]), BubbleRules;
      FirstMatchSpec(t, rs, ReflectiveBubble);
      assert NoneBefore(t, rs, 0);
      assert !Contains(t, "happy") ==> NoneBefore(t, rs, 1);
      assert !Contains(t, "happy") && !Contains(t, "tired") ==> NoneBefore(t, rs, 2);
      assert !Contains(t, "happy") && !Contains(t, "tired") && !Contains(t, "sad") ==> NoneBefore(t, rs, 3);
      assert !Contains(t, "happy") && !Contains(t, "tired") && !Contains(t, "sad") && !Contains(t, "angry") ==>
        NoneBefore(t, rs, 4);
    }
  }

  /** Loaded from a newest-first result, the bubble depends on the newest entry's title alone. */
  lemma BubbleFollowsNewest(docs: seq<MoodDoc>)
    ensures docs == [] ==> MoodBubble(Titles(Take(docs, RecentLimit))) == EmptyBubble
    ensures docs != [] ==> MoodBubble(Titles(Take(docs, RecentLimit))) == MoodBubble([EntryTitle(docs[0])])
  {
    if docs != [] {
      assert Take(docs, RecentLimit)[0] == docs[0];
    }
  }

  /** `"Hey $name, here's how you've been..."` with `name ?: "there"`. */
  function Greeting(name: Option<string>): string {
    "Hey " + name.GetOr("there") + ", here's how you've been..."
  }

  /**
   * The greeting is "Hey ", then the user's name or "there" when the profile
   * has no name, then ", here's how you've been...".
   */
  lemma GreetingSpec(name: Option<string>)
    ensures var n, g := name.GetOr("there"), Greeting(name);
      && g[..4] == "Hey "
      && g[4..4 + |n|] == n
      && g[4 + |n|..] == ", here's how you've been..."
    ensures name.None? ==> Greeting(name) == Greeting(Some("there"))
  {
    var n := name.GetOr("there");
    var a, b := "Hey ", ", here's how you've been...";
    assert Greeting(name) == a + n + b;
    assert (a + n + b)[..4] == a;
    assert (a + n + b)[4..4 + |n|] == n;
    assert (a + n + b)[4 + |n|..] == b;
  }

  /**
   * The name can be read back from the greeting: it sits between the first
   * four characters and the fixed 27-character suffix, so different names
   * give different greetings.
   */
  lemma GreetingNameReadBack(name: string, other: string)
    ensures var g := Greeting(Some(name)); |g| == |name| + 31 && g[4..|g| - 27] == name
    ensures Greeting(Some(name)) == Greeting(Some(other)) <==> name == other
  {
    GreetingSpec(Some(name));
    GreetingSpec(Some(other));
    var g, h := Greeting(Some(name)), Greeting(Some(other));
    assert |g| == |name| + 31;
    assert |h| == |other| + 31;
    if g == h {
      assert name == g[4..|g| - 27] == h[4..|h| - 27] == other;
    }
  }

  class HomepageScreen {
    /** `auth.currentUser?.uid`. */
    const uid: Option<string>
    var greeting: string
    var entryList: seq<string>
    var moodBubble: string

    constructor(uid: Option<string>)
      ensures this.uid == uid && greeting == "" && entryList == [] && moodBubble == ""
    {
      this.uid := uid;
      greeting := "";
      entryList := [];
      moodBubble := "";
    }

    /** `loadUserGreeting`; a failed lookup has no listener and changes nothing. */
    method LoadUserGreeting(result: Lookup<UserDoc>)
      modifies this
      ensures uid.Some? && result.Found? ==> greeting == Greeting(result.doc.name)
      ensures uid.None? || result.LookupFailed? ==> greeting == old(greeting)
      ensures entryList == old(entryList) && moodBubble == old(moodBubble)
    {
      if uid.None? {
        return;
      }
      match result
      case Found(doc) =>
        greeting := Greeting(doc.name);
      case LookupFailed =>
    }

    /**
     * `loadRecentEntries`. `result` holds the user's entries newest first; the
     * list is rebuilt from the first five. A failed query has no listener and
     * changes nothing.
     */
    method LoadRecentEntries(result: Fetch<MoodDoc>)
      modifies this
      ensures uid.Some? && result.Fetched? ==>
                && entryList == Titles(Take(result.docs, RecentLimit))
                && moodBubble == MoodBubble(entryList)
      ensures uid.None? || result.FetchFailed? ==>
                entryList == old(entryList) && moodBubble == old(moodBubble)
      ensures |entryList| <= RecentLimit || entryList == old(entryList)
      ensures greeting == old(greeting)
    {
      if uid.None? {
        return;
      }
      match result
      case FetchFailed =>
      case Fetched(newestFirst) =>
        var docs := Take(newestFirst, RecentLimit);
        entryList := [];
        var i := 0;
        while i < |docs|
          invariant 0 <= i <= |docs|
          invariant entryList == Titles(docs[..i])
          invariant greeting == old(greeting)
        {
          var title := EntryTitle(docs[i]);
          entryList := entryList + [title];
          i := i + 1;
        }
        assert docs[..i] == docs;
        moodBubble := MoodBubble(entryList);
    }
  }
}
