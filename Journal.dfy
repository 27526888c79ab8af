/**
 * What the screens read from and write to Firestore, as values. A field a
 * document lacks reads as `None`, the way `getString`/`getLong` return null.
 */
module Journal {
  import opened Wrappers

  /** A document of `users/{uid}/moodEntries`. */
  datatype MoodDoc = MoodDoc(
    note: Option<string>,
    mood: Option<string>,
    aiMood: Option<string>,
    timestamp: Option<int>,
    summary: Option<string>)

  /** The outcome of a Firestore `get()`: its documents in query order, or the failure listener. */
  datatype Fetch<T> = Fetched(docs: seq<T>) | FetchFailed

  /**
   * The outcome of a Gemini `generateContent` call: a response whose `text`
   * may be null, or an exception whose `message` may be null.
   */
  datatype AiOutcome = Answered(text: Option<string>) | Failed(message: Option<string>)

  /**
   * A document of `users/{uid}`: whether it exists, and its `name` field
   * (`getString("name")` is null on a document that does not exist).
   */
  datatype UserDoc = UserDoc(present: bool, name: Option<string>)

  /** The outcome of a single-document `get()`: the document, or the failure listener. */
  datatype Lookup<T> = Found(doc: T) | LookupFailed
}
