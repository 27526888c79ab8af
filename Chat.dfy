/**
 * The conversation screen: a transcript of user and AI messages, kept in a
 * list that is appended to, patched at a remembered slot, and rebuilt from
 * the stored `conversation` records.
 */
module Chat {
  import opened Wrappers
  import opened Text
  import opened Seqs
  import opened Journal

  /** A transcript line. */
  datatype ChatMessage = ChatMessage(text: string, isUser: bool)

  /** A document of `users/{uid}/conversation`: its `message` and `type` fields. */
  datatype ConversationDoc = ConversationDoc(message: Option<string>, kind: Option<string>)

  const UserKind: string := "user"
  const AiKind: string := "ai"
  const TypingText: string := "Typing..."
  const EmptyReplyText: string := "I'm here for you."
  const TroubleText: string := "Sorry, I'm having trouble thinking right now."

  /** The record `addUserMessage` stores. */
  function UserRecord(text: string): ConversationDoc {
    ConversationDoc(Some(text), Some(UserKind))
  }

  /** The record stored after a reply arrives. */
  function AiRecord(text: string): ConversationDoc {
    ConversationDoc(Some(text), Some(AiKind))
  }

  /** The record each transcript line would be stored as. */
  function Records(msgs: seq<ChatMessage>): (docs: seq<ConversationDoc>)
    ensures |docs| == |msgs|
    ensures forall i :: 0 <= i < |msgs| ==>
              docs[i] == if msgs[i].isUser then UserRecord(msgs[i].text) else AiRecord(msgs[i].text)
  {
    seq(|msgs|, i requires 0 <= i < |msgs| =>
      if msgs[i].isUser then UserRecord(msgs[i].text) else AiRecord(msgs[i].text))
  }

  /** One iteration of `loadConversation`: a record without a message is skipped. */
  function Replayed(d: ConversationDoc): Option<ChatMessage> {
    if d.message.Some? then Some(ChatMessage(d.message.value, d.kind == Some(UserKind))) else None
  }

  /** The transcript `loadConversation` rebuilds from records in timestamp order. */
  function Replay(docs: seq<ConversationDoc>): seq<ChatMessage> {
    FilterMap(Replayed, docs)
  }

  /**
   * The rebuilt transcript has one line per record with a message, in record
   * order; a line is the record's message, and it is a user line exactly when
   * the record's type is "user".
   */
  lemma ReplaySpec(docs: seq<ConversationDoc>)
    ensures forall i :: 0 <= i < |docs| ==> (i in Survivors(Replayed, docs) <==> docs[i].message.Some?)
    ensures |Replay(docs)| == |Survivors(Replayed, docs)|
    ensures forall k :: 0 <= k < |Replay(docs)| ==>
              Survivors(Replayed, docs)[k] < |docs| &&
              var d := docs[Survivors(Replayed, docs)[k]];
              && d.message == Some(Replay(docs)[k].text)
              && (Replay(docs)[k].isUser <==> d.kind == Some("user"))
    ensures forall k, l :: 0 <= k < l < |Survivors(Replayed, docs)| ==>
              Survivors(Replayed, docs)[k] < Survivors(Replayed, docs)[l]
  {
    FilterMapSpec(Replayed, docs);
  }

  /** Storing a transcript and reading it back gives the same transcript. */
  lemma {:induction false} ReplayRecords(msgs: seq<ChatMessage>)
    ensures Replay(Records(msgs)) == msgs
    decreases |msgs|
  {
    if msgs != [] {
      var n := |msgs| - 1;
      assert Records(msgs)[..n] == Records(msgs[..n]);
      ReplayRecords(msgs[..n]);
      assert msgs[..n] + [msgs[n]] == msgs;
    }
  }

  /** The text that replaces the placeholder once the model call finishes. */
  function ReplyText(outcome: AiOutcome): (r: string)
    ensures outcome.Answered? && outcome.text.Some? ==> r == outcome.text.value
    ensures outcome.Answered? && outcome.text.None? ==> r == "I'm here for you."
    ensures outcome.Failed? ==> r == "Sorry, I'm having trouble thinking right now."
  {
    match outcome
    case Answered(text) => text.GetOr(EmptyReplyText)
    case Failed(_) => TroubleText
  }

  /** The records one send stores: the user's message, then the reply only if the call succeeded. */
  function SendRecords(text: string, outcome: AiOutcome): seq<ConversationDoc> {
    [UserRecord(text)] + (if outcome.Answered? then [AiRecord(ReplyText(outcome))] else [])
  }

  /**
   * Reloading after a send shows the user's message, and the reply only when
   * the call succeeded: the apology shown on failure is never stored.
   */
  lemma ReplayAfterSend(log: seq<ConversationDoc>, text: string, outcome: AiOutcome)
    ensures Replay(log + SendRecords(text, outcome)) ==
            Replay(log) + [ChatMessage(text, true)] +
            (if outcome.Answered? then [ChatMessage(ReplyText(outcome), false)] else [])
  {
    FilterMapAppend(Replayed, log, SendRecords(text, outcome));
    var r := SendRecords(text, outcome);
    FilterMapAppend(Replayed, [r[0]], r[1..]);
    assert [r[0]] + r[1..] == r;
  }

  /**
   * After a send, the transcript on screen matches what a reload would show
   * exactly when the model call did not fail.
   */
  lemma ShownMatchesReloadIffAnswered(log: seq<ConversationDoc>, text: string, outcome: AiOutcome)
    ensures (Replay(log) + [ChatMessage(text, true), ChatMessage(ReplyText(outcome), false)] ==
             Replay(log + SendRecords(text, outcome))) <==> outcome.Answered?
  {
    ReplayAfterSend(log, text, outcome);
    if outcome.Failed? {
      assert |Replay(log + SendRecords(text, outcome))| == |Replay(log)| + 1;
    }
  }

  class ChatScreen {
    /** `auth.currentUser?.uid`. */
    const uid: Option<string>
    var chatMessages: seq<ChatMessage>
    /** The note field's text. */
    var inputText: string
    /** The `conversation` records this screen has written, in order. */
    ghost var stored: seq<ConversationDoc>

    constructor(uid: Option<string>)
      ensures this.uid == uid && chatMessages == [] && inputText == "" && stored == []
    {
      this.uid := uid;
      chatMessages := [];
      inputText := "";
      stored := [];
    }

    /**
     * `loadConversation`. `result` holds the records in timestamp order; the
     * list is cleared and rebuilt. A failed query has no listener and changes
     * nothing.
     */
    method LoadConversation(result: Fetch<ConversationDoc>)
      modifies this
      ensures uid.Some? && result.Fetched? ==> chatMessages == Replay(result.docs)
      ensures uid.None? || result.FetchFailed? ==> chatMessages == old(chatMessages)
      ensures inputText == old(inputText) && stored == old(stored)
    {
      if uid.None? {
        return;
      }
      match result
      case FetchFailed =>
      case Fetched(docs) =>
        chatMessages := [];
        var i := 0;
        while i < |docs|
          invariant 0 <= i <= |docs|
          invariant chatMessages == Replay(docs[..i])
          invariant inputText == old(inputText) && stored == old(stored)
        {
          FilterMapStep(Replayed, docs, i);
          var isUser := docs[i].kind == Some(UserKind);
          if docs[i].message.None? {
            i := i + 1;
            continue;
          }
          chatMessages := chatMessages + [ChatMessage(docs[i].message.value, isUser)];
          i := i + 1;
        }
        assert docs[..i] == docs;
    }

    /** `addUserMessage`: one user line at the end, and its record stored. */
    method AddUserMessage(text: string)
      requires uid.Some?
      modifies this
      ensures chatMessages == old(chatMessages) + [ChatMessage(text, true)]
      ensures stored == old(stored) + [UserRecord(text)]
      ensures inputText == old(inputText)
    {
      chatMessages := chatMessages + [ChatMessage(text, true)];
      stored := stored + [UserRecord(text)];
    }

    /** The placeholder step of `generateAIResponse`: its slot is the old length. */
    method ShowTyping() returns (index: nat)
      modifies this
      ensures index == |old(chatMessages)|
      ensures chatMessages == old(chatMessages) + [ChatMessage(TypingText, false)]
      ensures chatMessages[index] == ChatMessage("Typing...", false)
      ensures inputText == old(inputText) && stored == old(stored)
    {
      index := |chatMessages|;
      chatMessages := chatMessages + [ChatMessage(TypingText, false)];
    }

    /**
     * The completion step of `generateAIResponse`: only the remembered slot
     * changes, and an "ai" record is stored only when the call succeeded. With
     * nobody signed in the store's `!!` throws inside the `try`, so the slot
     * ends with the apology and nothing is stored.
     */
    method ShowReply(index: nat, outcome: AiOutcome)
      requires index < |chatMessages|
      modifies this
      ensures |chatMessages| == |old(chatMessages)|
      ensures chatMessages[index] == ChatMessage(if uid.Some? then ReplyText(outcome) else TroubleText, false)
      ensures forall j :: 0 <= j < |chatMessages| && j != index ==> chatMessages[j] == old(chatMessages)[j]
      ensures uid.Some? && outcome.Answered? ==> stored == old(stored) + [AiRecord(ReplyText(outcome))]
      ensures uid.None? || outcome.Failed? ==> stored == old(stored)
      ensures inputText == old(inputText)
    {
      match outcome
      case Answered(text) =>
        var reply := text.GetOr(EmptyReplyText);
        chatMessages := chatMessages[index := ChatMessage(reply, false)];
        if uid.Some? {
          stored := stored + [AiRecord(reply)];
        } else {
          chatMessages := chatMessages[index := ChatMessage(TroubleText, false)];
        }
      case Failed(_) =>
        chatMessages := chatMessages[index := ChatMessage(TroubleText, false)];
    }

    /** `generateAIResponse`, with `outcome` standing for the model's answer to the prompt. */
    method GenerateAIResponse(outcome: AiOutcome)
      modifies this
      ensures uid.Some? ==> chatMessages == old(chatMessages) + [ChatMessage(ReplyText(outcome), false)]
      ensures uid.Some? ==> stored == old(stored) + (if outcome.Answered? then [AiRecord(ReplyText(outcome))] else [])
      ensures uid.None? ==> chatMessages == old(chatMessages) + [ChatMessage(TroubleText, false)] && stored == old(stored)
      ensures inputText == old(inputText)
    {
      var index := ShowTyping();
      ShowReply(index, outcome);
      assert chatMessages == old(chatMessages) + [chatMessages[index]];
    }

    /** The send button's action on non-blank text: the user line, a cleared field, then the reply. */
    method SendText(text: string, outcome: AiOutcome)
      requires uid.Some?
      modifies this
      ensures chatMessages == old(chatMessages) + [ChatMessage(text, true), ChatMessage(ReplyText(outcome), false)]
      ensures inputText == ""
      ensures stored == old(stored) + SendRecords(text, outcome)
    {
      AddUserMessage(text);
      inputText := "";
      GenerateAIResponse(outcome);
    }

    /**
     * The send button: a blank input does nothing; otherwise the trimmed text
     * is added as a user line, the field is cleared and a reply is generated.
     */
    method SendClicked(outcome: AiOutcome)
      requires uid.Some? || IsBlank(inputText)
      modifies this
      ensures IsBlank(old(inputText)) ==>
                chatMessages == old(chatMessages) && inputText == old(inputText) && stored == old(stored)
      ensures !IsBlank(old(inputText)) ==>
                var text := Trim(old(inputText));
                && chatMessages == old(chatMessages) + [ChatMessage(text, true), ChatMessage(ReplyText(outcome), false)]
                && inputText == ""
                && stored == old(stored) + SendRecords(text, outcome)
    {
      var text := Trim(inputText);
      TrimEmptyIffBlank(inputText);
      if text != [] {
        SendText(text, outcome);
      }
    }
  }
}
