/**
 * The chat page's transcript: `handleSend` appends the user's message and an
 * empty assistant placeholder, streams the reply into the placeholder chunk by
 * chunk, and replaces it with a fixed apology when anything fails.
 */
module ChatTranscript {
  import opened Messages
  import Strings

  const ErrorReply: string := "Something went wrong. Please try again."

  /** A transcript entry; `id` is a fresh UUID per message. */
  datatype ChatMessage = ChatMessage(id: string, role: Role, content: string)

  /**
   * How `POST /api/chat` answers: a non-OK status, a thrown `fetch`, or a body
   * read as `chunks` that either ends normally or makes `reader.read()` throw
   * after them (`broken`).
   */
  datatype ChatReply = NotOk(status: nat) | FetchThrew | Body(chunks: seq<string>, broken: bool)

  /** The request payload: each message reduced to role and content, in order. */
  function Payload(messages: seq<ChatMessage>): (wire: seq<Message>)
    ensures |wire| == |messages|
    ensures forall i :: 0 <= i < |messages| ==> wire[i] == Message(messages[i].role, messages[i].content)
  {
    if messages == [] then [] else Payload(messages[..|messages| - 1]) + [Message(messages[|messages| - 1].role, messages[|messages| - 1].content)]
  }

  /** The updater for one chunk: the message with `id` gets `chunk` appended; all others are kept. */
  function AppendChunk(messages: seq<ChatMessage>, id: string, chunk: string): (r: seq<ChatMessage>)
    ensures |r| == |messages|
    ensures forall i :: 0 <= i < |messages| ==>
              r[i].id == messages[i].id && r[i].role == messages[i].role &&
              (messages[i].id == id ==> r[i].content == messages[i].content + chunk) &&
              (messages[i].id != id ==> r[i] == messages[i])
  {
    if messages == [] then []
    else
      var m := messages[0];
      [if m.id == id then m.(content := m.content + chunk) else m] + AppendChunk(messages[1..], id, chunk)
  }

  /** The updater for a failure: the message with `id` now reads `text`; all others are kept. */
  function ReplaceContent(messages: seq<ChatMessage>, id: string, text: string): (r: seq<ChatMessage>)
    ensures |r| == |messages|
    ensures forall i :: 0 <= i < |messages| ==>
              r[i].id == messages[i].id && r[i].role == messages[i].role &&
              (messages[i].id == id ==> r[i].content == text) &&
              (messages[i].id != id ==> r[i] == messages[i])
  {
    if messages == [] then []
    else
      var m := messages[0];
      [if m.id == id then m.(content := text) else m] + ReplaceContent(messages[1..], id, text)
  }

  /** No message of the transcript carries `id`. */
  predicate FreshId(messages: seq<ChatMessage>, id: string)
  {
    forall i :: 0 <= i < |messages| ==> messages[i].id != id
  }

  /**
   * A chunk streamed into the placeholder: when `last` is the only message with
   * its id, it gets the chunk appended and every earlier message is kept.
   */
  lemma AppendChunkToLast(before: seq<ChatMessage>, last: ChatMessage, chunk: string)
    requires FreshId(before, last.id)
    ensures AppendChunk(before + [last], last.id, chunk) == before + [last.(content := last.content + chunk)]
  {
    var r := AppendChunk(before + [last], last.id, chunk);
    assert forall i :: 0 <= i < |before| ==> (before + [last])[i] == before[i];
    assert r[|before|] == last.(content := last.content + chunk);
  }

  /** The failure updater on a transcript whose only message with the placeholder's id is the last one. */
  lemma ReplaceContentOfLast(before: seq<ChatMessage>, last: ChatMessage, text: string)
    requires FreshId(before, last.id)
    ensures ReplaceContent(before + [last], last.id, text) == before + [last.(content := text)]
  {
    var r := ReplaceContent(before + [last], last.id, text);
    assert forall i :: 0 <= i < |before| ==> (before + [last])[i] == before[i];
    assert r[|before|] == last.(content := text);
  }

  /** The placeholder's content once `handleSend` is done. */
  function FinalReply(reply: ChatReply): string
  {
    match reply
    case Body(chunks, false) => Strings.Concat(chunks)
    case _ => ErrorReply
  }

  class Chat {
    var messages: seq<ChatMessage>
    var isLoading: bool

    constructor ()
      ensures messages == [] && !isLoading
    {
      messages := [];
      isLoading := false;
    }

    /**
     * The `while (true)` over `reader.read()`: each chunk goes to the end of the
     * placeholder, which ends up holding all chunks joined in arrival order.
     */
    method ReadStream(assistantId: string, chunks: seq<string>, ghost before: seq<ChatMessage>, ghost placeholder: ChatMessage)
      requires isLoading
      requires placeholder.id == assistantId && placeholder.content == ""
      requires FreshId(before, assistantId) && messages == before + [placeholder]
      modifies this
      ensures messages == before + [placeholder.(content := Strings.Concat(chunks))]
      ensures isLoading
    {
      var i := 0;
      assert placeholder == placeholder.(content := Strings.Concat(chunks[..0]));
      while i < |chunks|
        invariant 0 <= i <= |chunks|
        invariant isLoading
        invariant messages == before + [placeholder.(content := Strings.Concat(chunks[..i]))]
      {
        var chunk := chunks[i];
        assert Strings.Concat(chunks[..i + 1]) == Strings.Concat(chunks[..i]) + chunk by {
          assert chunks[..i + 1][..i] == chunks[..i];
        }
        AppendChunkToLast(before, placeholder.(content := Strings.Concat(chunks[..i])), chunk);
        assert chunks[..i + 1][..i] == chunks[..i];
        messages := AppendChunk(messages, assistantId, chunk);
        i := i + 1;
      }
      assert chunks[..i] == chunks;
    }

    /** The `catch` block: the placeholder now reads the apology, and nothing else changes. */
    method ShowError(assistantId: string, ghost before: seq<ChatMessage>, ghost placeholder: ChatMessage)
      requires placeholder.id == assistantId
      requires FreshId(before, assistantId) && messages == before + [placeholder]
      modifies this
      ensures messages == before + [placeholder.(content := ErrorReply)]
      ensures isLoading == old(isLoading)
    {
      ReplaceContentOfLast(before, placeholder, ErrorReply);
      messages := ReplaceContent(messages, assistantId, ErrorReply);
    }

    /**
     * `handleSend`: the transcript grows by exactly the user's message and the
     * assistant's reply, earlier messages are untouched, the payload is the old
     * transcript plus the user's message, and loading is over on every path.
     */
    method HandleSend(content: string, userId: string, assistantId: string, reply: ChatReply)
      returns (payload: seq<Message>)
      requires userId != assistantId && FreshId(messages, assistantId)
      modifies this
      ensures payload == Payload(old(messages)) + [Message(User, content)]
      ensures messages == old(messages) + [ChatMessage(userId, User, content), ChatMessage(assistantId, Assistant, FinalReply(reply))]
      ensures !isLoading
    {
      var userMessage := ChatMessage(userId, User, content);
      var assistantMessage := ChatMessage(assistantId, Assistant, "");
      var allMessages := Payload(messages + [userMessage]);
      assert (messages + [userMessage])[..|messages|] == messages;
      payload := allMessages;
      ghost var before := messages + [userMessage];
      assert FreshId(before, assistantId);
      messages := messages + [userMessage, assistantMessage];
      assert messages == before + [assistantMessage];
      isLoading := true;

      match reply {
      case NotOk(_) =>
        ShowError(assistantId, before, assistantMessage);
      case FetchThrew =>
        ShowError(assistantId, before, assistantMessage);
      case Body(chunks, broken) =>
        ReadStream(assistantId, chunks, before, assistantMessage);
        if broken {
          ShowError(assistantId, before, assistantMessage.(content := Strings.Concat(chunks)));
        }
      }
      ghost var answered := assistantMessage.(content := FinalReply(reply));
      assert messages == before + [answered];
      assert before + [answered] == old(messages) + [userMessage, answered];
      isLoading := false;
    }
  }
}
