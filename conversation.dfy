/**
 * `AgentConversation`: a chat history that grows by the user's message and
 * the streamed assistant reply. The streaming client is a function from
 * the request to the sequence of stream events it delivers; an Err is an
 * exception raised by the call itself, and a `StreamFailure` event one
 * raised while the stream is read.
 */
module Conversation {
  import opened Wrappers

  datatype Message = Message(role: string, content: string)

  /** One decoded chunk of the response stream, by its `type` field. */
  datatype StreamEvent =
    | ContentBlockDelta(text: Option<string>)
    | MessageStop
    | OtherEvent(kind: string)
      /** An event whose chunk cannot be decoded or lacks a field the loop reads, or a transport error: the loop raises. */
    | StreamFailure(error: string)

  /** What goes to `invoke_model_with_response_stream`: the model id and the JSON body. */
  datatype Request = Request(modelId: string, anthropicVersion: string, maxTokens: int, messages: seq<Message>)

  const AnthropicVersion := "bedrock-2023-05-31"

  /** `ModelNames.SONNET_35`, the default model. */
  const Sonnet35 := "us.anthropic.claude-3-5-sonnet-20241022-v2:0"

  function Concat(pieces: seq<string>): string {
    if pieces == [] then "" else pieces[0] + Concat(pieces[1..])
  }

  /** The text yielded for each delta event before the first `message_stop` or failure; other events yield nothing. */
  function Pieces(events: seq<StreamEvent>): seq<string> {
    if events == [] then []
    else
      match events[0]
      case MessageStop => []
      case StreamFailure(_) => []
      case ContentBlockDelta(text) => [text.GetOr("")] + Pieces(events[1..])
      case OtherEvent(_) => Pieces(events[1..])
  }

  /** The accumulated `assistant_response`. */
  function StreamText(events: seq<StreamEvent>): string {
    if events == [] then ""
    else
      match events[0]
      case MessageStop => ""
      case StreamFailure(_) => ""
      case ContentBlockDelta(text) => text.GetOr("") + StreamText(events[1..])
      case OtherEvent(_) => StreamText(events[1..])
  }

  /** The exception the loop raises: the first failure before any `message_stop`. */
  function StreamError(events: seq<StreamEvent>): Option<string> {
    if events == [] then None
    else
      match events[0]
      case MessageStop => None
      case StreamFailure(e) => Some(e)
      case ContentBlockDelta(_) => StreamError(events[1..])
      case OtherEvent(_) => StreamError(events[1..])
  }

  /** The yielded pieces concatenate to the text that is stored. */
  lemma {:induction false} PiecesConcat(events: seq<StreamEvent>)
    ensures Concat(Pieces(events)) == StreamText(events)
  {
    if events != [] {
      PiecesConcat(events[1..]);
      match events[0] {
        case MessageStop =>
        case StreamFailure(_) =>
        case ContentBlockDelta(text) =>
          assert ([text.GetOr("")] + Pieces(events[1..]))[1..] == Pieces(events[1..]);
        case OtherEvent(_) =>
      }
    }
  }

  /** Events after the first `message_stop` have no effect. */
  lemma {:induction false} StopEndsStream(before: seq<StreamEvent>, after: seq<StreamEvent>)
    requires forall i :: 0 <= i < |before| ==> !before[i].MessageStop?
    ensures StreamText(before + [MessageStop] + after) == StreamText(before + [MessageStop])
    ensures Pieces(before + [MessageStop] + after) == Pieces(before + [MessageStop])
    ensures StreamError(before + [MessageStop] + after) == StreamError(before + [MessageStop])
  {
    if before != [] {
      StopEndsStream(before[1..], after);
      assert (before + [MessageStop] + after)[1..] == before[1..] + [MessageStop] + after;
      assert (before + [MessageStop])[1..] == before[1..] + [MessageStop];
    }
  }

  /** The request that carries the history ending with the new user message. */
  function SendRequest(modelId: string, history: seq<Message>, content: string, maxTokens: int): Request {
    Request(modelId, AnthropicVersion, maxTokens, history + [Message("user", content)])
  }

  /** The history after `send_message`: the user message, then the reply if the stream ended normally with text. */
  function AfterSend(history: seq<Message>, content: string, reply: Result<seq<StreamEvent>>): seq<Message> {
    var withUser := history + [Message("user", content)];
    if reply.Ok? && StreamError(reply.value).None? && StreamText(reply.value) != "" then
      withUser + [Message("assistant", StreamText(reply.value))]
    else withUser
  }

  /**
   * A stream that fails after some deltas raises that failure, has yielded
   * those deltas, and leaves only the user message in the history.
   */
  lemma {:induction false} FailureMidStream(history: seq<Message>, content: string, before: seq<StreamEvent>,
                                            e: string, after: seq<StreamEvent>)
    requires forall i :: 0 <= i < |before| ==> !before[i].MessageStop? && !before[i].StreamFailure?
    ensures StreamError(before + [StreamFailure(e)] + after) == Some(e)
    ensures Pieces(before + [StreamFailure(e)] + after) == Pieces(before)
    ensures AfterSend(history, content, Ok(before + [StreamFailure(e)] + after)) == history + [Message("user", content)]
  {
    if before != [] {
      FailureMidStream(history, content, before[1..], e, after);
      assert (before + [StreamFailure(e)] + after)[1..] == before[1..] + [StreamFailure(e)] + after;
    }
  }

  /**
   * A call keeps the earlier history, adds the user message, and adds the
   * assistant message exactly when the reply streamed some text, so the
   * history grows by one or two entries.
   */
  lemma AfterSendGrowth(history: seq<Message>, content: string, reply: Result<seq<StreamEvent>>)
    ensures var h := AfterSend(history, content, reply);
            && h[..|history|] == history
            && h[|history|] == Message("user", content)
            && (|h| == |history| + 2 <==> reply.Ok? && StreamError(reply.value).None? && StreamText(reply.value) != "")
            && (|h| == |history| + 1 || |h| == |history| + 2)
            && (|h| == |history| + 2 ==> h[|history| + 1] == Message("assistant", StreamText(reply.value)))
  {
  }

  class AgentConversation {
    var modelId: string
    var region: string
    var messages: seq<Message>

    constructor(modelId: string := Sonnet35, region: string := "us-east-1")
      ensures this.modelId == modelId && this.region == region && messages == []
    {
      this.modelId := modelId;
      this.region := region;
      messages := [];
    }

    /** `add_message`: one entry appended at the end. */
    method AddMessage(role: string, content: string)
      modifies this
      ensures messages == old(messages) + [Message(role, content)]
      ensures modelId == old(modelId) && region == old(region)
    {
      messages := messages + [Message(role, content)];
    }

    /**
     * `send_message`: appends the user message, sends the whole history,
     * yields the delta texts until `message_stop` and stores their
     * concatenation as the assistant message when it is non-empty. A
     * failure of the call or of the stream is raised (`raised`) after the
     * deltas already yielded, and leaves the user message in place.
     */
    method SendMessage(content: string, client: Request -> Result<seq<StreamEvent>>, maxTokens: int := 4096)
      returns (request: Request, yielded: seq<string>, raised: Option<string>)
      modifies this
      ensures request == SendRequest(modelId, old(messages), content, maxTokens)
      ensures request.messages[|request.messages| - 1] == Message("user", content)
      ensures yielded == (match client(request) case Err(_) => [] case Ok(events) => Pieces(events))
      ensures raised == (match client(request) case Err(e) => Some(e) case Ok(events) => StreamError(events))
      ensures messages == AfterSend(old(messages), content, client(request))
      ensures modelId == old(modelId) && region == old(region)
    {
      AddMessage("user", content);
      request := Request(modelId, AnthropicVersion, maxTokens, messages);
      var response := client(request);
      if response.Err? {
        return request, [], Some(response.error);
      }
      var events := response.value;
      var assistantResponse := "";
      var pieces: seq<string> := [];
      var k := 0;
      while k < |events|
        invariant 0 <= k <= |events|
        invariant assistantResponse + StreamText(events[k..]) == StreamText(events)
        invariant pieces + Pieces(events[k..]) == Pieces(events)
        invariant StreamError(events[k..]) == StreamError(events)
      {
        match events[k] {
          case ContentBlockDelta(text) =>
            var deltaText := text.GetOr("");
            assert events[k..][1..] == events[k + 1..];
            assistantResponse := assistantResponse + deltaText;
            pieces := pieces + [deltaText];
          case MessageStop =>
            break;
          case StreamFailure(e) =>
            return request, pieces, Some(e);
          case OtherEvent(_) =>
            assert events[k..][1..] == events[k + 1..];
        }
        k := k + 1;
      }
      assert assistantResponse == StreamText(events) && pieces == Pieces(events);
      assert StreamError(events) == None;
      if assistantResponse != "" {
        AddMessage("assistant", assistantResponse);
      }
      return request, pieces, None;
    }

    /** `clear_history`. */
    method ClearHistory()
      modifies this
      ensures messages == []
      ensures modelId == old(modelId) && region == old(region)
    {
      messages := [];
    }

    /** `get_history`: a copy; the history is a value, so changing the copy cannot change it. */
    method GetHistory() returns (history: seq<Message>)
      ensures history == messages
    {
      history := messages;
    }
  }
}
