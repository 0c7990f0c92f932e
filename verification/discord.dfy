/**
 * The chat-platform entities the scraper reads, and the fetch of one channel's
 * (or thread's) message history.
 *
 * A history is given as the full list of messages the platform holds, oldest
 * first, together with the point (if any) at which the platform's iterator stops
 * with an exception: after `after` messages it raises either `Forbidden` (missing
 * permission) or some other error.
 */
module Discord {
  import opened Wrappers

  datatype Cause = Forbidden | OtherError(reason: string)

  datatype Interruption = Interruption(after: nat, cause: Cause)

  datatype History = History(messages: seq<Message>, interruption: Option<Interruption>)

  /** A thread spawned from a message; it is read like a channel. */
  datatype Thread = Thread(id: int, history: History)

  datatype Message = Message(id: int, authorId: int, authorName: string, content: string, thread: Option<Thread>)

  /** A guild channel as `fetch_channels` lists it; `name` is what `str(channel)` shows. */
  datatype Channel = Channel(name: string, isText: bool, history: History)

  /** The arguments of `DiscordChatDocument.build`: one thread, the message that spawned it, and its messages. */
  datatype ChatDocument = ChatDocument(chatId: int, parentMessage: Message, messages: seq<Message>)

  /** How many messages the history iterator yields before it stops. */
  function Delivered(h: History): (n: nat)
    ensures n <= |h.messages|
    ensures h.interruption.None? ==> n == |h.messages|
  {
    match h.interruption
    case None => |h.messages|
    case Some(stop) => if stop.after < |h.messages| then stop.after else |h.messages|
  }

  /**
   * What `_get_message_list_from_channel` produces. The fetch never raises for a
   * missing permission: it returns the messages gathered before the `Forbidden`,
   * nothing when access is denied up front, and the whole history oldest first
   * when nothing interrupts it. Any other error propagates.
   */
  function MessageList(h: History): (r: Result<seq<Message>, string>)
    ensures r.Success? <==> (h.interruption.None? || h.interruption.value.cause == Forbidden)
    ensures r.Success? ==> r.value <= h.messages && |r.value| == Delivered(h)
    ensures h.interruption.None? ==> r == Success(h.messages)
    ensures h.interruption == Some(Interruption(0, Forbidden)) ==> r == Success([])
    ensures h.interruption.Some? && h.interruption.value.cause.OtherError?
            ==> r == Failure(h.interruption.value.cause.reason)
  {
    match h.interruption
    case None => Success(h.messages)
    case Some(Interruption(_, Forbidden)) => Success(h.messages[..Delivered(h)])
    case Some(Interruption(_, OtherError(e))) => Failure(e)
  }

  /** `_get_message_list_from_channel`: append each message the history iterator yields. */
  method GetMessageListFromChannel(h: History) returns (r: Result<seq<Message>, string>)
    ensures r == MessageList(h)
  {
    var channelMessages: seq<Message> := [];
    var i := 0;
    while i < |h.messages| && !(h.interruption.Some? && h.interruption.value.after == i)
      invariant i <= |h.messages|
      invariant h.interruption.Some? ==> i <= h.interruption.value.after
      invariant channelMessages == h.messages[..i]
    {
      channelMessages := channelMessages + [h.messages[i]];
      i := i + 1;
    }
    assert i == Delivered(h);
    assert h.messages[..|h.messages|] == h.messages;
    match h.interruption {
      case None =>
        r := Success(channelMessages);
      case Some(stop) =>
        if stop.cause == Forbidden {
          r := Success(channelMessages);
        } else {
          r := Failure(stop.cause.reason);
        }
    }
  }
}
