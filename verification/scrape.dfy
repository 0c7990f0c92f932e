/**
 * The server scrape of `ServerScraperCog._scrape`: walk the text channels, read
 * each one's top-level messages and every thread hanging off them, build one chat
 * document per thread, keep running counts, dispatch the database upserts, report
 * progress after every channel and check the message count at the end.
 *
 * The scrape is specified channel by channel by `ScrapeChannel`, folded over the
 * channel list by `ScrapeChannels`; `Scrape` is the imperative loop, proved equal to
 * that specification. The platform and the database appear only through the
 * `Event` log: status posts and edits, dispatched upsert batches, the error notice
 * and the final await of every dispatched batch, in the order they happen.
 */
module ServerScrape {
  import opened Wrappers
  import opened Text
  import opened Discord
  import opened Progress

  /** One dispatched database upsert: a channel's top-level messages, or its chat documents. */
  datatype Batch = MessageBatch(messages: seq<Message>) | ChatBatch(chats: seq<ChatDocument>)

  datatype Event =
    | StatusSent(description: string)       // the status message is posted
    | StatusEdited(description: string)     // the status message is edited
    | UpsertDispatched(batch: Batch)        // an upsert task is created
    | ErrorSent(description: string)        // the error message is posted
    | UpsertsAwaited(batches: seq<Batch>)   // every dispatched upsert task is awaited

  datatype ScrapeError = FetchFailed(reason: string) | CountMismatch

  /** How `_scrape` ends: it returns, or it raises. */
  datatype Outcome = Finished | Raised(error: ScrapeError)

  datatype Report = Report(events: seq<Event>, outcome: Outcome)

  /** The chat documents and thread messages gathered from one channel's top-level messages. */
  datatype ThreadScan = ThreadScan(documents: seq<ChatDocument>, threadMessages: seq<Message>, failure: Option<string>)

  /** The local state of `_scrape` between channels. */
  datatype ScrapeState = ScrapeState(
    total: nat,                  // total_server_messages
    allMessages: seq<Message>,   // all_messages
    description: string,         // reply_embed_description
    tasks: seq<Batch>,           // upsert_tasks
    events: seq<Event>,
    failure: Option<string>)     // the exception that ended the channel loop, if any

  // ---------------------------------------------------------------------------
  // Specification
  // ---------------------------------------------------------------------------

  /** The messages that own a thread, in channel order. */
  function Threaded(messages: seq<Message>): (r: seq<Message>)
    ensures forall m :: m in r ==> m in messages && m.thread.Some?
    ensures forall m :: m in messages && m.thread.Some? ==> m in r
    decreases |messages|
  {
    if |messages| == 0 then []
    else
      var last := messages[|messages| - 1];
      Threaded(messages[..|messages| - 1]) + (if last.thread.Some? then [last] else [])
  }

  /** The messages of the chat documents, one document after the other. */
  function MessagesOf(documents: seq<ChatDocument>): (r: seq<Message>)
    decreases |documents|
  {
    if |documents| == 0 then []
    else MessagesOf(documents[..|documents| - 1]) + documents[|documents| - 1].messages
  }

  /**
   * The inner loop of `_scrape` over a channel's top-level messages: fetch the
   * thread of each threaded message and build its chat document. The first thread
   * fetch that raises ends the scan.
   */
  function ScanThreads(messages: seq<Message>): (r: ThreadScan)
    decreases |messages|
  {
    if |messages| == 0 then ThreadScan([], [], None)
    else
      var scan := ScanThreads(messages[..|messages| - 1]);
      var message := messages[|messages| - 1];
      if scan.failure.Some? || message.thread.None? then scan
      else match MessageList(message.thread.value.history)
        case Failure(e) => scan.(failure := Some(e))
        case Success(threadMessages) =>
          ThreadScan(scan.documents + [ChatDocument(message.thread.value.id, message, threadMessages)],
                     scan.threadMessages + threadMessages, None)
  }

  /** The upsert batches one channel dispatches: only the non-empty ones. */
  function UpsertBatches(topLevel: seq<Message>, documents: seq<ChatDocument>): (r: seq<Batch>) {
    (if |topLevel| > 0 then [MessageBatch(topLevel)] else [])
    + (if |documents| > 0 then [ChatBatch(documents)] else [])
  }

  function Dispatches(batches: seq<Batch>): (r: seq<Event>)
    decreases |batches|
  {
    if |batches| == 0 then []
    else Dispatches(batches[..|batches| - 1]) + [UpsertDispatched(batches[|batches| - 1])]
  }

  /** The batches of the `UpsertDispatched` events of a log, in order. */
  function DispatchedBatches(events: seq<Event>): (r: seq<Batch>)
    decreases |events|
  {
    if |events| == 0 then []
    else
      var last := events[|events| - 1];
      DispatchedBatches(events[..|events| - 1]) + (if last.UpsertDispatched? then [last.batch] else [])
  }

  /** One pass of the channel loop of `_scrape`. */
  function ScrapeChannel(s: ScrapeState, channel: Channel): (r: ScrapeState)
    requires s.failure.None?
  {
    if !channel.isText then s
    else match MessageList(channel.history)
      case Failure(e) => s.(failure := Some(e))
      case Success(topLevel) =>
        var scan := ScanThreads(topLevel);
        var allMessages := s.allMessages + topLevel + scan.threadMessages;
        if scan.failure.Some? then s.(allMessages := allMessages, failure := scan.failure)
        else
          var threadCount := |scan.threadMessages|;
          var total := s.total + (|topLevel| + threadCount);
          var summary := ChannelSummary(channel.name, |topLevel|, |scan.documents|, threadCount);
          var description := UpdateReplyMessageEmbed(s.description, summary, total, false);
          var batches := UpsertBatches(topLevel, scan.documents);
          ScrapeState(total, allMessages, description, s.tasks + batches,
                      s.events + [StatusEdited(description)] + Dispatches(batches), None)
  }

  /** The state `_scrape` starts from: the status message has been posted with an empty description. */
  const Start := ScrapeState(0, [], "", [], [StatusSent("")], None)

  /** The channel loop of `_scrape`; the first exception ends it. */
  function ScrapeChannels(channels: seq<Channel>): (r: ScrapeState)
    decreases |channels|
  {
    if |channels| == 0 then Start
    else
      var s := ScrapeChannels(channels[..|channels| - 1]);
      if s.failure.Some? then s else ScrapeChannel(s, channels[|channels| - 1])
  }

  /** The `except` and `finally` steps: report the error, await every upsert, post the final status. */
  function Wrapup(s: ScrapeState): (r: seq<Event>) {
    (if s.failure.Some? then [ErrorSent(s.failure.value)] else [])
    + [UpsertsAwaited(s.tasks), StatusEdited(UpdateReplyMessageEmbed(s.description, "", s.total, true))]
  }

  /**
   * How the corrected scrape ends: an exception from the channel loop is re-raised;
   * otherwise the count check decides.
   */
  function FinalOutcome(s: ScrapeState): (r: Outcome) {
    if s.failure.Some? then Raised(FetchFailed(s.failure.value))
    else if |s.allMessages| != s.total then Raised(CountMismatch)
    else Finished
  }

  /**
   * How `_scrape` ends as written: the count check sits in the `finally` block, so
   * when it fails it replaces any exception from the channel loop.
   */
  function FinalOutcomeAsWritten(s: ScrapeState): (r: Outcome) {
    if |s.allMessages| != s.total then Raised(CountMismatch)
    else if s.failure.Some? then Raised(FetchFailed(s.failure.value))
    else Finished
  }

  function ScrapeResult(channels: seq<Channel>): (r: Report) {
    var s := ScrapeChannels(channels);
    Report(s.events + Wrapup(s), FinalOutcome(s))
  }

  function ScrapeResultAsWritten(channels: seq<Channel>): (r: Report) {
    var s := ScrapeChannels(channels);
    Report(s.events + Wrapup(s), FinalOutcomeAsWritten(s))
  }

  /** A text channel whose history and threads can all be read without an exception escaping. */
  predicate Readable(channel: Channel) {
    match MessageList(channel.history)
    case Failure(_) => false
    case Success(topLevel) => ScanThreads(topLevel).failure.None?
  }

  function TextChannels(channels: seq<Channel>): (r: seq<Channel>)
    ensures forall c :: c in r ==> c in channels && c.isText
    ensures forall c :: c in channels && c.isText ==> c in r
    decreases |channels|
  {
    if |channels| == 0 then []
    else
      var last := channels[|channels| - 1];
      TextChannels(channels[..|channels| - 1]) + (if last.isText then [last] else [])
  }

  // ---------------------------------------------------------------------------
  // The imperative scrape
  // ---------------------------------------------------------------------------

  /**
   * The thread loop of `_scrape` for one channel: fetch each threaded message's
   * thread, add its messages to `allMessages`, count them and build the chat
   * document. A fetch that raises ends the loop with that error.
   */
  method CollectChats(channelMessages: seq<Message>, allMessages: seq<Message>)
    returns (chatDocuments: seq<ChatDocument>, threadMessageCount: nat, allMessages': seq<Message>, failure: Option<string>)
    ensures var scan := ScanThreads(channelMessages);
            && chatDocuments == scan.documents
            && failure == scan.failure
            && allMessages' == allMessages + scan.threadMessages
            && threadMessageCount == |scan.threadMessages|
  {
    allMessages' := allMessages;
    chatDocuments := [];
    threadMessageCount := 0;
    failure := None;
    ghost var threadMessagesSoFar: seq<Message> := [];
    var j := 0;
    while j < |channelMessages| && failure.None?
      invariant j <= |channelMessages|
      invariant ScanThreads(channelMessages[..j]) == ThreadScan(chatDocuments, threadMessagesSoFar, failure)
      invariant allMessages' == allMessages + threadMessagesSoFar
      invariant threadMessageCount == |threadMessagesSoFar|
    {
      assert channelMessages[..j + 1][..j] == channelMessages[..j];
      var message := channelMessages[j];
      if message.thread.Some? {
        var threadFetched := GetMessageListFromChannel(message.thread.value.history);
        if threadFetched.Failure? {
          failure := Some(threadFetched.error);
        } else {
          var threadMessages := threadFetched.value;
          allMessages' := allMessages' + threadMessages;
          threadMessageCount := threadMessageCount + |threadMessages|;
          threadMessagesSoFar := threadMessagesSoFar + threadMessages;
          chatDocuments := chatDocuments + [ChatDocument(message.thread.value.id, message, threadMessages)];
        }
      }
      j := j + 1;
    }
    if j < |channelMessages| {
      ScanThreadsStops(channelMessages, j);
    }
    assert channelMessages[..|channelMessages|] == channelMessages;
  }

  /** Dispatch a channel's upserts: its top-level messages and its chat documents, each only if there are any. */
  method DispatchUpserts(tasks: seq<Batch>, events: seq<Event>, channelMessages: seq<Message>, chatDocuments: seq<ChatDocument>)
    returns (tasks': seq<Batch>, events': seq<Event>)
    ensures tasks' == tasks + UpsertBatches(channelMessages, chatDocuments)
    ensures events' == events + Dispatches(UpsertBatches(channelMessages, chatDocuments))
  {
    tasks', events' := tasks, events;
    if |channelMessages| > 0 {
      tasks' := tasks' + [MessageBatch(channelMessages)];
      events' := events' + [UpsertDispatched(MessageBatch(channelMessages))];
    }
    if |chatDocuments| > 0 {
      tasks' := tasks' + [ChatBatch(chatDocuments)];
      events' := events' + [UpsertDispatched(ChatBatch(chatDocuments))];
    }
    DispatchesOfUpserts(channelMessages, chatDocuments);
  }

  /** The body of the channel loop of `_scrape`, for one channel. */
  method ScrapeOneChannel(s: ScrapeState, channel: Channel) returns (s': ScrapeState)
    requires s.failure.None?
    ensures s' == ScrapeChannel(s, channel)
  {
    s' := s;
    if channel.isText {
      var fetched := GetMessageListFromChannel(channel.history);
      if fetched.Failure? {
        s' := s'.(failure := Some(fetched.error));
      } else {
        var channelMessages := fetched.value;
        var chatDocuments, threadMessageCount, allMessages, failure :=
          CollectChats(channelMessages, s.allMessages + channelMessages);
        s' := s'.(allMessages := allMessages, failure := failure);
        if failure.None? {
          var totalChannelMessages := |channelMessages| + threadMessageCount;
          var total := s.total + totalChannelMessages;
          var summary := ChannelSummary(channel.name, |channelMessages|, |chatDocuments|, threadMessageCount);
          var description := UpdateReplyMessageEmbed(s.description, summary, total, false);
          var tasks, events := DispatchUpserts(s.tasks, s.events + [StatusEdited(description)], channelMessages, chatDocuments);
          s' := ScrapeState(total, allMessages, description, tasks, events, None);
        }
      }
    }
  }

  /**
   * `_scrape` with the count check on the success path only. Platform reads are
   * the histories inside `channels`; what the scrape sends, dispatches and awaits is
   * returned as the event log.
   */
  method Scrape(channels: seq<Channel>) returns (report: Report)
    ensures report == ScrapeResult(channels)
  {
    var s := Start;
    var i := 0;
    while i < |channels| && s.failure.None?
      invariant i <= |channels|
      invariant s == ScrapeChannels(channels[..i])
    {
      assert channels[..i + 1][..i] == channels[..i];
      s := ScrapeOneChannel(s, channels[i]);
      i := i + 1;
    }
    if i < |channels| {
      ScrapeChannelsStop(channels, i);
    }
    assert channels[..|channels|] == channels;

    var events := s.events;
    if s.failure.Some? {
      events := events + [ErrorSent(s.failure.value)];
    }
    events := events + [UpsertsAwaited(s.tasks)];
    var description := UpdateReplyMessageEmbed(s.description, "", s.total, true);
    events := events + [StatusEdited(description)];
    var outcome := Finished;
    if s.failure.Some? {
      outcome := Raised(FetchFailed(s.failure.value));
    } else if |s.allMessages| != s.total {
      outcome := Raised(CountMismatch);
    }
    report := Report(events, outcome);
  }

  // ---------------------------------------------------------------------------
  // Lemmas
  // ---------------------------------------------------------------------------

  lemma DispatchesOfUpserts(topLevel: seq<Message>, documents: seq<ChatDocument>)
    ensures Dispatches(UpsertBatches(topLevel, documents))
            == (if |topLevel| > 0 then [UpsertDispatched(MessageBatch(topLevel))] else [])
               + (if |documents| > 0 then [UpsertDispatched(ChatBatch(documents))] else [])
  {
    var b := UpsertBatches(topLevel, documents);
    if |b| > 0 {
      assert Dispatches(b[..0]) == [];
    }
    if |b| == 2 {
      assert b[..1][..0] == [];
      assert Dispatches(b[..1]) == [UpsertDispatched(b[0])];
    }
  }

  /** Once a thread fetch has raised, the rest of the channel's messages change nothing. */
  lemma {:induction false} ScanThreadsStops(messages: seq<Message>, k: nat)
    requires k <= |messages| && ScanThreads(messages[..k]).failure.Some?
    ensures ScanThreads(messages) == ScanThreads(messages[..k])
    decreases |messages| - k
  {
    if k < |messages| {
      assert messages[..k + 1][..k] == messages[..k];
      ScanThreadsStops(messages, k + 1);
    } else {
      assert messages[..k] == messages;
    }
  }

  /** Once the channel loop has raised, the remaining channels change nothing. */
  lemma {:induction false} ScrapeChannelsStop(channels: seq<Channel>, k: nat)
    requires k <= |channels| && ScrapeChannels(channels[..k]).failure.Some?
    ensures ScrapeChannels(channels) == ScrapeChannels(channels[..k])
    decreases |channels| - k
  {
    if k < |channels| {
      assert channels[..k + 1][..k] == channels[..k];
      ScrapeChannelsStop(channels, k + 1);
    } else {
      assert channels[..k] == channels;
    }
  }

  /** `document` is the chat document built for the threaded message `parent`. */
  predicate DocumentFor(document: ChatDocument, parent: Message) {
    && parent.thread.Some?
    && document.chatId == parent.thread.value.id
    && document.parentMessage == parent
    && MessageList(parent.thread.value.history) == Success(document.messages)
  }

  /**
   * The thread scan builds one chat document per threaded message, in the order of
   * the parent messages, each holding its thread's fetched messages, and its thread
   * messages are exactly those of the documents. It completes exactly when every
   * thread can be read.
   */
  lemma {:induction false} ScanThreadsContract(messages: seq<Message>)
    ensures ScanThreads(messages).threadMessages == MessagesOf(ScanThreads(messages).documents)
    ensures ScanThreads(messages).failure.None?
            <==> forall m :: m in Threaded(messages) ==> MessageList(m.thread.value.history).Success?
    ensures ScanThreads(messages).failure.None? ==> |ScanThreads(messages).documents| == |Threaded(messages)|
    ensures ScanThreads(messages).failure.None? ==>
              forall j :: 0 <= j < |Threaded(messages)| ==> DocumentFor(ScanThreads(messages).documents[j], Threaded(messages)[j])
    decreases |messages|
  {
    if |messages| > 0 {
      var prefix := messages[..|messages| - 1];
      var last := messages[|messages| - 1];
      ScanThreadsContract(prefix);
      var before := ScanThreads(prefix);
      assert Threaded(messages) == Threaded(prefix) + (if last.thread.Some? then [last] else []);
      if before.failure.None? && last.thread.Some? {
        match MessageList(last.thread.value.history)
        case Failure(_) =>
          assert last in Threaded(messages);
        case Success(threadMessages) =>
          var documents := before.documents + [ChatDocument(last.thread.value.id, last, threadMessages)];
          assert ScanThreads(messages) == ThreadScan(documents, before.threadMessages + threadMessages, None);
          assert documents[..|documents| - 1] == before.documents;
          assert MessagesOf(documents) == MessagesOf(before.documents) + threadMessages;
      } else {
        assert ScanThreads(messages) == before;
      }
    }
  }

  /** A channel none of whose messages owns a thread yields no chat document. */
  lemma NoThreadsNoDocuments(messages: seq<Message>)
    requires Threaded(messages) == []
    ensures ScanThreads(messages) == ThreadScan([], [], None)
  {
    ScanThreadsContract(messages);
  }

  /** The messages a text channel contributes when it can be read: its top level, then its threads. */
  function ChannelMessages(channel: Channel): (r: seq<Message>) {
    match MessageList(channel.history)
    case Failure(_) => []
    case Success(topLevel) => topLevel + MessagesOf(ScanThreads(topLevel).documents)
  }

  /** Every message of the text channels, channel by channel. */
  function ObservedMessages(channels: seq<Channel>): (r: seq<Message>)
    decreases |channels|
  {
    if |channels| == 0 then []
    else
      var last := channels[|channels| - 1];
      ObservedMessages(channels[..|channels| - 1]) + (if last.isText then ChannelMessages(last) else [])
  }

  predicate NonEmptyBatch(batch: Batch) {
    match batch
    case MessageBatch(messages) => |messages| > 0
    case ChatBatch(chats) => |chats| > 0
  }

  lemma {:induction false} DispatchedBatchesAppend(a: seq<Event>, b: seq<Event>)
    ensures DispatchedBatches(a + b) == DispatchedBatches(a) + DispatchedBatches(b)
    decreases |b|
  {
    if |b| == 0 {
      assert a + b == a;
    } else {
      assert (a + b)[..|a + b| - 1] == a + b[..|b| - 1];
      DispatchedBatchesAppend(a, b[..|b| - 1]);
    }
  }

  lemma {:induction false} DispatchedBatchesOfDispatches(batches: seq<Batch>)
    ensures DispatchedBatches(Dispatches(batches)) == batches
    decreases |batches|
  {
    if |batches| > 0 {
      var prefix := batches[..|batches| - 1];
      DispatchedBatchesOfDispatches(prefix);
      DispatchedBatchesAppend(Dispatches(prefix), [UpsertDispatched(batches[|batches| - 1])]);
      assert [UpsertDispatched(batches[|batches| - 1])][..0] == [];
    }
  }

  /** One pass of the channel loop adds the channel's messages to `all_messages` and counts exactly those. */
  lemma ChannelCount(s: ScrapeState, channel: Channel)
    requires s.failure.None?
    ensures var s' := ScrapeChannel(s, channel);
            s'.failure.None? ==>
              && s'.allMessages == s.allMessages + (if channel.isText then ChannelMessages(channel) else [])
              && s'.total == s.total + |if channel.isText then ChannelMessages(channel) else []|
  {
    if channel.isText && MessageList(channel.history).Success? {
      ScanThreadsContract(MessageList(channel.history).value);
    }
  }

  /**
   * The running total counts exactly the messages gathered in `all_messages`,
   * which are the top-level and thread messages of the text channels read so far,
   * as long as no exception has ended the channel loop.
   */
  lemma {:induction false} CountInvariant(channels: seq<Channel>)
    ensures var s := ScrapeChannels(channels);
            s.failure.None? ==> s.allMessages == ObservedMessages(channels) && s.total == |s.allMessages|
    decreases |channels|
  {
    if |channels| > 0 {
      var prefix := channels[..|channels| - 1];
      CountInvariant(prefix);
      if ScrapeChannels(prefix).failure.None? {
        ChannelCount(ScrapeChannels(prefix), channels[|channels| - 1]);
      }
    }
  }

  /** A status edit followed by a channel's dispatches adds exactly those batches to the dispatched ones. */
  lemma DispatchedAfterChannel(events: seq<Event>, description: string, batches: seq<Batch>)
    ensures DispatchedBatches(events + [StatusEdited(description)] + Dispatches(batches))
            == DispatchedBatches(events) + batches
  {
    var edit := [StatusEdited(description)];
    assert edit[..0] == [];
    assert DispatchedBatches(edit) == [];
    DispatchedBatchesAppend(events, edit);
    assert DispatchedBatches(events + edit) == DispatchedBatches(events);
    DispatchedBatchesAppend(events + edit, Dispatches(batches));
    DispatchedBatchesOfDispatches(batches);
  }

  /** The batches one channel dispatches are non-empty and at most two. */
  lemma UpsertBatchesNonEmpty(topLevel: seq<Message>, documents: seq<ChatDocument>)
    ensures |UpsertBatches(topLevel, documents)| <= 2
    ensures forall b :: b in UpsertBatches(topLevel, documents) ==> NonEmptyBatch(b)
  {
  }

  /** One pass of the channel loop dispatches at most two non-empty batches and records each as it goes. */
  lemma ChannelTasks(s: ScrapeState, channel: Channel)
    requires s.failure.None?
    ensures var s' := ScrapeChannel(s, channel);
            && s.tasks <= s'.tasks
            && |s'.tasks| <= |s.tasks| + (if channel.isText then 2 else 0)
            && (forall b :: b in s'.tasks[|s.tasks|..] ==> NonEmptyBatch(b))
            && DispatchedBatches(s'.events) == DispatchedBatches(s.events) + s'.tasks[|s.tasks|..]
  {
    var s' := ScrapeChannel(s, channel);
    if channel.isText && MessageList(channel.history).Success? {
      var topLevel := MessageList(channel.history).value;
      var scan := ScanThreads(topLevel);
      if scan.failure.None? {
        var batches := UpsertBatches(topLevel, scan.documents);
        ChannelShape(s, channel);
        assert s'.tasks[|s.tasks|..] == batches;
        DispatchedAfterChannel(s.events, s'.description, batches);
        UpsertBatchesNonEmpty(topLevel, scan.documents);
      } else {
        assert s'.tasks[|s.tasks|..] == [];
      }
    } else {
      assert s'.tasks[|s.tasks|..] == [];
    }
  }

  /** The new task list and event log after a readable text channel. */
  lemma ChannelShape(s: ScrapeState, channel: Channel)
    requires s.failure.None? && channel.isText && Readable(channel)
    ensures var topLevel := MessageList(channel.history).value;
            var batches := UpsertBatches(topLevel, ScanThreads(topLevel).documents);
            var s' := ScrapeChannel(s, channel);
            && s'.tasks == s.tasks + batches
            && s'.events == s.events + [StatusEdited(s'.description)] + Dispatches(batches)
  {
  }

  /**
   * The task list holds exactly the dispatched upserts, in dispatch order, none of
   * them empty and at most two per text channel.
   */
  lemma {:induction false} TasksInvariant(channels: seq<Channel>)
    ensures var s := ScrapeChannels(channels);
            && s.tasks == DispatchedBatches(s.events)
            && (forall b :: b in s.tasks ==> NonEmptyBatch(b))
            && |s.tasks| <= 2 * |TextChannels(channels)|
    decreases |channels|
  {
    if |channels| > 0 {
      var prefix := channels[..|channels| - 1];
      var last := channels[|channels| - 1];
      TasksInvariant(prefix);
      var s := ScrapeChannels(prefix);
      assert |TextChannels(channels)| == |TextChannels(prefix)| + (if last.isText then 1 else 0);
      if s.failure.None? {
        ChannelTasks(s, last);
        var s' := ScrapeChannel(s, last);
        assert s'.tasks == s.tasks + s'.tasks[|s.tasks|..];
      }
    }
  }

  /** The channel loop runs to the end exactly when every text channel, and every thread in it, can be read. */
  lemma {:induction false} NoFailureIff(channels: seq<Channel>)
    ensures ScrapeChannels(channels).failure.None? <==> forall c :: c in channels && c.isText ==> Readable(c)
    decreases |channels|
  {
    if |channels| > 0 {
      var prefix := channels[..|channels| - 1];
      var last := channels[|channels| - 1];
      NoFailureIff(prefix);
      assert channels == prefix + [last];
      assert forall c :: c in channels <==> c in prefix || c == last;
    }
  }

  /**
   * The corrected scrape never reports a count mismatch; it finishes exactly when
   * every text channel and thread can be read, and otherwise re-raises the error
   * that stopped the channel loop.
   */
  lemma ScrapeOutcome(channels: seq<Channel>)
    ensures ScrapeResult(channels).outcome != Raised(CountMismatch)
    ensures ScrapeResult(channels).outcome == Finished <==> forall c :: c in channels && c.isText ==> Readable(c)
    ensures ScrapeChannels(channels).failure.Some?
            ==> ScrapeResult(channels).outcome == Raised(FetchFailed(ScrapeChannels(channels).failure.value))
  {
    CountInvariant(channels);
    NoFailureIff(channels);
  }

  /**
   * As written, the count check can fail only after the channel loop has raised,
   * and then its `ValueError` is what the caller sees.
   */
  lemma AsWrittenMismatchOnlyAfterError(channels: seq<Channel>)
    ensures ScrapeResultAsWritten(channels).outcome == Raised(CountMismatch)
            ==> ScrapeChannels(channels).failure.Some?
    ensures ScrapeResultAsWritten(channels).outcome != ScrapeResult(channels).outcome
            ==> ScrapeResultAsWritten(channels).outcome == Raised(CountMismatch)
  {
    CountInvariant(channels);
  }

  /**
   * A concrete case: one text channel with one message whose thread cannot be
   * read (a server error, not a permission error). As written, the scrape raises
   * the count mismatch instead of the server error; corrected, it re-raises the
   * server error.
   */
  lemma AsWrittenMasksThreadError()
    ensures var thread := Thread(7, History([], Some(Interruption(0, OtherError("503 Service Unavailable")))));
            var parent := Message(1, 42, "ana", "see thread", Some(thread));
            var general := Channel("general", true, History([parent], None));
            && ScrapeResultAsWritten([general]).outcome == Raised(CountMismatch)
            && ScrapeResult([general]).outcome == Raised(FetchFailed("503 Service Unavailable"))
  {
    var thread := Thread(7, History([], Some(Interruption(0, OtherError("503 Service Unavailable")))));
    var parent := Message(1, 42, "ana", "see thread", Some(thread));
    var general := Channel("general", true, History([parent], None));
    assert [general][..0] == [];
    assert [parent][..0] == [];
    assert MessageList(general.history) == Success([parent]);
    assert ScanThreads([parent]) == ThreadScan([], [], Some("503 Service Unavailable"));
    assert ScrapeChannels([general]) == ScrapeChannel(Start, general);
    var s := ScrapeChannels([general]);
    assert s.allMessages == [parent];
    assert s.total == 0;
  }

  /** Channels that are not text channels contribute nothing: no messages, no documents, no upserts, no status edits. */
  lemma {:induction false} NonTextChannelsIgnored(channels: seq<Channel>)
    ensures ScrapeChannels(channels) == ScrapeChannels(TextChannels(channels))
    decreases |channels|
  {
    if |channels| > 0 {
      var prefix := channels[..|channels| - 1];
      var last := channels[|channels| - 1];
      NonTextChannelsIgnored(prefix);
      var s := ScrapeChannels(prefix);
      if last.isText {
        var text := TextChannels(prefix) + [last];
        assert TextChannels(channels) == text;
        assert text[..|text| - 1] == TextChannels(prefix);
        assert ScrapeChannels(text) == if s.failure.Some? then s else ScrapeChannel(s, last);
      } else {
        assert TextChannels(channels) == TextChannels(prefix);
        assert ScrapeChannels(channels) == s;
      }
    }
  }

  /**
   * The `finally` step, whether or not the loop raised: the error notice first (if
   * any), then one await of every dispatched upsert, then a last status edit that
   * ends in "Done!".
   */
  lemma FinallyOrder(channels: seq<Channel>)
    ensures var events := ScrapeResult(channels).events;
            && |events| >= 3
            && events[|events| - 2] == UpsertsAwaited(DispatchedBatches(events[..|events| - 2]))
            && events[|events| - 1].StatusEdited?
            && var d := events[|events| - 1].description;
               |d| >= |DoneNote| && d[|d| - |DoneNote|..] == DoneNote
    ensures ScrapeChannels(channels).failure.Some? ==>
              var events := ScrapeResult(channels).events;
              events[|events| - 3] == ErrorSent(ScrapeChannels(channels).failure.value)
    ensures NoticeSent(ScrapeResult(channels).events) <==> ScrapeChannels(channels).failure.Some?
  {
    var s := ScrapeChannels(channels);
    TasksInvariant(channels);
    StartsWithStatus(channels);
    var events := ScrapeResult(channels).events;
    var notice: seq<Event> := if s.failure.Some? then [ErrorSent(s.failure.value)] else [];
    assert events[..|events| - 2] == s.events + notice;
    DispatchedBatchesAppend(s.events, notice);
    assert notice != [] ==> notice[..0] == [];
    ErrorNoticeIff(channels);
  }

  /** Some event of the log is an error notice. */
  predicate NoticeSent(events: seq<Event>) {
    exists e :: e in events && e.ErrorSent?
  }

  /** The error notice is sent exactly when the channel loop raised. */
  lemma ErrorNoticeIff(channels: seq<Channel>)
    ensures NoticeSent(ScrapeResult(channels).events) <==> ScrapeChannels(channels).failure.Some?
  {
    var s := ScrapeChannels(channels);
    var events := ScrapeResult(channels).events;
    var wrapup := Wrapup(s);
    assert events == s.events + wrapup;
    NoErrorInLoop(channels);
    if s.failure.Some? {
      assert events[|s.events|] == ErrorSent(s.failure.value);
      assert events[|s.events|] in events;
    } else {
      assert wrapup == [UpsertsAwaited(s.tasks), StatusEdited(UpdateReplyMessageEmbed(s.description, "", s.total, true))];
      forall e | e in events
        ensures !e.ErrorSent?
      {
        if e !in s.events {
          assert e in wrapup;
        }
      }
    }
  }

  /** Upsert dispatch events are all the dispatches produce. */
  lemma {:induction false} DispatchesOnlyUpserts(batches: seq<Batch>)
    ensures forall e :: e in Dispatches(batches) ==> e.UpsertDispatched?
    decreases |batches|
  {
    if |batches| > 0 {
      DispatchesOnlyUpserts(batches[..|batches| - 1]);
    }
  }

  /** The channel loop itself never sends the error notice; only the `except` block does. */
  lemma {:induction false} NoErrorInLoop(channels: seq<Channel>)
    ensures forall e :: e in ScrapeChannels(channels).events ==> !e.ErrorSent?
    decreases |channels|
  {
    if |channels| > 0 {
      var prefix := channels[..|channels| - 1];
      var last := channels[|channels| - 1];
      NoErrorInLoop(prefix);
      var s := ScrapeChannels(prefix);
      var s' := ScrapeChannels(channels);
      if s.failure.None? && last.isText && Readable(last) {
        ChannelShape(s, last);
        var topLevel := MessageList(last.history).value;
        var batches := UpsertBatches(topLevel, ScanThreads(topLevel).documents);
        DispatchesOnlyUpserts(batches);
        assert s'.events == s.events + [StatusEdited(s'.description)] + Dispatches(batches);
      } else {
        assert s'.events == s.events;
      }
    }
  }

  /** The status message is posted, with an empty description, before anything else happens. */
  lemma {:induction false} StartsWithStatus(channels: seq<Channel>)
    ensures |ScrapeChannels(channels).events| >= 1
    ensures ScrapeChannels(channels).events[0] == StatusSent("")
    decreases |channels|
  {
    if |channels| > 0 {
      StartsWithStatus(channels[..|channels| - 1]);
    }
  }

  /**
   * One readable text channel: the total grows by its top-level messages plus its
   * thread messages, one chat document is built per threaded message, and the
   * status text gains the channel's summary block while keeping the earlier ones,
   * provided no channel name holds an `=` sign.
   */
  lemma ChannelEffects(s: ScrapeState, channel: Channel, history: string)
    requires s.failure.None? && channel.isText && Readable(channel)
    ensures var topLevel := MessageList(channel.history).value;
            var documents := ScanThreads(topLevel).documents;
            var s' := ScrapeChannel(s, channel);
            && s'.failure.None?
            && s'.total == s.total + |topLevel| + |MessagesOf(documents)|
            && |documents| == |Threaded(topLevel)|
            && s'.tasks == s.tasks + UpsertBatches(topLevel, documents)
            && ('=' !in channel.name && ShowsHistory(s.description, history, s.total)
                ==> s'.description == Rendered(history + ChannelSummary(channel.name, |topLevel|, |documents|, |MessagesOf(documents)|), s'.total, false))
  {
    var topLevel := MessageList(channel.history).value;
    var documents := ScanThreads(topLevel).documents;
    ScanThreadsContract(topLevel);
    var block := ChannelSummary(channel.name, |topLevel|, |documents|, |MessagesOf(documents)|);
    var total' := s.total + |topLevel| + |MessagesOf(documents)|;
    var s' := ScrapeChannel(s, channel);
    assert s'.total == total';
    assert s'.description == UpdateReplyMessageEmbed(s.description, block, total', false);
    if '=' !in channel.name && ShowsHistory(s.description, history, s.total) {
      if s.description == "" && history == "" {
        FirstUpdate(block, total', false);
      } else if s.description == Rendered(history, s.total, false) {
        SummariesSurvive(history, s.total, channel.name, |topLevel|, |documents|, |MessagesOf(documents)|, total', false);
      }
    }
  }

  /**
   * Two channels: the first has three top-level messages, the second of which
   * spawned a thread of two messages; the second channel yields no message, being
   * empty or closed to the bot. One chat document is built, for that thread; five
   * messages are counted; both upserts come from the first channel; the scrape
   * finishes.
   */
  lemma TwoChannelScenario(second: Channel)
    requires second.isText && MessageList(second.history) == Success([])
    ensures var reply1 := Message(21, 5, "bo", "first reply", None);
            var reply2 := Message(22, 4, "ana", "second reply", None);
            var thread := Thread(20, History([reply1, reply2], None));
            var m1 := Message(1, 4, "ana", "hello", None);
            var m2 := Message(2, 4, "ana", "a question", Some(thread));
            var m3 := Message(3, 5, "bo", "bye", None);
            var first := Channel("general", true, History([m1, m2, m3], None));
            var s := ScrapeChannels([first, second]);
            && s.total == 5
            && s.tasks == [MessageBatch([m1, m2, m3]), ChatBatch([ChatDocument(20, m2, [reply1, reply2])])]
            && ScrapeResult([first, second]).outcome == Finished
  {
    var reply1 := Message(21, 5, "bo", "first reply", None);
    var reply2 := Message(22, 4, "ana", "second reply", None);
    var thread := Thread(20, History([reply1, reply2], None));
    var m1 := Message(1, 4, "ana", "hello", None);
    var m2 := Message(2, 4, "ana", "a question", Some(thread));
    var m3 := Message(3, 5, "bo", "bye", None);
    var first := Channel("general", true, History([m1, m2, m3], None));
    var top := [m1, m2, m3];
    assert top[..2][..1][..0] == [];
    assert top[..2][..1] == [m1];
    assert top[..2] == [m1, m2];
    assert top[..3] == top;
    assert ScanThreads([m1]) == ThreadScan([], [], None);
    assert ScanThreads([m1, m2]) == ThreadScan([ChatDocument(20, m2, [reply1, reply2])], [reply1, reply2], None);
    assert ScanThreads(top) == ScanThreads([m1, m2]);
    var channels := [first, second];
    assert channels[..1][..0] == [];
    assert channels[..1] == [first];
    var s1 := ScrapeChannel(Start, first);
    assert ScrapeChannels([first]) == s1;
    assert s1.total == 5 && s1.allMessages == [m1, m2, m3, reply1, reply2];
    assert s1.tasks == [MessageBatch(top), ChatBatch([ChatDocument(20, m2, [reply1, reply2])])];
    assert ScanThreads([]) == ThreadScan([], [], None);
    var s2 := ScrapeChannel(s1, second);
    assert ScrapeChannels(channels) == s2;
    assert s2.total == 5 && s2.tasks == s1.tasks && s2.allMessages == s1.allMessages;
  }

  /** The summary block `_scrape` builds for a text channel it could read. */
  function ChannelBlock(channel: Channel): (r: string)
    requires channel.isText && Readable(channel)
  {
    var topLevel := MessageList(channel.history).value;
    var documents := ScanThreads(topLevel).documents;
    ChannelSummary(channel.name, |topLevel|, |documents|, |MessagesOf(documents)|)
  }

  /**
   * The summary blocks of the text channels, channel by channel, up to the channel
   * at which the loop raised: that channel and the ones after it add nothing.
   */
  function SummaryHistory(channels: seq<Channel>): (r: string)
    decreases |channels|
  {
    if |channels| == 0 then ""
    else
      var prefix := channels[..|channels| - 1];
      var last := channels[|channels| - 1];
      if ScrapeChannels(prefix).failure.Some? then SummaryHistory(prefix)
      else SummaryHistory(prefix) + (if last.isText && Readable(last) then ChannelBlock(last) else "")
  }

  /** The status text as `_scrape` keeps it: empty before the first summary, rendered after. */
  predicate ShowsHistory(description: string, history: string, total: int) {
    && '=' !in history
    && ((description == "" && history == "") || description == Rendered(history, total, false))
  }

  /**
   * One pass of the channel loop keeps the status text showing every summary so
   * far, plus the channel's own when it could be read; a channel that raises
   * leaves the status text and the total as they were.
   */
  lemma StatusStep(s: ScrapeState, channel: Channel, history: string)
    requires s.failure.None? && '=' !in channel.name
    requires ShowsHistory(s.description, history, s.total)
    ensures var s' := ScrapeChannel(s, channel);
            ShowsHistory(s'.description, history + (if channel.isText && Readable(channel) then ChannelBlock(channel) else ""), s'.total)
    ensures var s' := ScrapeChannel(s, channel);
            s'.failure.Some? ==> s'.description == s.description && s'.total == s.total
  {
    if channel.isText && Readable(channel) {
      ChannelEffects(s, channel, history);
      var topLevel := MessageList(channel.history).value;
      var documents := ScanThreads(topLevel).documents;
      SummaryLacksMarker(channel.name, |topLevel|, |documents|, |MessagesOf(documents)|);
    } else {
      assert history + "" == history;
    }
  }

  /**
   * The status text after every channel shows the summary block of each text
   * channel scraped so far, in channel order, then the running total and the
   * "Scraping next channel..." note (it is still empty before the first text
   * channel), provided no channel name holds an `=` sign. After the loop raised,
   * the status text still shows the summaries of the channels before the one
   * that raised.
   */
  lemma {:induction false} StatusKeepsEverySummary(channels: seq<Channel>)
    requires forall c :: c in channels ==> '=' !in c.name
    ensures var s := ScrapeChannels(channels);
            ShowsHistory(s.description, SummaryHistory(channels), s.total)
    decreases |channels|
  {
    if |channels| > 0 {
      var prefix := channels[..|channels| - 1];
      var last := channels[|channels| - 1];
      assert forall c :: c in prefix ==> c in channels;
      StatusKeepsEverySummary(prefix);
      var s := ScrapeChannels(prefix);
      if s.failure.None? {
        assert last in channels;
        StatusStep(s, last, SummaryHistory(prefix));
      }
    }
  }

  /**
   * The last status edit, made by `finally` whether or not the loop raised, shows
   * the summary block of every text channel scraped before the loop ended, the
   * total counted so far and "Done!".
   */
  lemma FinalStatus(channels: seq<Channel>)
    requires forall c :: c in channels ==> '=' !in c.name
    ensures var events := ScrapeResult(channels).events;
            && |events| > 0
            && events[|events| - 1]
               == StatusEdited(Rendered(SummaryHistory(channels), ScrapeChannels(channels).total, true))
  {
    var s := ScrapeChannels(channels);
    var history := SummaryHistory(channels);
    StatusKeepsEverySummary(channels);
    if s.description == "" && history == "" {
      FirstUpdate("", s.total, true);
    } else {
      TotalMarkerLastCharUnique();
      FreeOfMissingChar(history, TotalMarker, '=');
      UpdateAppendsBlock(history, s.total, false, "", s.total, true);
      assert history + "" == history;
    }
  }
}
