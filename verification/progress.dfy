/**
 * The status text of a scrape: one summary block per scraped channel, then a
 * line with the running total and a closing note. The scraper keeps it in the
 * description of a single message it edits after every channel.
 */
module Progress {
  import opened Text

  const MarkerRule := "======================"

  /** Separates the channel summaries from the running total. */
  const TotalMarker := MarkerRule + "\nTotal Server Messages:"
  const NextChannelNote: string := "\n\nScraping next channel..."
  const DoneNote: string := "\n\nDone!"
  const SummaryRule: string := "-----------------------------\n"

  /** The last line of the status text: whether the scrape is over or moves on. */
  function ClosingNote(done: bool): (r: string) {
    if done then DoneNote else NextChannelNote
  }

  /** The status text for the summaries `history`, the running `total` and the closing note. */
  function Rendered(history: string, total: int, done: bool): (r: string) {
    history + TotalMarker + " " + IntToString(total) + ClosingNote(done)
  }

  /**
   * `_update_reply_message_embed` without its `edit` call: keep what precedes the
   * first total marker, append the channel block, then write the total line and
   * the closing note anew.
   */
  function UpdateReplyMessageEmbed(embedMessage: string, channelBlock: string, total: int, done: bool): (r: string) {
    var kept := BeforeFirst(embedMessage, TotalMarker);
    kept + channelBlock + TotalMarker + " " + IntToString(total) + ClosingNote(done)
  }

  /** The per-channel summary block that `_scrape` builds. */
  function ChannelSummary(channel: string, topLevel: nat, chats: nat, threadMessages: nat): (r: string) {
    "Channel: " + channel + "\n"
    + IntToString(topLevel) + " top level messages\n"
    + IntToString(chats) + " chats with " + IntToString(threadMessages) + " messages\n"
    + "Total: " + IntToString(topLevel + threadMessages) + "\n"
    + SummaryRule
  }

  lemma TotalMarkerLastCharUnique()
    ensures LastCharUnique(TotalMarker) && TotalMarker[0] == '='
  {
  }

  /** The first update of an empty status text shows just the new block. */
  lemma FirstUpdate(channelBlock: string, total: int, done: bool)
    ensures UpdateReplyMessageEmbed("", channelBlock, total, done) == Rendered(channelBlock, total, done)
  {
    var kept := BeforeFirst("", TotalMarker);
    assert kept == "";
    assert kept + channelBlock == channelBlock;
  }

  /** Splitting a rendered status text at the marker gives back its summaries, or less. */
  lemma {:induction false} SplitRendered(history: string, total: int, done: bool)
    ensures Free(history, TotalMarker) ==> BeforeFirst(Rendered(history, total, done), TotalMarker) == history
    ensures !Free(history, TotalMarker) ==> |BeforeFirst(Rendered(history, total, done), TotalMarker)| < |history|
  {
    var tail := " " + IntToString(total) + ClosingNote(done);
    RenderedShape(history, total, done);
    OccursAfter(history, TotalMarker, tail);
    TotalMarkerLastCharUnique();
    BeforeFirstOfJoin(Rendered(history, total, done), TotalMarker, history);
  }

  /** A rendered status text is its summaries, the marker, then the total line and the closing note. */
  lemma RenderedShape(history: string, total: int, done: bool)
    ensures Rendered(history, total, done) == history + TotalMarker + (" " + IntToString(total) + ClosingNote(done))
  {
    Regroup(history, TotalMarker, " ", IntToString(total), ClosingNote(done));
  }

  lemma Regroup(a: string, b: string, c: string, d: string, e: string)
    ensures a + b + c + d + e == a + b + (c + d + e)
  {
  }

  lemma UpdateAppendsBlock(history: string, total: int, done: bool, channelBlock: string, total': int, done': bool)
    requires Free(history, TotalMarker)
    ensures UpdateReplyMessageEmbed(Rendered(history, total, done), channelBlock, total', done')
            == Rendered(history + channelBlock, total', done')
  {
    SplitRendered(history, total, done);
  }

  lemma UpdateTruncates(history: string, total: int, done: bool, channelBlock: string, total': int, done': bool)
    requires !Free(history, TotalMarker)
    ensures |UpdateReplyMessageEmbed(Rendered(history, total, done), channelBlock, total', done')|
            < |Rendered(history + channelBlock, total', done')|
  {
    SplitRendered(history, total, done);
  }

  /**
   * An update keeps every earlier summary and appends the new block exactly when
   * the earlier summaries do not themselves contain the total marker.
   */
  lemma UpdateKeepsHistory(history: string, total: int, done: bool, channelBlock: string, total': int, done': bool)
    ensures UpdateReplyMessageEmbed(Rendered(history, total, done), channelBlock, total', done')
            == Rendered(history + channelBlock, total', done')
            <==> Free(history, TotalMarker)
  {
    if Free(history, TotalMarker) {
      UpdateAppendsBlock(history, total, done, channelBlock, total', done');
    } else {
      UpdateTruncates(history, total, done, channelBlock, total', done');
    }
  }

  lemma DigitsLackEquals(n: nat)
    ensures '=' !in IntToString(n)
  {
    var s := IntToString(n);
    forall k | 0 <= k < |s| ensures s[k] != '=' {
      assert '0' <= s[k] <= '9';
    }
  }

  lemma LiteralsLackEquals()
    ensures '=' !in "Channel: " && '=' !in "\n" && '=' !in " top level messages\n"
    ensures '=' !in " chats with " && '=' !in " messages\n" && '=' !in "Total: "
    ensures '=' !in SummaryRule
  {
  }

  /** A summary block contains no `=` unless the channel name does, so it never holds the marker. */
  lemma {:induction false} SummaryLacksMarker(channel: string, topLevel: nat, chats: nat, threadMessages: nat)
    requires '=' !in channel
    ensures '=' !in ChannelSummary(channel, topLevel, chats, threadMessages)
  {
    DigitsLackEquals(topLevel);
    DigitsLackEquals(chats);
    DigitsLackEquals(threadMessages);
    DigitsLackEquals(topLevel + threadMessages);
    LiteralsLackEquals();
    var n1, n2, n3 := IntToString(topLevel), IntToString(chats), IntToString(threadMessages);
    var n4 := IntToString(topLevel + threadMessages);
    var nameLine := "Channel: " + channel + "\n";
    var topLine := n1 + " top level messages\n";
    var chatLine := n2 + " chats with " + n3 + " messages\n";
    var totalLine := "Total: " + n4 + "\n";
    assert '=' !in nameLine;
    assert '=' !in topLine;
    assert '=' !in chatLine;
    assert '=' !in totalLine;
  }

  /**
   * Across the updates of one scrape the status text grows by one summary block
   * per channel and never loses an earlier one, as long as no channel name holds
   * an `=` sign (and so the total marker).
   */
  lemma {:induction false} SummariesSurvive(history: string, total: int, channel: string, topLevel: nat, chats: nat, threadMessages: nat, total': int, done': bool)
    requires '=' !in history && '=' !in channel
    ensures var block := ChannelSummary(channel, topLevel, chats, threadMessages);
            && UpdateReplyMessageEmbed(Rendered(history, total, false), block, total', done')
               == Rendered(history + block, total', done')
            && '=' !in history + block
  {
    TotalMarkerLastCharUnique();
    FreeOfMissingChar(history, TotalMarker, '=');
    UpdateKeepsHistory(history, total, false, ChannelSummary(channel, topLevel, chats, threadMessages), total', done');
    SummaryLacksMarker(channel, topLevel, chats, threadMessages);
  }
}
