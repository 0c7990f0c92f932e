# Server scrape and chat export, in Dafny

This project models two pieces of the jonbot Discord bot.

**The server scrape.** `ServerScraperCog._scrape` walks a guild's channels and keeps only the text channels. For each one it:

- reads the channel's history, oldest first;
- reads the thread of every top-level message that has one;
- builds one chat document per thread;
- counts top-level and thread messages, per channel and for the server;
- dispatches at most two database upserts per channel: the channel's messages, and its chat documents;
- edits a status message after each channel.

The status message is kept up to date by `_update_reply_message_embed`. It keeps the text before the first occurrence of the "Total Server Messages" marker, appends the new block and writes the total line and the closing note anew. That kept text is every earlier summary block exactly when none of them holds the marker. At the end the scrape:

- sends an error notice if the channel loop raised;
- awaits every upsert;
- posts a final status with "Done!";
- checks that the number of gathered messages equals the running total.

`_get_message_list_from_channel` reads one history. It swallows a permission error (`Forbidden`) and returns what it had gathered. Any other error propagates.

**The chat export.** `save_chats_to_markdown` renders the chat documents stored for a channel as one Markdown text:

- a title line, an owner line and a "### Messages:" heading per chat;
- one bullet per message;
- a `_______` separator after each chat;
- a final blank line.

Chats whose owner is on the ignore list are skipped. The file is named `chat_summary_<bot>_channel-<id>.md`, where `<bot>` is the database name with every `_database` removed.

## How it is modelled

Files:

- `wrappers.dfy` — `Option` and `Result`.
- `text.dfy` (module `Text`) — Python's `str(n)`, `s.split(p)[0]` (`BeforeFirst`) and `s.replace(p, "")` (`RemoveAll`), with the facts about occurrences they need.
- `discord.dfy` (module `Discord`) — messages, threads, channels, chat documents and the history fetch.
- `progress.dfy` (module `Progress`) — the status text.
- `scrape.dfy` (module `ServerScrape`) — the scrape.
- `markdown.dfy` (module `ChatMarkdown`) — the export.

How each part of the scraper is represented:

- **History.** A history is the full list of messages, oldest first, plus an optional point at which the platform's iterator raises. The point is the number of messages delivered before it, and the error is either `Forbidden` or another error carrying its text.
- **Platform effects.** Posting and editing the status message, dispatching an upsert task, sending the error notice and awaiting the tasks all become entries of an event log, in the order they happen.
- **Specification and implementation.** `ScrapeChannel` specifies one pass of the channel loop, and `ScrapeChannels` folds it over the channels. The imperative `Scrape` method, with its helpers `ScrapeOneChannel`, `CollectChats` and `DispatchUpserts`, is proved equal to that specification.

The export is the method `SaveChatsToMarkdown`. Its nested loops and its `continue` follow the source. It is proved equal to the function `MarkdownOutput`, and its file name to `MarkdownFileName`.

Paths below are relative to the repository root.

## Model

| member | source | states |
|---|---|---|
| Discord.MessageList | jonbot/frontends/discord_bot/cogs/server_scraper_cog.py:183-196 | the fetch succeeds exactly when nothing interrupts the history or the interruption is `Forbidden`; on success it is the prefix of the history delivered before the interruption (all of it when uninterrupted, nothing when access is denied up front); any other error comes back as a failure carrying its text |
| Discord.Delivered | jonbot/frontends/discord_bot/cogs/server_scraper_cog.py:189-190 | the iterator yields at most the whole history, and all of it when nothing interrupts it |
| Discord.GetMessageListFromChannel | jonbot/frontends/discord_bot/cogs/server_scraper_cog.py:183-196 | the append loop over the history iterator returns exactly `MessageList` |
| Text.BeforeFirst | jonbot/frontends/discord_bot/cogs/server_scraper_cog.py:152 | `split(marker)[0]` is a prefix of the text, no occurrence of the marker starts inside it, and the marker starts right after it unless it is the whole text |
| Text.BeforeFirstIs | jonbot/frontends/discord_bot/cogs/server_scraper_cog.py:152 | those three properties determine the split result uniquely |
| Text.BeforeFirstOfJoin | jonbot/frontends/discord_bot/cogs/server_scraper_cog.py:152 | when a self-overlap-free marker follows a prefix, splitting gives back the prefix exactly when the marker does not occur in it, and something shorter otherwise |
| Text.RemoveAll | jonbot/backend/data_layer/analysis/scratch/save_chats_to_markdown.py:17 | `replace(p, "")` never lengthens the text |
| Text.RemoveAllUnchangedIff | jonbot/backend/data_layer/analysis/scratch/save_chats_to_markdown.py:17 | `replace(p, "")` leaves the text unchanged exactly when `p` does not occur in it |
| Text.RemoveAllOfAppended | jonbot/backend/data_layer/analysis/scratch/save_chats_to_markdown.py:17 | a trailing self-overlap-free `p` is deleted and the rest of the text is treated as if it were not there |
| Text.RemoveAllShrinks | jonbot/backend/data_layer/analysis/scratch/save_chats_to_markdown.py:17 | if `p` occurs, the result is strictly shorter |
| Text.NatToString | jonbot/frontends/discord_bot/cogs/server_scraper_cog.py:92-96 | a count prints as a non-empty run of decimal digits without a leading zero |
| Text.IntToString | jonbot/frontends/discord_bot/cogs/server_scraper_cog.py:155 | `str` of an integer: a minus sign for negatives, then decimal digits; `IntToStringRoundTrip` and `IntToStringInjective` state that it is read back exactly and never prints two integers alike |
| Text.IntToStringRoundTrip | jonbot/frontends/discord_bot/cogs/server_scraper_cog.py:155 | the printed total can be parsed back to the same integer |
| Text.IntToStringInjective | jonbot/backend/data_layer/analysis/scratch/save_chats_to_markdown.py:34 | different integers print differently |
| Text.NoStraddle | jonbot/frontends/discord_bot/cogs/server_scraper_cog.py:150 | an occurrence of a self-overlap-free marker rules out every occurrence overlapping it from the left |
| Text.FreeOfMissingChar | jonbot/frontends/discord_bot/cogs/server_scraper_cog.py:150 | a text lacking a character of the marker cannot contain the marker |
| Progress.TotalMarkerLastCharUnique | jonbot/frontends/discord_bot/cogs/server_scraper_cog.py:150 | the total marker cannot overlap itself and starts with `=` |
| Progress.FirstUpdate | jonbot/frontends/discord_bot/cogs/server_scraper_cog.py:150-159 | updating the empty status text shows just the block, the total line and the closing note |
| Progress.SplitRendered | jonbot/frontends/discord_bot/cogs/server_scraper_cog.py:152 | splitting a rendered status text at the marker returns its summaries when they lack the marker, and less otherwise |
| Progress.UpdateAppendsBlock | jonbot/frontends/discord_bot/cogs/server_scraper_cog.py:150-159 | when the earlier summaries do not contain the total marker, an update keeps them, appends the block, and rewrites the total and the closing note |
| Progress.UpdateTruncates | jonbot/frontends/discord_bot/cogs/server_scraper_cog.py:150-159 | if an earlier summary contains the marker, the update loses text |
| Progress.UpdateKeepsHistory | jonbot/frontends/discord_bot/cogs/server_scraper_cog.py:150-159 | an update appends the new block to every earlier summary if and only if the earlier summaries do not contain the marker |
| Progress.UpdateReplyMessageEmbed | jonbot/frontends/discord_bot/cogs/server_scraper_cog.py:143-160 | the status update of `_update_reply_message_embed`: the text before the first total marker, the new block, the marker with the total and the closing note; `UpdateAppendsBlock` states the result for a rendered text and `UpdateKeepsHistory` states exactly when earlier blocks survive |
| Progress.ChannelSummary | jonbot/frontends/discord_bot/cogs/server_scraper_cog.py:92-96 | the per-channel summary block: channel name, top-level count, chat and thread-message counts, and their sum; `SummaryLacksMarker` states it cannot hold the total marker when the channel name holds no `=` |
| Progress.DigitsLackEquals | jonbot/frontends/discord_bot/cogs/server_scraper_cog.py:92-96 | a printed count holds no `=` |
| Progress.SummaryLacksMarker | jonbot/frontends/discord_bot/cogs/server_scraper_cog.py:92-96 | a channel summary holds no `=` unless the channel name does |
| Progress.SummariesSurvive | jonbot/frontends/discord_bot/cogs/server_scraper_cog.py:92-103 | when no channel name holds `=`, each status edit appends the channel's summary to all earlier ones and keeps the text free of the marker |
| ServerScrape.Threaded | jonbot/frontends/discord_bot/cogs/server_scraper_cog.py:81-82 | the threaded messages are exactly the channel messages that carry a thread |
| ServerScrape.TextChannels | jonbot/frontends/discord_bot/cogs/server_scraper_cog.py:66 | the filtered channels are exactly the text channels of the list |
| ServerScrape.CollectChats | jonbot/frontends/discord_bot/cogs/server_scraper_cog.py:80-89 | the thread loop returns the documents, failure, gathered messages and thread-message count of the `ScanThreads` specification |
| ServerScrape.DispatchUpserts | jonbot/frontends/discord_bot/cogs/server_scraper_cog.py:107-113 | the task list and event log grow by exactly the channel's upsert batches, in order |
| ServerScrape.ScrapeOneChannel | jonbot/frontends/discord_bot/cogs/server_scraper_cog.py:67-113 | one iteration of the channel loop yields the state `ScrapeChannel` specifies |
| ServerScrape.Scrape | jonbot/frontends/discord_bot/cogs/server_scraper_cog.py:51-137 | the scrape (count check on the success path only) yields the event log and outcome of `ScrapeResult` |
| ServerScrape.ScanThreads | jonbot/frontends/discord_bot/cogs/server_scraper_cog.py:80-88 | the thread loop of one channel, stopping at the first fetch that raises; `ScanThreadsContract` states its documents, messages and when it completes |
| ServerScrape.UpsertBatches | jonbot/frontends/discord_bot/cogs/server_scraper_cog.py:107-113 | the upserts one channel creates, only the non-empty ones; `UpsertBatchesNonEmpty` and `DispatchesOfUpserts` state which and in what order |
| ServerScrape.ScrapeChannel | jonbot/frontends/discord_bot/cogs/server_scraper_cog.py:67-113 | one pass of the channel loop; `ChannelEffects`, `ChannelCount`, `ChannelTasks` and `StatusStep` state its effect on the counts, the tasks and the status text |
| ServerScrape.ScrapeChannels | jonbot/frontends/discord_bot/cogs/server_scraper_cog.py:65-115 | the channel loop, ended by the first exception; `ScrapeChannelsStop`, `NoFailureIff`, `CountInvariant` and `TasksInvariant` state its results |
| ServerScrape.Wrapup | jonbot/frontends/discord_bot/cogs/server_scraper_cog.py:115-135 | the `except` and `finally` steps; `FinallyOrder` and `FinalStatus` state what they log and what the last status edit shows |
| ServerScrape.FinalOutcomeAsWritten | jonbot/frontends/discord_bot/cogs/server_scraper_cog.py:124-137 | the outcome as written, where the count check in `finally` overrides a re-raised error; `AsWrittenMismatchOnlyAfterError` states when it differs from the corrected outcome |
| ServerScrape.ScrapeResultAsWritten | jonbot/frontends/discord_bot/cogs/server_scraper_cog.py:51-137 | the scrape as written; `AsWrittenMasksThreadError` exhibits an input on which it raises the count mismatch instead of the fetch error |
| ServerScrape.DispatchesOfUpserts | jonbot/frontends/discord_bot/cogs/server_scraper_cog.py:107-113 | a channel dispatches its message batch if it has messages, then its chat batch if it has documents, and nothing else |
| ServerScrape.UpsertBatchesNonEmpty | jonbot/frontends/discord_bot/cogs/server_scraper_cog.py:107-113 | a channel dispatches at most two batches, none of them empty |
| ServerScrape.ScanThreadsStops | jonbot/frontends/discord_bot/cogs/server_scraper_cog.py:81-88 | once a thread fetch has raised, the channel's remaining messages change nothing |
| ServerScrape.ScrapeChannelsStop | jonbot/frontends/discord_bot/cogs/server_scraper_cog.py:65-115 | once the channel loop has raised, the remaining channels change nothing |
| ServerScrape.ScanThreadsContract | jonbot/frontends/discord_bot/cogs/server_scraper_cog.py:80-88 | the scan completes exactly when every thread can be read; it then builds one document per threaded message in parent order, with that thread's id, that parent and that thread's fetched messages; its thread messages are those of the documents |
| ServerScrape.NoThreadsNoDocuments | jonbot/frontends/discord_bot/cogs/server_scraper_cog.py:80-88 | a channel with no threaded message yields no chat document and no thread message |
| ServerScrape.ChannelCount | jonbot/frontends/discord_bot/cogs/server_scraper_cog.py:77-90 | a completed channel adds its top-level and thread messages to `all_messages` and exactly their number to the total; a non-text channel adds nothing |
| ServerScrape.CountInvariant | jonbot/frontends/discord_bot/cogs/server_scraper_cog.py:77-90 | while nothing has raised, `all_messages` is the messages of the text channels so far and the running total is its length |
| ServerScrape.ChannelTasks | jonbot/frontends/discord_bot/cogs/server_scraper_cog.py:107-113 | one channel adds at most two non-empty batches to the task list (none for a non-text channel), each logged as dispatched |
| ServerScrape.DispatchedAfterChannel | jonbot/frontends/discord_bot/cogs/server_scraper_cog.py:97-113 | a status edit followed by a channel's dispatches records exactly those batches |
| ServerScrape.TasksInvariant | jonbot/frontends/discord_bot/cogs/server_scraper_cog.py:107-113 | the task list is exactly the dispatched batches in dispatch order, none empty, at most two per text channel |
| ServerScrape.NoFailureIff | jonbot/frontends/discord_bot/cogs/server_scraper_cog.py:65-115 | the channel loop runs to the end if and only if every text channel and every thread in it can be read |
| ServerScrape.ScrapeOutcome | jonbot/frontends/discord_bot/cogs/server_scraper_cog.py:115-137 | the corrected scrape never raises the count mismatch; it finishes if and only if every text channel and thread can be read, and otherwise re-raises the error that stopped the loop |
| ServerScrape.AsWrittenMismatchOnlyAfterError | jonbot/frontends/discord_bot/cogs/server_scraper_cog.py:125-137 | as written, the count check fails only after the loop has raised, and that is the only way the as-written outcome differs from the corrected one |
| ServerScrape.AsWrittenMasksThreadError | jonbot/frontends/discord_bot/cogs/server_scraper_cog.py:77-137 | for one channel whose only message has an unreadable thread, the scrape as written raises the count mismatch while the corrected scrape re-raises the fetch error |
| ServerScrape.NonTextChannelsIgnored | jonbot/frontends/discord_bot/cogs/server_scraper_cog.py:66-67 | scraping all channels gives the same state as scraping only the text channels |
| ServerScrape.FinallyOrder | jonbot/frontends/discord_bot/cogs/server_scraper_cog.py:115-135 | the log ends with the error notice when the loop raised, then one await of every dispatched batch, then a status edit ending in "Done!"; an error notice is sent if and only if the loop raised |
| ServerScrape.ErrorNoticeIff | jonbot/frontends/discord_bot/cogs/server_scraper_cog.py:65-124 | the scrape sends an error notice if and only if the channel loop raised |
| ServerScrape.NoErrorInLoop | jonbot/frontends/discord_bot/cogs/server_scraper_cog.py:65-113 | no event of the channel loop is an error notice: only the `except` block sends one |
| ServerScrape.DispatchesOnlyUpserts | jonbot/frontends/discord_bot/cogs/server_scraper_cog.py:107-113 | dispatching batches logs nothing but upsert dispatches |
| ServerScrape.StartsWithStatus | jonbot/frontends/discord_bot/cogs/server_scraper_cog.py:59-61 | the status message is posted before anything else happens: the first event is the post of an empty status text |
| ServerScrape.ChannelEffects | jonbot/frontends/discord_bot/cogs/server_scraper_cog.py:89-113 | a readable text channel adds its top-level plus thread messages to the total, builds one document per threaded message, adds its upsert batches, and, when neither the channel name nor the text so far contains `=`, appends its summary to the status text |
| ServerScrape.StatusStep | jonbot/frontends/discord_bot/cogs/server_scraper_cog.py:97-103 | for a channel whose name does not contain `=`, one channel keeps the status text showing every summary so far, plus its own when it could be read; a channel that raises leaves the status text and the total unchanged |
| ServerScrape.StatusKeepsEverySummary | jonbot/frontends/discord_bot/cogs/server_scraper_cog.py:97-103 | when no channel name contains `=`, the status text shows the summary of each text channel scraped before the loop ended (whether it finished or raised), in order, then the running total and "Scraping next channel..." (the text is still empty before the first summary) |
| ServerScrape.FinalStatus | jonbot/frontends/discord_bot/cogs/server_scraper_cog.py:129-135 | when no channel name contains `=`, the last edit made by `finally`, whether or not the loop raised, shows the summary of every text channel scraped before the loop ended, the total counted so far and "Done!" |
| ServerScrape.TwoChannelScenario | jonbot/frontends/discord_bot/cogs/server_scraper_cog.py:65-113 | three messages (the second with a two-message thread) plus an empty or forbidden channel give one chat document, a total of 5, two upserts from the first channel only, and a finished scrape |
| ServerScrape.DispatchedBatchesOfDispatches | jonbot/frontends/discord_bot/cogs/server_scraper_cog.py:107-113 | the batches read back from a run of dispatch events are the dispatched batches |
| ChatMarkdown.SaveChatsToMarkdown | jonbot/backend/data_layer/analysis/scratch/save_chats_to_markdown.py:34-54 | the nested loops return the file name `MarkdownFileName` and the text `MarkdownOutput` |
| ChatMarkdown.AppendChatSection | jonbot/backend/data_layer/analysis/scratch/save_chats_to_markdown.py:44-53 | a chat that is not ignored appends exactly its section |
| ChatMarkdown.RenderMessages | jonbot/backend/data_layer/analysis/scratch/save_chats_to_markdown.py:48-51 | the message loop renders one entry per message, in stored order |
| ChatMarkdown.BotNickName | jonbot/backend/data_layer/analysis/scratch/save_chats_to_markdown.py:17 | the nick name is never longer than the database name |
| ChatMarkdown.ChatSection | jonbot/backend/data_layer/analysis/scratch/save_chats_to_markdown.py:44-53 | the text of one chat: title line, owner line, messages heading, one entry per message and the separator; `SectionUnderscores` states that, for a chat whose texts hold no `_`, its only underscores are the separator's seven |
| ChatMarkdown.MarkdownOutput | jonbot/backend/data_layer/analysis/scratch/save_chats_to_markdown.py:36-54 | the whole export: the sections of the chats not ignored, in query order, then the terminator; `IncludedChatContributesSection`, `IgnoredChatContributesNothing` and `OutputBareIff` state its shape |
| ChatMarkdown.MarkdownFileName | jonbot/backend/data_layer/analysis/scratch/save_chats_to_markdown.py:17-34 | `chat_summary_<nick name>_channel-<id>.md`; `FileNamePerChannel` states that distinct channels get distinct names |
| ChatMarkdown.Included | jonbot/backend/data_layer/analysis/scratch/save_chats_to_markdown.py:38-42 | no exported chat has an ignored owner, and filtering never adds chats |
| ChatMarkdown.IncludedMembers | jonbot/backend/data_layer/analysis/scratch/save_chats_to_markdown.py:38-42 | the exported chats are exactly the stored chats whose owner is not ignored |
| ChatMarkdown.IncludedAppend | jonbot/backend/data_layer/analysis/scratch/save_chats_to_markdown.py:38-42 | filtering keeps query order: the kept chats of two runs are the kept chats of the first followed by those of the second |
| ChatMarkdown.SectionsAppend | jonbot/backend/data_layer/analysis/scratch/save_chats_to_markdown.py:44-53 | sections are rendered one after another |
| ChatMarkdown.ExportInOrder | jonbot/backend/data_layer/analysis/scratch/save_chats_to_markdown.py:38-54 | the text for two runs of chats is the first run's sections, then the second's, then the final blank line |
| ChatMarkdown.IgnoredChatContributesNothing | jonbot/backend/data_layer/analysis/scratch/save_chats_to_markdown.py:39-42 | a chat whose owner is ignored leaves the text unchanged wherever it stands |
| ChatMarkdown.IgnoredChatDropped | jonbot/backend/data_layer/analysis/scratch/save_chats_to_markdown.py:39-42 | a chat whose owner is ignored is dropped from the exported chats wherever it stands |
| ChatMarkdown.IncludedChatContributesSection | jonbot/backend/data_layer/analysis/scratch/save_chats_to_markdown.py:43-53 | a chat whose owner is not ignored contributes exactly its section, between those of the chats before and after it |
| ChatMarkdown.MessagesTextAppend | jonbot/backend/data_layer/analysis/scratch/save_chats_to_markdown.py:49-51 | message entries are rendered in stored order |
| ChatMarkdown.SectionsEmptyIff | jonbot/backend/data_layer/analysis/scratch/save_chats_to_markdown.py:44-53 | the sections are empty exactly when there is no chat |
| ChatMarkdown.OutputBareIff | jonbot/backend/data_layer/analysis/scratch/save_chats_to_markdown.py:36-54 | the text always ends with `"\n\n"`, and is exactly `"\n\n"` if and only if every chat's owner is ignored (or there is no chat) |
| ChatMarkdown.NothingIgnored | jonbot/backend/data_layer/analysis/scratch/save_chats_to_markdown.py:38-39 | with an empty ignore list every chat is exported |
| ChatMarkdown.SectionUnderscores | jonbot/backend/data_layer/analysis/scratch/save_chats_to_markdown.py:44-53 | a section holds seven underscores, all in its separator, when the stored text holds none |
| ChatMarkdown.OneSeparatorPerChat | jonbot/backend/data_layer/analysis/scratch/save_chats_to_markdown.py:53 | the text holds one separator's worth of underscores per chat not ignored, when the stored text holds none |
| ChatMarkdown.BotNickNameOfDatabase | jonbot/backend/data_layer/analysis/scratch/save_chats_to_markdown.py:17 | for a name in which "_database" does not occur, appending "_database" and taking the nick name gives back the name |
| ChatMarkdown.BotNickNameUnchangedIff | jonbot/backend/data_layer/analysis/scratch/save_chats_to_markdown.py:17 | the nick name equals the database name exactly when "_database" does not occur in it |
| ChatMarkdown.ClassbotNickName | jonbot/backend/data_layer/analysis/scratch/save_chats_to_markdown.py:66 | "classbot_database" gives the nick name "classbot" |
| ChatMarkdown.FileNamePerChannel | jonbot/backend/data_layer/analysis/scratch/save_chats_to_markdown.py:34 | two channels of one database never share a file name |

## Left out

- Embed titles, the text of the error embed's title, and logging are not modelled. They do not affect counts, upserts or the status description.
- The network is not modelled. The status post, the edits, the error notice and the history reads are an event log and given histories. A failure of `ctx.send` or `reply_message.edit` is not modelled.
- Concurrency is not modelled. An upsert task is one `UpsertDispatched` event, and `asyncio.gather` is one `UpsertsAwaited` event listing every task.
- A persistence failure raised while awaiting the upserts is not modelled. The database layer (`_send_messages_to_database`, `_send_chats_to_database`, `upsert_messages`, `upsert_chats`) is not part of this model.
- `DiscordChatDocument.build` is not part of this model. A chat document is its three arguments (thread id, parent message, thread messages), and failures inside `build` are not modelled.
- A channel is shown by its name (`str(channel)`).
- The final status edit writes "Done!" even after the channel loop raised; the model follows the code.
- The Mongo query, the save folder and the file write of `save_chats_to_markdown` are not modelled, and neither is its log-and-re-raise `except` block. The chats come in as a sequence in query order, and the method returns the file name and the text.
- Stored documents are typed records, so a missing key (`KeyError`) cannot arise. Ids are integers rendered with `str`.
- ChatMarkdown.OneSeparatorPerChat: counts separators through their underscores, so it assumes no stored name or text contains `_`. A separator inside message content would otherwise be indistinguishable from a real one.
- ServerScrape.StatusKeepsEverySummary: assumes no channel name contains `=`. A name containing the total marker makes the next update cut the text at that point; `Progress.UpdateKeepsHistory` states exactly when text is lost.
- ServerScrape.ChannelEffects: the status clause assumes neither the channel name nor the status text so far contains `=`. This is stronger than what the code needs, which is only that no block holds the total marker; `Progress.UpdateKeepsHistory` states that exact condition.
- ServerScrape.StatusStep: assumes the channel name does not contain `=`, which is stronger than the code's real condition that no block holds the total marker; `Progress.UpdateKeepsHistory` states that exact condition.
- ServerScrape.FinalStatus: covers both the finished and the raised scrape, but assumes no channel name contains `=`, which is stronger than the code's real condition that no block holds the total marker; `Progress.UpdateKeepsHistory` states that exact condition.
- ServerScrape.Scrape: models the count check on the success path only; the code as written is modelled by `ScrapeResultAsWritten` (see Findings).

## Findings

| source | as written | input that shows it | evidently intended | confidence | as-written member | corrected member |
|---|---|---|---|---|---|---|
| jonbot/frontends/discord_bot/cogs/server_scraper_cog.py:77-137 | The count check sits in `finally`. A thread fetch that raises a non-permission error after the channel's top-level messages were added to `all_messages`, but before `total_server_messages` was increased, leaves the two counts apart. The check then raises `ValueError`, which replaces the fetch error that the `except` block re-raised. | one text channel whose only message has a thread whose history raises a server error at once | the caller sees the fetch error; the count check applies to a scrape that ran to the end | not executed | ServerScrape.AsWrittenMasksThreadError | ServerScrape.ScrapeOutcome |
