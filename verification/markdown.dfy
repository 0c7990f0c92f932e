/**
 * The Markdown export of `save_chats_to_markdown`: the chat documents stored for
 * one channel become one Markdown text, chat by chat, skipping the chats whose
 * owner is on the ignore list, and the file it is written to is named after the
 * bot (the database name without "_database") and the channel.
 *
 * The database query and the file write are not modelled: the stored chats come
 * in as a sequence, in the order the query returned them, and the method returns
 * the file name and the text.
 */
module ChatMarkdown {
  import opened Text

  /** One stored message of a chat document. */
  datatype StoredMessage = StoredMessage(author: string, authorId: int, content: string)

  /** One stored chat document: a thread, its owner and its messages. */
  datatype StoredChat = StoredChat(
    threadName: string,
    threadId: int,
    ownerName: string,
    ownerId: int,
    messages: seq<StoredMessage>)

  const Separator := "_______\n\n"
  const Terminator := "\n\n"
  const DatabaseSuffix := "_database"

  // ---------------------------------------------------------------------------
  // Specification
  // ---------------------------------------------------------------------------

  /** The pieces of `items`, rendered one by one, in order. */
  function Join<T>(items: seq<T>, render: T -> string): (r: string)
    decreases |items|
  {
    if |items| == 0 then ""
    else Join(items[..|items| - 1], render) + render(items[|items| - 1])
  }

  function TitleLine(chat: StoredChat): (r: string) {
    "## Chat Title: " + chat.threadName + " (id: " + IntToString(chat.threadId) + ")\n"
  }

  function OwnerLine(chat: StoredChat): (r: string) {
    "Chat Owner: " + chat.ownerName + " (id: " + IntToString(chat.ownerId) + ")\n\n"
  }

  const MessagesHeading := "### Messages:\n"

  /** The title, owner and "### Messages:" lines that open a chat's section. */
  function ChatHeader(chat: StoredChat): (r: string) {
    TitleLine(chat) + OwnerLine(chat) + MessagesHeading
  }

  /** The bold author bullet of a message. */
  function AuthorLine(message: StoredMessage): (r: string) {
    "- **" + message.author + " (id: " + IntToString(message.authorId) + ")**:"
  }

  /** The content of a message between blank lines. */
  function ContentBlock(message: StoredMessage): (r: string) {
    "\n\n" + message.content + "\n\n"
  }

  function MessageEntry(message: StoredMessage): (r: string) {
    AuthorLine(message) + ContentBlock(message)
  }

  /** The entries of the messages, in stored order. */
  function MessagesText(messages: seq<StoredMessage>): (r: string) {
    Join(messages, MessageEntry)
  }

  function ChatSection(chat: StoredChat): (r: string) {
    ChatHeader(chat) + MessagesText(chat.messages) + Separator
  }

  /** The chats whose owner is not ignored, in query order. */
  function Included(chats: seq<StoredChat>, ignoredUsers: seq<int>): (r: seq<StoredChat>)
    ensures |r| <= |chats|
    ensures forall i :: 0 <= i < |r| ==> r[i].ownerId !in ignoredUsers
    decreases |chats|
  {
    if |chats| == 0 then []
    else
      var last := chats[|chats| - 1];
      Included(chats[..|chats| - 1], ignoredUsers) + (if last.ownerId in ignoredUsers then [] else [last])
  }

  /** The sections of the chats, one after the other. */
  function Sections(chats: seq<StoredChat>): (r: string) {
    Join(chats, ChatSection)
  }

  /** The text `save_chats_to_markdown` writes. */
  function MarkdownOutput(chats: seq<StoredChat>, ignoredUsers: seq<int>): (r: string) {
    Sections(Included(chats, ignoredUsers)) + Terminator
  }

  /** `database_name.replace("_database", "")`. */
  function BotNickName(databaseName: string): (r: string)
    ensures |r| <= |databaseName|
  {
    RemoveAll(databaseName, DatabaseSuffix)
  }

  function MarkdownFileName(databaseName: string, channelId: int): (r: string) {
    "chat_summary_" + BotNickName(databaseName) + "_channel-" + IntToString(channelId) + ".md"
  }

  // ---------------------------------------------------------------------------
  // The imperative export
  // ---------------------------------------------------------------------------

  /**
   * `save_chats_to_markdown` without the query and the file write: the name of
   * the file and the text written to it.
   */
  method SaveChatsToMarkdown(databaseName: string, channelId: int, chatDocuments: seq<StoredChat>, ignoredUsers: seq<int>)
    returns (markdownFileName: string, markdownOutput: string)
    ensures markdownFileName == MarkdownFileName(databaseName, channelId)
    ensures markdownOutput == MarkdownOutput(chatDocuments, ignoredUsers)
  {
    var botNickName := RemoveAll(databaseName, DatabaseSuffix);
    markdownFileName := "chat_summary_" + botNickName + "_channel-" + IntToString(channelId) + ".md";
    markdownOutput := "";
    for i := 0 to |chatDocuments|
      invariant markdownOutput == Sections(Included(chatDocuments[..i], ignoredUsers))
    {
      assert chatDocuments[..i + 1][..i] == chatDocuments[..i];
      var chatDocument := chatDocuments[i];
      ghost var included := Included(chatDocuments[..i], ignoredUsers);
      if chatDocument.ownerId in ignoredUsers {
        assert Included(chatDocuments[..i + 1], ignoredUsers) == included;
        continue;
      }
      assert Included(chatDocuments[..i + 1], ignoredUsers) == included + [chatDocument];
      SectionsAppend(included, [chatDocument]);
      markdownOutput := AppendChatSection(markdownOutput, chatDocument);
      assert markdownOutput == Sections(Included(chatDocuments[..i + 1], ignoredUsers));
    }
    assert chatDocuments[..|chatDocuments|] == chatDocuments;
    markdownOutput := markdownOutput + Terminator;
  }

  /** The body of the chat loop of `save_chats_to_markdown` for a chat that is not ignored. */
  method AppendChatSection(markdownOutput: string, chatDocument: StoredChat) returns (markdownOutput': string)
    ensures markdownOutput' == markdownOutput + ChatSection(chatDocument)
  {
    var chatTitleString := TitleLine(chatDocument);
    chatTitleString := chatTitleString + OwnerLine(chatDocument);
    chatTitleString := chatTitleString + MessagesHeading;
    markdownOutput' := markdownOutput + chatTitleString;
    var messagesString := RenderMessages(chatDocument.messages);
    markdownOutput' := markdownOutput' + messagesString;
    markdownOutput' := markdownOutput' + Separator;
  }

  /** The inner loop of `save_chats_to_markdown`: one entry per message, in stored order. */
  method RenderMessages(messages: seq<StoredMessage>) returns (messagesString: string)
    ensures messagesString == MessagesText(messages)
  {
    messagesString := "";
    for j := 0 to |messages|
      invariant messagesString == MessagesText(messages[..j])
    {
      assert messages[..j + 1][..j] == messages[..j];
      var message := messages[j];
      messagesString := messagesString + AuthorLine(message);
      messagesString := messagesString + ContentBlock(message);
    }
    assert messages[..|messages|] == messages;
  }

  // ---------------------------------------------------------------------------
  // Lemmas
  // ---------------------------------------------------------------------------

  /** The exported chats are exactly the stored chats whose owner is not ignored. */
  lemma {:induction false} IncludedMembers(chats: seq<StoredChat>, ignoredUsers: seq<int>)
    ensures forall c :: c in Included(chats, ignoredUsers) <==> c in chats && c.ownerId !in ignoredUsers
    decreases |chats|
  {
    if |chats| > 0 {
      var prefix := chats[..|chats| - 1];
      IncludedMembers(prefix, ignoredUsers);
      assert chats == prefix + [chats[|chats| - 1]];
    }
  }

  lemma {:induction false} IncludedAppend(a: seq<StoredChat>, b: seq<StoredChat>, ignoredUsers: seq<int>)
    ensures Included(a + b, ignoredUsers) == Included(a, ignoredUsers) + Included(b, ignoredUsers)
    decreases |b|
  {
    if |b| == 0 {
      assert a + b == a;
    } else {
      assert (a + b)[..|a + b| - 1] == a + b[..|b| - 1];
      IncludedAppend(a, b[..|b| - 1], ignoredUsers);
    }
  }

  lemma {:induction false} JoinAppend<T>(a: seq<T>, b: seq<T>, render: T -> string)
    ensures Join(a + b, render) == Join(a, render) + Join(b, render)
    decreases |b|
  {
    if |b| == 0 {
      assert a + b == a;
    } else {
      assert (a + b)[..|a + b| - 1] == a + b[..|b| - 1];
      JoinAppend(a, b[..|b| - 1], render);
    }
  }

  lemma SectionsAppend(a: seq<StoredChat>, b: seq<StoredChat>)
    ensures Sections(a + b) == Sections(a) + Sections(b)
  {
    JoinAppend(a, b, ChatSection);
  }

  /**
   * The export is chat by chat: the text for two runs of chats is the text for the
   * first run's sections followed by the second's, so included chats keep the
   * order the query returned them in.
   */
  lemma ExportInOrder(a: seq<StoredChat>, b: seq<StoredChat>, ignoredUsers: seq<int>)
    ensures MarkdownOutput(a + b, ignoredUsers)
            == Sections(Included(a, ignoredUsers)) + Sections(Included(b, ignoredUsers)) + Terminator
  {
    IncludedAppend(a, b, ignoredUsers);
    SectionsAppend(Included(a, ignoredUsers), Included(b, ignoredUsers));
  }

  /** A chat whose owner is ignored contributes nothing, wherever it stands among the others. */
  lemma IgnoredChatContributesNothing(a: seq<StoredChat>, chat: StoredChat, b: seq<StoredChat>, ignoredUsers: seq<int>)
    requires chat.ownerId in ignoredUsers
    ensures MarkdownOutput(a + [chat] + b, ignoredUsers) == MarkdownOutput(a + b, ignoredUsers)
  {
    IgnoredChatDropped(a, chat, b, ignoredUsers);
  }

  lemma IgnoredChatDropped(a: seq<StoredChat>, chat: StoredChat, b: seq<StoredChat>, ignoredUsers: seq<int>)
    requires chat.ownerId in ignoredUsers
    ensures Included(a + [chat] + b, ignoredUsers) == Included(a + b, ignoredUsers)
  {
    IncludedAppend(a + [chat], b, ignoredUsers);
    IncludedAppend(a, [chat], ignoredUsers);
    IncludedAppend(a, b, ignoredUsers);
    assert [chat][..0] == [];
    assert Included([chat], ignoredUsers) == [];
    assert Included(a + [chat], ignoredUsers) == Included(a, ignoredUsers);
  }

  /** A chat whose owner is not ignored contributes exactly its section. */
  lemma IncludedChatContributesSection(a: seq<StoredChat>, chat: StoredChat, b: seq<StoredChat>, ignoredUsers: seq<int>)
    requires chat.ownerId !in ignoredUsers
    ensures MarkdownOutput(a + [chat] + b, ignoredUsers)
            == Sections(Included(a, ignoredUsers)) + ChatSection(chat) + Sections(Included(b, ignoredUsers)) + Terminator
  {
    ExportInOrder(a + [chat], b, ignoredUsers);
    IncludedAppend(a, [chat], ignoredUsers);
    assert [chat][..0] == [];
    assert Included([chat], ignoredUsers) == [chat];
    SectionsAppend(Included(a, ignoredUsers), [chat]);
    assert Sections([chat]) == ChatSection(chat);
  }

  /** Messages are rendered one entry each, in stored order. */
  lemma MessagesTextAppend(a: seq<StoredMessage>, b: seq<StoredMessage>)
    ensures MessagesText(a + b) == MessagesText(a) + MessagesText(b)
  {
    JoinAppend(a, b, MessageEntry);
  }

  lemma {:induction false} SectionsEmptyIff(chats: seq<StoredChat>)
    ensures Sections(chats) == "" <==> chats == []
    decreases |chats|
  {
    if |chats| > 0 {
      SectionsEmptyIff(chats[..|chats| - 1]);
      assert |ChatSection(chats[|chats| - 1])| > 0;
    }
  }

  /**
   * The text always ends with a blank line, and it is nothing but that blank line
   * exactly when every chat's owner is ignored (in particular when there are no chats).
   */
  lemma OutputBareIff(chats: seq<StoredChat>, ignoredUsers: seq<int>)
    ensures |MarkdownOutput(chats, ignoredUsers)| >= 2
    ensures MarkdownOutput(chats, ignoredUsers)[|MarkdownOutput(chats, ignoredUsers)| - 2..] == Terminator
    ensures MarkdownOutput(chats, ignoredUsers) == Terminator <==> forall c :: c in chats ==> c.ownerId in ignoredUsers
  {
    var included := Included(chats, ignoredUsers);
    IncludedMembers(chats, ignoredUsers);
    SectionsEmptyIff(included);
    if included != [] {
      assert included[0] in included;
    }
  }

  /** With no ignored users, every chat is exported. */
  lemma {:induction false} NothingIgnored(chats: seq<StoredChat>)
    ensures Included(chats, []) == chats
    decreases |chats|
  {
    if |chats| > 0 {
      NothingIgnored(chats[..|chats| - 1]);
    }
  }

  // The separator count: `_` appears in a section only through its separator,
  // unless the stored text itself holds underscores.

  predicate NoUnderscore(s: string) {
    '_' !in s
  }

  predicate PlainChat(chat: StoredChat) {
    && NoUnderscore(chat.threadName) && NoUnderscore(chat.ownerName)
    && forall m :: m in chat.messages ==> NoUnderscore(m.author) && NoUnderscore(m.content)
  }

  lemma IntToStringNoUnderscore(n: int)
    ensures NoUnderscore(IntToString(n))
  {
    var s := IntToString(n);
    if n < 0 {
      assert s[1..] == NatToString(-n);
      assert s == [s[0]] + s[1..];
    }
  }

  lemma HeaderNoUnderscore(chat: StoredChat)
    requires NoUnderscore(chat.threadName) && NoUnderscore(chat.ownerName)
    ensures NoUnderscore(ChatHeader(chat))
  {
    IntToStringNoUnderscore(chat.threadId);
    IntToStringNoUnderscore(chat.ownerId);
    assert NoUnderscore(TitleLine(chat));
    assert NoUnderscore(OwnerLine(chat));
  }

  lemma EntryNoUnderscore(message: StoredMessage)
    requires NoUnderscore(message.author) && NoUnderscore(message.content)
    ensures NoUnderscore(MessageEntry(message))
  {
    IntToStringNoUnderscore(message.authorId);
    assert NoUnderscore(AuthorLine(message));
    assert NoUnderscore(ContentBlock(message));
  }

  lemma {:induction false} MessagesTextNoUnderscore(messages: seq<StoredMessage>)
    requires forall m :: m in messages ==> NoUnderscore(m.author) && NoUnderscore(m.content)
    ensures NoUnderscore(MessagesText(messages))
    decreases |messages|
  {
    if |messages| > 0 {
      var m := messages[|messages| - 1];
      var prefix := messages[..|messages| - 1];
      MessagesTextNoUnderscore(prefix);
      EntryNoUnderscore(m);
      assert MessagesText(messages) == MessagesText(prefix) + MessageEntry(m);
    }
  }

  lemma SeparatorUnderscores()
    ensures multiset(Separator)['_'] == 7
  {
    assert Separator == "_______" + "\n\n";
    assert multiset("\n\n")['_'] == 0;
  }

  lemma SectionUnderscores(chat: StoredChat)
    requires PlainChat(chat)
    ensures multiset(ChatSection(chat))['_'] == 7
  {
    HeaderNoUnderscore(chat);
    MessagesTextNoUnderscore(chat.messages);
    SeparatorUnderscores();
    var text := ChatHeader(chat) + MessagesText(chat.messages);
    assert NoUnderscore(text);
    assert multiset(text)['_'] == 0;
    assert multiset(ChatSection(chat)) == multiset(text) + multiset(Separator);
  }

  /**
   * Every exported chat ends with the separator line, one per section: when no
   * stored name or text holds an underscore, the text holds exactly seven
   * underscores per chat not ignored.
   */
  lemma {:induction false} OneSeparatorPerChat(chats: seq<StoredChat>, ignoredUsers: seq<int>)
    requires forall c :: c in chats ==> PlainChat(c)
    ensures multiset(MarkdownOutput(chats, ignoredUsers))['_'] == |Included(chats, ignoredUsers)| * 7
  {
    var included := Included(chats, ignoredUsers);
    IncludedMembers(chats, ignoredUsers);
    SectionsUnderscores(included);
    assert multiset(Terminator)['_'] == 0;
    assert multiset(Sections(included) + Terminator) == multiset(Sections(included)) + multiset(Terminator);
  }

  lemma SectionsUnderscores(chats: seq<StoredChat>)
    requires forall c :: c in chats ==> PlainChat(c)
    ensures multiset(Sections(chats))['_'] == |chats| * 7
  {
    forall i | 0 <= i < |chats| ensures multiset(ChatSection(chats[i]))['_'] == 7 {
      SectionUnderscores(chats[i]);
    }
    JoinCount(chats, ChatSection, '_', 7);
  }

  /** A character that each rendered piece holds `k` times is held `k` times per piece by the whole. */
  lemma {:induction false} JoinCount<T>(items: seq<T>, render: T -> string, ch: char, k: nat)
    requires forall i :: 0 <= i < |items| ==> multiset(render(items[i]))[ch] == k
    ensures multiset(Join(items, render))[ch] == |items| * k
    decreases |items|
  {
    if |items| > 0 {
      var n := |items| - 1;
      JoinCount(items[..n], render, ch, k);
      var a, b := Join(items[..n], render), render(items[n]);
      assert multiset(a + b) == multiset(a) + multiset(b);
      assert (n + 1) * k == n * k + k;
    }
  }

  /** A trailing "_database" is what the nick name drops; the rest is kept as it is. */
  lemma BotNickNameOfDatabase(nick: string)
    requires Free(nick, DatabaseSuffix)
    ensures BotNickName(nick + DatabaseSuffix) == nick
  {
    RemoveAllOfAppended(nick, DatabaseSuffix);
    RemoveAllOfFree(nick, DatabaseSuffix);
  }

  /** The nick name is the database name itself exactly when "_database" does not occur in it. */
  lemma BotNickNameUnchangedIff(databaseName: string)
    ensures BotNickName(databaseName) == databaseName <==> Free(databaseName, DatabaseSuffix)
  {
    RemoveAllUnchangedIff(databaseName, DatabaseSuffix);
  }

  /** The bot's own database: "classbot_database" exports under the nick name "classbot". */
  lemma ClassbotNickName()
    ensures BotNickName("classbot_database") == "classbot"
  {
    assert "classbot" + DatabaseSuffix == "classbot_database";
    BotNickNameOfDatabase("classbot");
  }

  /** Two channels of one database never share a file name. */
  lemma FileNamePerChannel(databaseName: string, a: int, b: int)
    requires a != b
    ensures MarkdownFileName(databaseName, a) != MarkdownFileName(databaseName, b)
  {
    var head := "chat_summary_" + BotNickName(databaseName) + "_channel-";
    var x, y := IntToString(a), IntToString(b);
    IntToStringInjective(a, b);
    var nameA, nameB := MarkdownFileName(databaseName, a), MarkdownFileName(databaseName, b);
    assert nameA == head + x + ".md";
    assert nameB == head + y + ".md";
    if |x| == |y| {
      assert nameA[|head|..|head| + |x|] == x;
      assert nameB[|head|..|head| + |x|] == y;
    } else {
      assert |nameA| != |nameB|;
    }
  }
}
