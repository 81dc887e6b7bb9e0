/**
 * The client-side chat logic of components/chat.tsx: the title the client
 * proposes, the shape of the user and assistant messages it saves, the submit
 * guard, the temporary-id re-sync condition and the local edit. The React
 * state the handlers update is the class `ChatView`; the `fetch` round trips
 * are inputs (the messages the server returned, whether a request succeeded)
 * and outputs (the request bodies), and the streaming `sendMessage` is not
 * modelled.
 */
module ChatComponent {
  import opened Wrappers
  import opened Strings
  import opened ChatModels
  import ChatStore
  import ChatRoute

  /** An uploaded file held in `attachedFiles` (`FileData`). */
  datatype AttachedFile = AttachedFile(name: string, mimeType: string, cdnUrl: string)

  /** One entry of `files` in the data `onSubmit` hands to `saveUserMessage`. */
  datatype OutgoingFile = OutgoingFile(mediaType: string, filename: string, url: Option<string>, cdnUrl: Option<string>)

  /** The argument of `saveUserMessage`: every field may be absent. */
  datatype UserMessageData = UserMessageData(
    id: Option<string>,
    text: Option<string>,
    content: Option<string>,
    parts: Option<seq<Part>>,
    files: Option<seq<OutgoingFile>>)

  /** The body of the `PATCH /api/chats/:id` request `saveUserMessage` sends. */
  datatype PatchBody = PatchBody(messages: seq<Message>, title: Option<string>)

  /** The message object the chat hook hands to `onFinish` (after `message.message || message`). */
  datatype AssistantObject = AssistantObject(id: string, role: Role, content: Option<string>, parts: Option<seq<Part>>)

  // ---------------------------------------------------------------------------
  // Titles

  /** `generateTitleFromMessage(message)` */
  function GenerateTitleFromMessage(m: Message): (t: string)
    ensures t != "" && |t| <= 53
    ensures var c := OrElse(m.content, "");
      && (|c| > 50 ==> t == c[..50] + "...")
      && (c == "" ==> t == ChatStore.DefaultTitle)
      && (0 < |c| <= 50 ==> t == c)
  {
    var content := OrElse(m.content, "");
    if |content| > 50 then content[..50] + "..." else OrElse(Some(content), ChatStore.DefaultTitle)
  }

  /**
   * For a first user message with content, the title the client proposes is
   * the title the service would generate for that conversation.
   */
  lemma ClientTitleMatchesService(ms: seq<Message>, i: nat)
    requires i < |ms| && ms[i].role == User && Truthy(ms[i].content)
    requires forall j :: 0 <= j < i ==> ms[j].role != User
    ensures GenerateTitleFromMessage(ms[i]) == ChatStore.GenerateChatTitle(ms)
  {
    ChatStore.GenerateChatTitleFromContent(ms, i);
  }

  // ---------------------------------------------------------------------------
  // The saved user message (`saveUserMessage`)

  /** The stored attachment part: `{ type: 'file', file: { mediaType, name, url: url || cdnUrl } }`. */
  function StoredFilePart(f: OutgoingFile): (p: Part)
    ensures p.kind == "file" && p.mediaType.None? && p.file.Some?
    ensures p.file.value.name == f.filename && p.file.value.mediaType == f.mediaType
    ensures p.file.value.url == if Truthy(f.url) then f.url else f.cdnUrl
  {
    FilePart(FileInfo(f.filename, if Truthy(f.url) then f.url else f.cdnUrl, f.mediaType, None))
  }

  function StoredFileParts(files: seq<OutgoingFile>): (ps: seq<Part>)
    ensures |ps| == |files|
    ensures forall i :: 0 <= i < |files| ==> ps[i] == StoredFilePart(files[i])
  {
    if files == [] then [] else StoredFileParts(files[..|files| - 1]) + [StoredFilePart(files[|files| - 1])]
  }

  /** `formattedUserMessage`, with the file parts appended when `files` is non-empty. */
  function FormatUserMessage(u: UserMessageData, now: nat): (m: Message)
    ensures m.role == User && m.timestamp == Some(now) && m.parts.Some?
    ensures m.id == if Truthy(u.id) then u.id.value else "user-" + NatToString(now)
    ensures m.content == Some(OrElse(u.text, OrElse(u.content, "")))
    ensures m.parts.value == (if u.parts.Some? then u.parts.value else [TextPart(m.content.value)])
                             + (if u.files.Some? && |u.files.value| > 0 then StoredFileParts(u.files.value) else [])
  {
    var content := OrElse(u.text, OrElse(u.content, ""));
    var parts := if u.parts.Some? then u.parts.value else [TextPart(content)];
    var withFiles := if u.files.Some? && |u.files.value| > 0 then parts + StoredFileParts(u.files.value) else parts;
    Message(if Truthy(u.id) then u.id.value else "user-" + NatToString(now), User, Some(content), Some(withFiles), Some(now))
  }

  /** The `files` entries `onSubmit` builds from the attachments. */
  function Outgoing(files: seq<AttachedFile>): (r: seq<OutgoingFile>)
    ensures |r| == |files|
    ensures forall i :: 0 <= i < |files| ==>
      r[i] == OutgoingFile(files[i].mimeType, files[i].name, Some(files[i].cdnUrl), None)
  {
    if files == [] then []
    else Outgoing(files[..|files| - 1])
         + [OutgoingFile(files[|files| - 1].mimeType, files[|files| - 1].name, Some(files[|files| - 1].cdnUrl), None)]
  }

  /** `userMessageData` in `onSubmit`: the trimmed text, and `files` only when something is attached. */
  function SubmitData(text: string, files: seq<AttachedFile>): UserMessageData {
    UserMessageData(None, Some(text), None, None, if |files| > 0 then Some(Outgoing(files)) else None)
  }

  /**
   * The user message `onSubmit` saves: a temporary id from the clock, the
   * trimmed text as content and as the first part, then the stored form of
   * each attachment in attachment order (see `StoredFileParts` and `Outgoing`
   * for what each carries).
   */
  lemma SubmittedMessageShape(text: string, files: seq<AttachedFile>, now: nat)
    ensures var m := FormatUserMessage(SubmitData(text, files), now);
      && m.id == "user-" + NatToString(now)
      && m.content == Some(text)
      && m.parts.value == [TextPart(text)] + StoredFileParts(Outgoing(files))
  {
    assert OrElse(Some(text), OrElse(None, "")) == text;
    if |files| == 0 {
      assert Outgoing(files) == [];
    }
  }

  /**
   * The request body `saveUserMessage` sends: the messages it fetched plus the
   * new one, and a title only while the chat is still called "New Chat".
   */
  function SaveUserMessageBody(existing: seq<Message>, u: UserMessageData, chatTitle: string, now: nat): (b: PatchBody)
    ensures b.messages == existing + [FormatUserMessage(u, now)]
    ensures b.title.Some? <==> chatTitle == ChatStore.DefaultTitle
    ensures b.title.Some? ==> b.title.value == GenerateTitleFromMessage(FormatUserMessage(u, now))
  {
    var formatted := FormatUserMessage(u, now);
    PatchBody(existing + [formatted],
              if chatTitle == ChatStore.DefaultTitle then Some(GenerateTitleFromMessage(formatted)) else None)
  }

  /**
   * A saved attachment part has no top-level `mediaType`, so if a user message
   * with an attachment comes back to the chat endpoint in its stored shape, the
   * endpoint's conversion throws and it answers 500.
   */
  lemma StoredAttachmentFailsConversion(text: string, files: seq<AttachedFile>, now: nat)
    requires |files| > 0
    ensures ChatRoute.ModelMessageOf(FormatUserMessage(SubmitData(text, files), now)).Err?
  {
    var m := FormatUserMessage(SubmitData(text, files), now);
    SubmittedMessageShape(text, files, now);
    ChatRoute.PartsContentSpec(m.parts.value);
    assert m.parts.value[1].kind == "file" && m.parts.value[1].mediaType.None?;
  }

  // ---------------------------------------------------------------------------
  // The saved assistant message (`saveAssistantMessage`)

  /** `parts.filter(p => p.type === 'text' && p.text).map(p => p.text)` */
  function NonEmptyTextParts(ps: seq<Part>): (ts: seq<string>)
    ensures forall t :: t in ts ==> t != ""
  {
    if ps == [] then []
    else NonEmptyTextParts(ps[..|ps| - 1])
         + (if ps[|ps| - 1].kind == "text" && Truthy(ps[|ps| - 1].text) then [ps[|ps| - 1].text.value] else [])
  }

  /** `formattedAssistantMessage` */
  function FormatAssistantMessage(obj: AssistantObject, now: int): (m: Message)
    ensures m.id == obj.id && m.role == obj.role && m.timestamp == Some(now) && m.content.Some?
    ensures obj.parts.Some? ==> m.parts == obj.parts && m.content == Some(Join(NonEmptyTextParts(obj.parts.value), ""))
    ensures obj.parts.None? ==> m.parts == Some([Part("text", obj.content, None, None, None, None)])
                                && m.content == Some(if obj.content.Some? then obj.content.value else "")
  {
    var content :=
      if obj.parts.Some? then Join(NonEmptyTextParts(obj.parts.value), "")
      else if obj.content.Some? then obj.content.value
      else "";
    var parts := if obj.parts.Some? then obj.parts.value else [Part("text", obj.content, None, None, None, None)];
    Message(obj.id, obj.role, Some(content), Some(parts), Some(now))
  }

  /** The texts of the text elements of a model content list. */
  function ContentTexts(cs: seq<ChatRoute.ModelPart>): seq<string> {
    if cs == [] then []
    else ContentTexts(cs[..|cs| - 1]) + (if cs[|cs| - 1].TextContent? then [cs[|cs| - 1].text] else [])
  }

  /**
   * The content saved for an assistant message with parts is the concatenation
   * of exactly the texts the chat endpoint would pass to the model for those parts.
   */
  lemma {:induction false} AssistantContentMatchesRoute(ps: seq<Part>)
    requires ChatRoute.PartsContent(ps).Ok?
    ensures ContentTexts(ChatRoute.PartsContent(ps).value) == NonEmptyTextParts(ps)
  {
    if ps != [] {
      var init := ps[..|ps| - 1];
      assert ChatRoute.PartsContent(init).Ok?;
      AssistantContentMatchesRoute(init);
      var cs := ChatRoute.PartsContent(init).value;
      var last := ps[|ps| - 1];
      match ChatRoute.PartContent(last)
      case Ok(None) =>
      case Ok(Some(c)) =>
        assert (cs + [c])[..|cs|] == cs;
    }
  }

  /** Joining with the empty separator is plain concatenation, so each text adds its length. */
  lemma {:induction false} AssistantContentLength(ps: seq<Part>)
    ensures |Join(NonEmptyTextParts(ps), "")| == TotalLength(NonEmptyTextParts(ps))
  {
    if ps != [] {
      AssistantContentLength(ps[..|ps| - 1]);
      var ts := NonEmptyTextParts(ps[..|ps| - 1]);
      var last := ps[|ps| - 1];
      if last.kind == "text" && Truthy(last.text) {
        TotalLengthSnoc(ts, last.text.value);
        assert NonEmptyTextParts(ps) == ts + [last.text.value];
        if ts != [] {
          JoinSnoc(ts, last.text.value, "");
        } else {
          assert ts + [last.text.value] == [last.text.value];
        }
      } else {
        assert NonEmptyTextParts(ps) == ts;
      }
    }
  }

  function TotalLength(ts: seq<string>): nat {
    if ts == [] then 0 else TotalLength(ts[..|ts| - 1]) + |ts[|ts| - 1]|
  }

  lemma TotalLengthSnoc(ts: seq<string>, t: string)
    ensures TotalLength(ts + [t]) == TotalLength(ts) + |t|
  {
    assert (ts + [t])[..|ts|] == ts;
  }

  // ---------------------------------------------------------------------------
  // Guards and list operations

  /** The `onSubmit` guard: something to send (trimmed text or a file), and not while streaming. */
  predicate SubmitAllowed(input: string, files: seq<AttachedFile>, streaming: bool) {
    !((Trim(input) == "" && |files| == 0) || streaming)
  }

  /** Whitespace-only input with no file is never submitted. */
  lemma BlankInputRejected(input: string, streaming: bool)
    requires forall i :: 0 <= i < |input| ==> IsJsSpace(input[i])
    ensures !SubmitAllowed(input, [], streaming)
  {
    TrimEmptyIff(input);
  }

  /** The id re-sync fires when the last message is a user message with a temporary `user-` id. */
  predicate NeedsIdSync(ms: seq<Message>) {
    |ms| > 0 && ms[|ms| - 1].role == User && StartsWith(ms[|ms| - 1].id, "user-")
  }

  /**
   * A stored message as `loadChat` and `syncMessageIds` install it: id, role
   * and content copied, `parts || [{ type: 'text', text: content }]`, and no
   * timestamp.
   */
  function LoadedMessage(m: Message): (r: Message)
    ensures r.id == m.id && r.role == m.role && r.content == m.content && r.timestamp.None?
    ensures r.parts.Some? && (m.parts.Some? ==> r.parts == m.parts)
  {
    Message(m.id, m.role, m.content,
            if m.parts.Some? then m.parts else Some([Part("text", m.content, None, None, None, None)]), None)
  }

  /** The `map` over the server's messages: one installed message per stored one, in order. */
  function LoadedMessages(ms: seq<Message>): (r: seq<Message>)
    ensures |r| == |ms|
    ensures forall i :: 0 <= i < |ms| ==> r[i] == LoadedMessage(ms[i])
  {
    if ms == [] then [] else LoadedMessages(ms[..|ms| - 1]) + [LoadedMessage(ms[|ms| - 1])]
  }

  /** Installing the server's list keeps the re-sync condition as the server's list has it. */
  lemma LoadedKeepsSyncCondition(ms: seq<Message>)
    ensures NeedsIdSync(LoadedMessages(ms)) <==> NeedsIdSync(ms)
  {
  }

  /**
   * The server keeps the client's temporary id: after `saveUserMessage` has
   * stored a message that came without an id, the list the re-sync fetches and
   * installs still ends with that same `user-` message, so the re-sync
   * condition still holds and no real id replaces the temporary one.
   */
  lemma SyncKeepsTemporaryId(s: ChatStore.Store, key: ChatStore.ChatKey, u: UserMessageData,
                             chatTitle: string, now: nat, t: int)
    requires !Truthy(u.id)
    requires key in s ==> "user-" + NatToString(now) !in Ids(s[key].messages)
    ensures var existing := if key in s then s[key].messages else [];
      var sent := SaveUserMessageBody(existing, u, chatTitle, now).messages;
      var installed := LoadedMessages(ChatStore.UpdateMessages(s, key, sent, t)[key].messages);
      && |installed| > 0
      && installed[|installed| - 1].id == "user-" + NatToString(now)
      && NeedsIdSync(installed)
  {
    var existing := if key in s then s[key].messages else [];
    var m := FormatUserMessage(u, now);
    var stored := ChatStore.UpdateMessages(s, key, existing + [m], t)[key].messages;
    if key in s {
      AppendFresh(existing, m);
    }
    assert stored == existing + [m];
    TemporaryIdNeedsSync(stored, now);
    LoadedKeepsSyncCondition(stored);
  }

  /** Appending a list extended by a message with a fresh id stores exactly that message. */
  lemma AppendFresh(existing: seq<Message>, m: Message)
    requires m.id !in Ids(existing)
    ensures ChatStore.AppendNew(existing, existing + [m]) == existing + [m]
  {
    ChatStore.WithoutIdsAppend(existing, [m], Ids(existing));
    ChatStore.WithoutIdsDropsAll(existing, Ids(existing));
    assert ChatStore.WithoutIds([m], Ids(existing)) == [m];
  }

  /** A list ending with a user message under the clock's temporary id meets the re-sync condition. */
  lemma TemporaryIdNeedsSync(ms: seq<Message>, now: nat)
    requires |ms| > 0 && ms[|ms| - 1].role == User && ms[|ms| - 1].id == "user-" + NatToString(now)
    ensures NeedsIdSync(ms)
  {
    var id := "user-" + NatToString(now);
    assert id[..5] == "user-";
  }

  /** `[...messages.slice(0, idx), ...messages.slice(idx + 2)]` */
  function EditSlice(ms: seq<Message>, idx: nat): (r: seq<Message>)
    requires idx < |ms|
    ensures |r| == if idx + 2 <= |ms| then |ms| - 2 else idx
    ensures r[..idx] == ms[..idx]
  {
    var rest := if idx + 2 <= |ms| then ms[idx + 2..] else [];
    assert (ms[..idx] + rest)[..idx] == ms[..idx];
    ms[..idx] + rest
  }

  /**
   * The local list after an edit is the server's stored list without the new
   * message exactly when the edited message is one of the last two; otherwise
   * the client keeps the messages after the reply that the server dropped.
   */
  lemma LocalEditVersusServer(s: ChatStore.Store, key: ChatStore.ChatKey, messageId: string, newMessage: Message, now: int)
    requires key in s && messageId in Ids(s[key].messages)
    ensures var ms := s[key].messages;
      var idx := FindIndex(ms, messageId).value;
      var server := ChatStore.ReplaceFrom(s, key, messageId, newMessage, now).result.value;
      && server[..|server| - 1] == ms[..idx]
      && (EditSlice(ms, idx) == server[..|server| - 1] <==> idx + 2 >= |ms|)
      && (idx + 2 < |ms| ==> EditSlice(ms, idx)[idx..] == ms[idx + 2..])
  {
    ServerKeepsPrefix(s, key, messageId, newMessage, now);
    SliceTail(s[key].messages, FindIndex(s[key].messages, messageId).value);
  }

  /** The server keeps the messages before the first occurrence of the edited id. */
  lemma ServerKeepsPrefix(s: ChatStore.Store, key: ChatStore.ChatKey, messageId: string, newMessage: Message, now: int)
    requires key in s && messageId in Ids(s[key].messages)
    ensures var server := ChatStore.ReplaceFrom(s, key, messageId, newMessage, now).result;
      && server.Ok? && server.value[..|server.value| - 1] == s[key].messages[..FindIndex(s[key].messages, messageId).value]
  {
    var ms := s[key].messages;
    var idx := FindIndex(ms, messageId).value;
    var server := ChatStore.ReplaceFrom(s, key, messageId, newMessage, now).result.value;
    ChatStore.FirstOccurrenceUnique(ms, messageId, idx, |server| - 1);
  }

  /** What the local edit keeps beyond the prefix: nothing, or the messages after the reply. */
  lemma SliceTail(ms: seq<Message>, idx: nat)
    requires idx < |ms|
    ensures EditSlice(ms, idx) == ms[..idx] <==> idx + 2 >= |ms|
    ensures idx + 2 < |ms| ==> EditSlice(ms, idx)[idx..] == ms[idx + 2..]
  {
    var local := EditSlice(ms, idx);
    if idx + 2 < |ms| {
      assert |local| > idx;
      assert local == ms[..idx] + ms[idx + 2..];
      assert local[idx..] == ms[idx + 2..];
    }
  }

  // ---------------------------------------------------------------------------
  // The component state

  class ChatView {
    var input: string
    var attachedFiles: seq<AttachedFile>
    var messages: seq<Message>
    var editingMessageId: Option<string>
    var editingText: string
    var chatTitle: string

    constructor ()
      ensures input == "" && attachedFiles == [] && messages == []
      ensures editingMessageId.None? && editingText == "" && chatTitle == ""
    {
      input := "";
      attachedFiles := [];
      messages := [];
      editingMessageId := None;
      editingText := "";
      chatTitle := "";
    }

    /** `handleFileUpload`: the file joins the end of the attachments. */
    method HandleFileUpload(file: AttachedFile)
      modifies this`attachedFiles
      ensures attachedFiles == old(attachedFiles) + [file]
      ensures input == old(input) && messages == old(messages) && chatTitle == old(chatTitle)
      ensures editingMessageId == old(editingMessageId) && editingText == old(editingText)
    {
      attachedFiles := attachedFiles + [file];
    }

    /** `startEditingMessage` */
    method StartEditingMessage(messageId: string, currentText: string)
      modifies this`editingMessageId, this`editingText
      ensures editingMessageId == Some(messageId) && editingText == currentText
      ensures input == old(input) && attachedFiles == old(attachedFiles)
      ensures messages == old(messages) && chatTitle == old(chatTitle)
    {
      editingMessageId := Some(messageId);
      editingText := currentText;
    }

    /** `cancelEditing` */
    method CancelEditing()
      modifies this`editingMessageId, this`editingText
      ensures editingMessageId.None? && editingText == ""
      ensures input == old(input) && attachedFiles == old(attachedFiles)
      ensures messages == old(messages) && chatTitle == old(chatTitle)
    {
      editingMessageId := None;
      editingText := "";
    }

    /**
     * `onSubmit`: refused (nothing changes) without text or files, or while
     * streaming; otherwise the input and attachments are cleared and the
     * user message is saved with the body returned here. `existing` is what
     * the preceding `GET` returned.
     */
    method OnSubmit(streaming: bool, existing: seq<Message>, now: nat) returns (body: Option<PatchBody>)
      modifies this`input, this`attachedFiles
      ensures !SubmitAllowed(old(input), old(attachedFiles), streaming) ==>
        body.None? && input == old(input) && attachedFiles == old(attachedFiles)
      ensures SubmitAllowed(old(input), old(attachedFiles), streaming) ==>
        && input == "" && attachedFiles == []
        && body == Some(SaveUserMessageBody(existing, SubmitData(Trim(old(input)), old(attachedFiles)), chatTitle, now))
      ensures messages == old(messages) && chatTitle == old(chatTitle)
      ensures editingMessageId == old(editingMessageId) && editingText == old(editingText)
    {
      var text, files := input, attachedFiles;
      if !SubmitAllowed(text, files, streaming) {
        return None;
      }
      body := Some(SaveUserMessageBody(existing, SubmitData(Trim(text), files), chatTitle, now));
      input := "";
      attachedFiles := [];
    }

    /**
     * `saveEditedMessage(messageId)`: does nothing for blank text or an unknown
     * id; otherwise sends the trimmed text as the replacement, and only when
     * that request succeeds drops the edited message and the one after it
     * from the local list and leaves edit mode.
     */
    method SaveEditedMessage(messageId: string, editOk: bool) returns (request: Option<string>)
      modifies this`messages, this`editingMessageId, this`editingText
      ensures Trim(old(editingText)) == "" || messageId !in Ids(old(messages)) ==>
        request.None? && messages == old(messages)
        && editingMessageId == old(editingMessageId) && editingText == old(editingText)
      ensures Trim(old(editingText)) != "" && messageId in Ids(old(messages)) ==>
        && request == Some(Trim(old(editingText)))
        && (editOk ==> messages == EditSlice(old(messages), FindIndex(old(messages), messageId).value)
                       && editingMessageId.None? && editingText == "")
        && (!editOk ==> messages == old(messages)
                        && editingMessageId == old(editingMessageId) && editingText == old(editingText))
      ensures input == old(input) && attachedFiles == old(attachedFiles) && chatTitle == old(chatTitle)
    {
      var trimmedText := Trim(editingText);
      if trimmedText == "" {
        return None;
      }
      var messageIndex := FindIndex(messages, messageId);
      if messageIndex.None? {
        return None;
      }
      request := Some(trimmedText);
      if !editOk {
        return;
      }
      messages := EditSlice(messages, messageIndex.value);
      editingMessageId := None;
      editingText := "";
    }
  }
}
