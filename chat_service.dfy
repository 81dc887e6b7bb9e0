/**
 * The conversation store of lib/chatService.ts. The `chats` collection is a
 * map from (chat id, owner id) to the chat document; every mutating query of
 * the source filters on both, so the pair is the key. Each operation is first
 * given as a function on the map (its meaning), then as a method of the
 * `ChatService` class that performs the source's steps on its `chats` field.
 * Clock readings (`now`), generated ids and share tokens are parameters.
 */
module ChatStore {
  import opened Wrappers
  import opened Strings
  import opened ChatModels

  const DefaultTitle: string := "New Chat"
  const ChatNotFound: string := "Chat not found"
  const MessageNotFound: string := "Message not found"

  datatype ChatKey = ChatKey(chatId: string, userId: string)

  type Store = map<ChatKey, Chat>

  function KeyOf(c: Chat): ChatKey {
    ChatKey(c.id, c.userId)
  }

  /** Every document is stored under its own (id, userId). */
  predicate WellKeyed(s: Store) {
    forall k :: k in s ==> KeyOf(s[k]) == k
  }

  /** `s'` differs from `s` at most at `key`: no other chat, of this or any other owner, changes. */
  predicate AgreesOffKey(s: Store, s': Store, key: ChatKey) {
    && s.Keys - {key} == s'.Keys - {key}
    && (forall k :: k != key && k in s ==> k in s' && s'[k] == s[k])
  }

  /** `createChat`'s title: `title || 'New Chat'`. */
  function TitleOrDefault(title: Option<string>): (t: string)
    ensures t != ""
    ensures Truthy(title) ==> t == title.value
    ensures !Truthy(title) ==> t == DefaultTitle
  {
    OrElse(title, DefaultTitle)
  }

  // ---------------------------------------------------------------------------
  // Message-list transformations

  /** `messages.filter(m => !ids.has(m.id))` */
  function WithoutIds(ms: seq<Message>, ids: set<string>): (r: seq<Message>)
    ensures forall m :: m in r <==> m in ms && m.id !in ids
    ensures |r| <= |ms|
  {
    if ms == [] then []
    else (if ms[0].id in ids then [] else [ms[0]]) + WithoutIds(ms[1..], ids)
  }

  /** The filter distributes over concatenation, so it keeps the incoming order. */
  lemma {:induction false} WithoutIdsAppend(a: seq<Message>, b: seq<Message>, ids: set<string>)
    ensures WithoutIds(a + b, ids) == WithoutIds(a, ids) + WithoutIds(b, ids)
  {
    if a != [] {
      assert (a + b)[1..] == a[1..] + b;
      WithoutIdsAppend(a[1..], b, ids);
    } else {
      assert a + b == b;
    }
  }

  /** The incoming messages whose ids are not already stored. */
  function NewMessages(existing: seq<Message>, incoming: seq<Message>): seq<Message> {
    WithoutIds(incoming, Ids(existing))
  }

  /** The stored list after an idempotent append: `old ++ [m in incoming | m.id not in ids(old)]`. */
  function AppendNew(existing: seq<Message>, incoming: seq<Message>): (r: seq<Message>)
    ensures |r| >= |existing| && r[..|existing|] == existing
    ensures Ids(r) == Ids(existing) + Ids(incoming)
  {
    existing + NewMessages(existing, incoming)
  }

  /** After one append every incoming id is stored, so a repeated append adds nothing. */
  lemma AppendNewIdempotent(existing: seq<Message>, incoming: seq<Message>)
    ensures NewMessages(AppendNew(existing, incoming), incoming) == []
    ensures AppendNew(AppendNew(existing, incoming), incoming) == AppendNew(existing, incoming)
  {
    var once := AppendNew(existing, incoming);
    WithoutIdsDropsAll(incoming, Ids(once));
  }

  /** A filter against a set holding every id of the list leaves nothing. */
  lemma {:induction false} WithoutIdsDropsAll(ms: seq<Message>, ids: set<string>)
    requires forall i :: 0 <= i < |ms| ==> ms[i].id in ids
    ensures WithoutIds(ms, ids) == []
  {
    if ms != [] {
      WithoutIdsDropsAll(ms[1..], ids);
    }
  }

  /** No two messages of the list share an id. */
  predicate UniqueIds(ms: seq<Message>) {
    forall i, j :: 0 <= i < j < |ms| ==> ms[i].id != ms[j].id
  }

  lemma {:induction false} WithoutIdsUnique(ms: seq<Message>, ids: set<string>)
    requires UniqueIds(ms)
    ensures UniqueIds(WithoutIds(ms, ids))
  {
    if ms != [] {
      var tail := WithoutIds(ms[1..], ids);
      WithoutIdsUnique(ms[1..], ids);
      forall m | m in tail ensures m.id != ms[0].id {
        var j :| 0 <= j < |ms[1..]| && ms[1..][j] == m;
        assert ms[j + 1] == m;
      }
    }
  }

  /**
   * Appending adds no id that is already stored, so a stored list without
   * duplicates stays so when the incoming batch repeats no id.
   */
  lemma AppendNewUnique(existing: seq<Message>, incoming: seq<Message>)
    requires UniqueIds(existing) && UniqueIds(incoming)
    ensures UniqueIds(AppendNew(existing, incoming))
  {
    var added := NewMessages(existing, incoming);
    WithoutIdsUnique(incoming, Ids(existing));
    var all := existing + added;
    forall i, j | 0 <= i < j < |all| ensures all[i].id != all[j].id {
      if i < |existing| && j >= |existing| {
        assert all[j] == added[j - |existing|];
        assert all[j] in added;
      }
    }
  }

  /**
   * The filter only compares with the stored ids: a batch that repeats an id
   * not yet stored has both copies appended.
   */
  lemma AppendNewKeepsRepeats(m: Message)
    ensures AppendNew([], [m, m]) == [m, m]
    ensures !UniqueIds(AppendNew([], [m, m]))
  {
    assert WithoutIds([m], {}) == [m];
    assert [m, m][1..] == [m];
  }

  // ---------------------------------------------------------------------------
  // The collection operations, as functions of the store

  /** What `removeMessagesFrom` and `replaceMessageAndRemoveAfter` return, with the store after them. */
  datatype Outcome = Outcome(result: Result<seq<Message>>, store: Store)

  /** `updateChatMessages(chatId, incoming, userId)` */
  function UpdateMessages(s: Store, key: ChatKey, incoming: seq<Message>, now: int): (s': Store)
    ensures s'.Keys == s.Keys + {key} && AgreesOffKey(s, s', key)
    ensures key !in s ==> s'[key] == Chat(key.chatId, DefaultTitle, key.userId, incoming, false, None,
                                          now, now, Some(LastTimestampOr(incoming, now)))
    ensures key in s ==> s'[key].messages == AppendNew(s[key].messages, incoming)
    ensures key in s && NewMessages(s[key].messages, incoming) == [] ==> s' == s
    ensures key in s && NewMessages(s[key].messages, incoming) != [] ==>
      s'[key] == s[key].(messages := s'[key].messages, updatedAt := now,
                         lastMessageAt := Some(LastTimestampOr(NewMessages(s[key].messages, incoming), now)))
  {
    if key !in s then
      s[key := Chat(key.chatId, DefaultTitle, key.userId, incoming, false, None,
                    now, now, Some(LastTimestampOr(incoming, now)))]
    else
      var chat := s[key];
      var added := NewMessages(chat.messages, incoming);
      if |added| > 0 then
        s[key := chat.(messages := chat.messages + added, updatedAt := now,
                       lastMessageAt := Some(LastTimestampOr(added, now)))]
      else s
  }

  /** The position in `incoming` of the last message whose id is not stored. */
  function LastNewIndex(existing: seq<Message>, incoming: seq<Message>): (i: int)
    ensures -1 <= i < |incoming|
    ensures i >= 0 ==> incoming[i].id !in Ids(existing)
    ensures forall j :: i < j < |incoming| ==> incoming[j].id in Ids(existing)
  {
    if incoming == [] then -1
    else if incoming[|incoming| - 1].id !in Ids(existing) then |incoming| - 1
    else LastNewIndex(existing, incoming[..|incoming| - 1])
  }

  /** `lastMessageAt` after an append is the timestamp of the last incoming message that was new. */
  lemma {:induction false} LastNewIsLastFresh(existing: seq<Message>, incoming: seq<Message>)
    ensures var added := NewMessages(existing, incoming);
      (added == [] <==> LastNewIndex(existing, incoming) == -1)
      && (added != [] ==> added[|added| - 1] == incoming[LastNewIndex(existing, incoming)])
    decreases |incoming|
  {
    if incoming != [] {
      var init := incoming[..|incoming| - 1];
      var last := incoming[|incoming| - 1];
      assert incoming == init + [last];
      WithoutIdsAppend(init, [last], Ids(existing));
      assert WithoutIds([last], Ids(existing)) == (if last.id in Ids(existing) then [] else [last]) by {
        assert [last][1..] == [];
      }
      LastNewIsLastFresh(existing, init);
    }
  }

  /** Repeating `updateChatMessages` with the same messages, at any later time, changes nothing. */
  lemma UpdateMessagesIdempotent(s: Store, key: ChatKey, incoming: seq<Message>, now1: int, now2: int)
    ensures UpdateMessages(UpdateMessages(s, key, incoming, now1), key, incoming, now2)
         == UpdateMessages(s, key, incoming, now1)
  {
    var s1 := UpdateMessages(s, key, incoming, now1);
    if key in s {
      AppendNewIdempotent(s[key].messages, incoming);
    } else {
      assert NewMessages(incoming, incoming) == [] by {
        AppendNewIdempotent([], incoming);
        assert AppendNew([], incoming) == incoming by {
          assert WithoutIds(incoming, Ids([])) == incoming by { WithoutIdsNoop(incoming, Ids([])); }
        }
      }
    }
  }

  lemma {:induction false} WithoutIdsNoop(ms: seq<Message>, ids: set<string>)
    requires forall m :: m in ms ==> m.id !in ids
    ensures WithoutIds(ms, ids) == ms
  {
    if ms != [] {
      WithoutIdsNoop(ms[1..], ids);
    }
  }

  /** `removeMessagesFrom(chatId, messageId, userId)` */
  function RemoveFrom(s: Store, key: ChatKey, messageId: string, now: int): (o: Outcome)
    ensures AgreesOffKey(s, o.store, key) && o.store.Keys == s.Keys
    ensures key !in s ==> o == Outcome(Err(ChatNotFound), s)
    ensures key in s && messageId !in Ids(s[key].messages) ==> o == Outcome(Err(MessageNotFound), s)
    ensures o.result.Ok? <==> key in s && messageId in Ids(s[key].messages)
    ensures o.result.Ok? ==>
      var kept := o.result.value;
      var ms := s[key].messages;
      && |kept| < |ms| && kept == ms[..|kept|]
      && ms[|kept|].id == messageId && messageId !in Ids(kept)
      && o.store[key] == s[key].(messages := kept, updatedAt := now,
                                 lastMessageAt := Some(LastTimestampOr(kept, now)))
  {
    if key !in s then Outcome(Err(ChatNotFound), s)
    else
      var chat := s[key];
      match FindIndex(chat.messages, messageId)
      case None => Outcome(Err(MessageNotFound), s)
      case Some(i) =>
        var kept := chat.messages[..i];
        Outcome(Ok(kept), s[key := chat.(messages := kept, updatedAt := now,
                                         lastMessageAt := Some(LastTimestampOr(kept, now)))])
  }

  /** `replaceMessageAndRemoveAfter(chatId, messageId, newMessage, userId)` */
  function ReplaceFrom(s: Store, key: ChatKey, messageId: string, newMessage: Message, now: int): (o: Outcome)
    ensures AgreesOffKey(s, o.store, key) && o.store.Keys == s.Keys
    ensures key !in s ==> o == Outcome(Err(ChatNotFound), s)
    ensures key in s && messageId !in Ids(s[key].messages) ==> o == Outcome(Err(MessageNotFound), s)
    ensures o.result.Ok? <==> key in s && messageId in Ids(s[key].messages)
    ensures o.result.Ok? ==>
      var r := o.result.value;
      var ms := s[key].messages;
      && 1 <= |r| <= |ms| && r[|r| - 1] == newMessage
      && r[..|r| - 1] == ms[..|r| - 1]
      && ms[|r| - 1].id == messageId && messageId !in Ids(r[..|r| - 1])
      && o.store[key] == s[key].(messages := r, updatedAt := now,
                                 lastMessageAt := Some(TimestampOr(newMessage, now)))
  {
    if key !in s then Outcome(Err(ChatNotFound), s)
    else
      var chat := s[key];
      match FindIndex(chat.messages, messageId)
      case None => Outcome(Err(MessageNotFound), s)
      case Some(i) =>
        var r := chat.messages[..i] + [newMessage];
        assert r[..i] == chat.messages[..i];
        Outcome(Ok(r), s[key := chat.(messages := r, updatedAt := now,
                                      lastMessageAt := Some(TimestampOr(newMessage, now)))])
  }

  /** Only one position can be the first occurrence of an id. */
  lemma FirstOccurrenceUnique(ms: seq<Message>, id: string, a: nat, b: nat)
    requires a < |ms| && b < |ms| && ms[a].id == id && ms[b].id == id
    requires id !in Ids(ms[..a]) && id !in Ids(ms[..b])
    ensures a == b
  {
  }

  /**
   * The edit route writes the replacement under the edited message's own id;
   * deleting from that id afterwards leaves what deleting from it before would have.
   */
  lemma ReplaceThenRemove(s: Store, key: ChatKey, messageId: string, newMessage: Message, now1: int, now2: int)
    requires newMessage.id == messageId
    requires key in s && messageId in Ids(s[key].messages)
    ensures RemoveFrom(ReplaceFrom(s, key, messageId, newMessage, now1).store, key, messageId, now2).result
         == RemoveFrom(s, key, messageId, now2).result
  {
    var ms := s[key].messages;
    var o := ReplaceFrom(s, key, messageId, newMessage, now1);
    var r := o.result.value;
    assert r[|r| - 1].id == messageId;
    assert messageId in Ids(r);
    var kept := RemoveFrom(o.store, key, messageId, now2).result.value;
    var before := RemoveFrom(s, key, messageId, now2).result.value;
    FirstOccurrenceUnique(r, messageId, |kept|, |r| - 1);
    assert ms[..|r| - 1] == r[..|r| - 1];
    FirstOccurrenceUnique(ms, messageId, |before|, |r| - 1);
  }

  /** `updateChatTitle(chatId, title, userId)`: an update without a matching chat is a no-op. */
  function SetTitle(s: Store, key: ChatKey, title: string, now: int): (s': Store)
    ensures AgreesOffKey(s, s', key) && s'.Keys == s.Keys
    ensures key in s ==> s'[key] == s[key].(title := title, updatedAt := now)
  {
    if key in s then s[key := s[key].(title := title, updatedAt := now)] else s
  }

  /** `shareChat(chatId, userId)` with `token` standing for `nanoid(32)`. */
  function Share(s: Store, key: ChatKey, token: string, now: int): (s': Store)
    ensures AgreesOffKey(s, s', key) && s'.Keys == s.Keys
    ensures key in s ==> s'[key] == s[key].(isShared := true, shareToken := Some(token), updatedAt := now)
  {
    if key in s then s[key := s[key].(isShared := true, shareToken := Some(token), updatedAt := now)] else s
  }

  /** `unshareChat(chatId, userId)`: `$unset` the token and clear the flag. */
  function Unshare(s: Store, key: ChatKey, now: int): (s': Store)
    ensures AgreesOffKey(s, s', key) && s'.Keys == s.Keys
    ensures key in s ==> s'[key] == s[key].(isShared := false, shareToken := None, updatedAt := now)
  {
    if key in s then s[key := s[key].(isShared := false, shareToken := None, updatedAt := now)] else s
  }

  /** `deleteChat(chatId, userId)` */
  function Delete(s: Store, key: ChatKey): (s': Store)
    ensures AgreesOffKey(s, s', key) && s'.Keys == s.Keys - {key}
  {
    s - {key}
  }

  /** The document `getChatByShareToken(token)` may return. */
  predicate SharedUnder(c: Chat, token: string) {
    c.isShared && c.shareToken == Some(token)
  }

  /** Unsharing revokes every token of that chat, and sharing anew makes only the new token valid. */
  lemma ShareThenUnshare(s: Store, key: ChatKey, token: string, other: string, now1: int, now2: int)
    requires key in s
    ensures SharedUnder(Share(s, key, token, now1)[key], token)
    ensures other != token ==> !SharedUnder(Share(s, key, token, now1)[key], other)
    ensures !SharedUnder(Unshare(Share(s, key, token, now1), key, now2)[key], token)
  {
  }

  // ---------------------------------------------------------------------------
  // Listing order

  /**
   * May `a` precede `b` under `.sort({ lastMessageAt: -1, updatedAt: -1 })`?
   * A missing `lastMessageAt` compares below every date, so it sorts last.
   */
  predicate ListedBefore(a: Chat, b: Chat) {
    match (a.lastMessageAt, b.lastMessageAt)
    case (Some(x), Some(y)) => x > y || (x == y && a.updatedAt >= b.updatedAt)
    case (Some(_), None) => true
    case (None, Some(_)) => false
    case (None, None) => a.updatedAt >= b.updatedAt
  }

  predicate SortedForListing(cs: seq<Chat>) {
    forall i, j :: 0 <= i < j < |cs| ==> ListedBefore(cs[i], cs[j])
  }

  /** A chat that may follow every listed chat extends the listing. */
  lemma SortedAppend(r: seq<Chat>, x: Chat)
    requires SortedForListing(r)
    requires forall c :: c in r ==> ListedBefore(c, x)
    ensures SortedForListing(r + [x])
  {
    var r' := r + [x];
    forall i, j | 0 <= i < j < |r'|
      ensures ListedBefore(r'[i], r'[j])
    {
      assert r'[i] == r[i];
      if j < |r| {
        assert r'[j] == r[j];
      }
    }
  }

  /** A chat whose id no listed chat has keeps the ids of the listing distinct. */
  lemma DistinctIdsAppend(r: seq<Chat>, x: Chat)
    requires forall i, j :: 0 <= i < j < |r| ==> r[i].id != r[j].id
    requires forall c :: c in r ==> c.id != x.id
    ensures forall i, j :: 0 <= i < j < |r + [x]| ==> (r + [x])[i].id != (r + [x])[j].id
  {
    var r' := r + [x];
    forall i, j | 0 <= i < j < |r'|
      ensures r'[i].id != r'[j].id
    {
      assert r'[i] == r[i];
      if j < |r| {
        assert r'[j] == r[j];
      }
    }
  }

  /** Every finite set of chats has one that may be listed before all the others. */
  lemma {:induction false} FirstInListing(s: Store, keys: set<ChatKey>) returns (k: ChatKey)
    requires keys != {} && keys <= s.Keys
    ensures k in keys && forall k' :: k' in keys ==> ListedBefore(s[k], s[k'])
    decreases keys
  {
    var x :| x in keys;
    if keys == {x} {
      k := x;
    } else {
      var rest := FirstInListing(s, keys - {x});
      if ListedBefore(s[x], s[rest]) {
        k := x;
      } else {
        k := rest;
      }
    }
  }

  // ---------------------------------------------------------------------------
  // Titles

  /** `messages.find(m => m.role === 'user')` */
  function FirstUserMessage(ms: seq<Message>): (r: Option<Message>)
    ensures r.None? <==> forall i :: 0 <= i < |ms| ==> ms[i].role != User
    ensures r.Some? ==> exists i :: 0 <= i < |ms| && ms[i] == r.value && ms[i].role == User
                                    && forall j :: 0 <= j < i ==> ms[j].role != User
  {
    if ms == [] then None
    else if ms[0].role == User then Some(ms[0])
    else
      var r := FirstUserMessage(ms[1..]);
      if r.Some? then
        var i :| 0 <= i < |ms[1..]| && ms[1..][i] == r.value && ms[1..][i].role == User
                 && forall j :: 0 <= j < i ==> ms[1..][j].role != User;
        assert ms[i + 1] == r.value;
        r
      else r
  }

  /** `parts.filter(p => p.type === 'text').map(p => p.text)`, an undefined text joining as ''. */
  function TextOfTextParts(ps: seq<Part>): seq<string> {
    if ps == [] then []
    else (if ps[0].kind == "text" then [if ps[0].text.Some? then ps[0].text.value else ""] else [])
         + TextOfTextParts(ps[1..])
  }

  /** The text `generateChatTitle` titles a chat by, before shortening. */
  function TitleSource(m: Message): string {
    if Truthy(m.content) then m.content.value
    else if m.parts.Some? then OrElse(Some(Join(TextOfTextParts(m.parts.value), " ")), DefaultTitle)
    else DefaultTitle
  }

  /** `generateChatTitle(messages)` */
  function GenerateChatTitle(ms: seq<Message>): (t: string)
    ensures t != "" && |t| <= 53
    ensures FirstUserMessage(ms).None? ==> t == DefaultTitle
    ensures FirstUserMessage(ms).Some? ==> t == Ellipsize(TitleSource(FirstUserMessage(ms).value), 50)
  {
    match FirstUserMessage(ms)
    case None => DefaultTitle
    case Some(m) => Ellipsize(TitleSource(m), 50)
  }

  /** A first user message with non-empty content titles the chat by its first 50 characters. */
  lemma GenerateChatTitleFromContent(ms: seq<Message>, i: nat)
    requires i < |ms| && ms[i].role == User && Truthy(ms[i].content)
    requires forall j :: 0 <= j < i ==> ms[j].role != User
    ensures var c := ms[i].content.value;
      (|c| <= 50 ==> GenerateChatTitle(ms) == c)
      && (|c| > 50 ==> GenerateChatTitle(ms) == c[..50] + "...")
  {
    var r := FirstUserMessage(ms);
    var k :| 0 <= k < |ms| && ms[k] == r.value && ms[k].role == User
             && forall j :: 0 <= j < k ==> ms[j].role != User;
    assert k == i;
  }

  // ---------------------------------------------------------------------------
  // The service

  class ChatService {
    var chats: Store

    ghost predicate Valid()
      reads this
    {
      WellKeyed(chats)
    }

    constructor ()
      ensures Valid() && chats == map[]
    {
      chats := map[];
    }

    /** `createChat(userId, title)`; `id` is the added `nanoid()`, never used by any stored chat. */
    method CreateChat(userId: string, title: Option<string>, id: string, now: int) returns (chat: Chat)
      requires Valid()
      requires forall k :: k in chats ==> k.chatId != id
      modifies this
      ensures Valid()
      ensures chat == Chat(id, TitleOrDefault(title), userId, [], false, None, now, now, None)
      ensures chats == old(chats)[ChatKey(id, userId) := chat]
    {
      chat := Chat(id, TitleOrDefault(title), userId, [], false, None, now, now, None);
      chats := chats[ChatKey(id, userId) := chat];
    }

    /** `removeMessagesFrom(chatId, messageId, userId)` */
    method RemoveMessagesFrom(chatId: string, messageId: string, userId: string, now: int)
      returns (r: Result<seq<Message>>)
      requires Valid()
      modifies this
      ensures Valid()
      ensures r == RemoveFrom(old(chats), ChatKey(chatId, userId), messageId, now).result
      ensures chats == RemoveFrom(old(chats), ChatKey(chatId, userId), messageId, now).store
    {
      var key := ChatKey(chatId, userId);
      if key !in chats {
        return Err(ChatNotFound);
      }
      var chat := chats[key];
      var messageIndex := FindIndex(chat.messages, messageId);
      if messageIndex.None? {
        return Err(MessageNotFound);
      }
      var updated := chat.messages[..messageIndex.value];
      chats := chats[key := chat.(messages := updated, updatedAt := now,
                                  lastMessageAt := Some(LastTimestampOr(updated, now)))];
      r := Ok(updated);
    }

    /** `replaceMessageAndRemoveAfter(chatId, messageId, newMessage, userId)` */
    method ReplaceMessageAndRemoveAfter(chatId: string, messageId: string, newMessage: Message,
                                        userId: string, now: int)
      returns (r: Result<seq<Message>>)
      requires Valid()
      modifies this
      ensures Valid()
      ensures r == ReplaceFrom(old(chats), ChatKey(chatId, userId), messageId, newMessage, now).result
      ensures chats == ReplaceFrom(old(chats), ChatKey(chatId, userId), messageId, newMessage, now).store
    {
      var key := ChatKey(chatId, userId);
      if key !in chats {
        return Err(ChatNotFound);
      }
      var chat := chats[key];
      var messageIndex := FindIndex(chat.messages, messageId);
      if messageIndex.None? {
        return Err(MessageNotFound);
      }
      var updated := chat.messages[..messageIndex.value] + [newMessage];
      chats := chats[key := chat.(messages := updated, updatedAt := now,
                                  lastMessageAt := Some(TimestampOr(newMessage, now)))];
      r := Ok(updated);
    }

    /** `getUserChats(userId)`: every chat of the owner once, in listing order. */
    method GetUserChats(userId: string) returns (r: seq<Chat>)
      requires Valid()
      ensures forall c :: c in r ==> c.userId == userId && KeyOf(c) in chats && chats[KeyOf(c)] == c
      ensures forall k :: k in chats && k.userId == userId ==> chats[k] in r
      ensures forall i, j :: 0 <= i < j < |r| ==> r[i].id != r[j].id
      ensures SortedForListing(r)
    {
      var remaining := set k | k in chats && k.userId == userId;
      r := [];
      while remaining != {}
        invariant remaining <= chats.Keys
        invariant forall k :: k in remaining ==> k.userId == userId
        invariant forall c :: c in r ==> c.userId == userId && KeyOf(c) in chats
                                         && chats[KeyOf(c)] == c && KeyOf(c) !in remaining
        invariant forall k :: k in chats && k.userId == userId ==> k in remaining || chats[k] in r
        invariant forall i, j :: 0 <= i < j < |r| ==> r[i].id != r[j].id
        invariant SortedForListing(r)
        invariant forall c, k :: c in r && k in remaining ==> ListedBefore(c, chats[k])
        decreases remaining
      {
        ghost var first := FirstInListing(chats, remaining);
        var next :| next in remaining && forall k :: k in remaining ==> ListedBefore(chats[next], chats[k]);
        assert KeyOf(chats[next]) == next;
        SortedAppend(r, chats[next]);
        DistinctIdsAppend(r, chats[next]);
        r := r + [chats[next]];
        remaining := remaining - {next};
      }
    }

    /** `getChatById(chatId, userId?)`: the owner filter applies only when `userId` is truthy. */
    method GetChatById(chatId: string, userId: Option<string>) returns (r: Option<Chat>)
      requires Valid()
      ensures Truthy(userId) ==>
        r == (if ChatKey(chatId, userId.value) in chats then Some(chats[ChatKey(chatId, userId.value)]) else None)
      ensures Truthy(userId) && r.Some? ==> r.value.userId == userId.value && r.value.id == chatId
      ensures !Truthy(userId) ==> (r.Some? <==> exists k :: k in chats && k.chatId == chatId)
      ensures r.Some? ==> r.value.id == chatId && KeyOf(r.value) in chats && chats[KeyOf(r.value)] == r.value
    {
      if Truthy(userId) {
        var key := ChatKey(chatId, userId.value);
        r := if key in chats then Some(chats[key]) else None;
      } else if exists k :: k in chats && k.chatId == chatId {
        var k :| k in chats && k.chatId == chatId;
        r := Some(chats[k]);
      } else {
        r := None;
      }
    }

    /** `getChatByShareToken(shareToken)`: only a shared chat carrying that token. */
    method GetChatByShareToken(shareToken: string) returns (r: Option<Chat>)
      requires Valid()
      ensures r.Some? <==> exists k :: k in chats && SharedUnder(chats[k], shareToken)
      ensures r.Some? ==> SharedUnder(r.value, shareToken) && KeyOf(r.value) in chats
                          && chats[KeyOf(r.value)] == r.value
    {
      if exists k :: k in chats && SharedUnder(chats[k], shareToken) {
        var k :| k in chats && SharedUnder(chats[k], shareToken);
        r := Some(chats[k]);
      } else {
        r := None;
      }
    }

    /** `updateChatMessages(chatId, messages, userId)`: insert when missing, otherwise append only unseen ids. */
    method UpdateChatMessages(chatId: string, messages: seq<Message>, userId: string, now: int)
      requires Valid()
      modifies this
      ensures Valid()
      ensures chats == UpdateMessages(old(chats), ChatKey(chatId, userId), messages, now)
    {
      var key := ChatKey(chatId, userId);
      if key !in chats {
        chats := chats[key := Chat(chatId, DefaultTitle, userId, messages, false, None,
                                   now, now, Some(LastTimestampOr(messages, now)))];
        return;
      }
      var existing := chats[key];
      var existingIds := Ids(existing.messages);
      var newMessages := WithoutIds(messages, existingIds);
      if |newMessages| > 0 {
        var lastMessage := newMessages[|newMessages| - 1];
        chats := chats[key := existing.(messages := existing.messages + newMessages, updatedAt := now,
                                        lastMessageAt := Some(TimestampOr(lastMessage, now)))];
      }
    }

    /** `updateChatTitle(chatId, title, userId)` */
    method UpdateChatTitle(chatId: string, title: string, userId: string, now: int)
      requires Valid()
      modifies this
      ensures Valid()
      ensures chats == SetTitle(old(chats), ChatKey(chatId, userId), title, now)
    {
      var key := ChatKey(chatId, userId);
      if key in chats {
        chats := chats[key := chats[key].(title := title, updatedAt := now)];
      }
    }

    /** `shareChat(chatId, userId)`: the token is returned whether or not a chat matched. */
    method ShareChat(chatId: string, userId: string, token: string, now: int) returns (shareToken: string)
      requires Valid()
      modifies this
      ensures Valid()
      ensures shareToken == token
      ensures chats == Share(old(chats), ChatKey(chatId, userId), token, now)
    {
      shareToken := token;
      var key := ChatKey(chatId, userId);
      if key in chats {
        chats := chats[key := chats[key].(isShared := true, shareToken := Some(shareToken), updatedAt := now)];
      }
    }

    /** `unshareChat(chatId, userId)` */
    method UnshareChat(chatId: string, userId: string, now: int)
      requires Valid()
      modifies this
      ensures Valid()
      ensures chats == Unshare(old(chats), ChatKey(chatId, userId), now)
    {
      var key := ChatKey(chatId, userId);
      if key in chats {
        chats := chats[key := chats[key].(isShared := false, shareToken := None, updatedAt := now)];
      }
    }

    /** `deleteChat(chatId, userId)` */
    method DeleteChat(chatId: string, userId: string)
      requires Valid()
      modifies this
      ensures Valid()
      ensures chats == Delete(old(chats), ChatKey(chatId, userId))
    {
      chats := chats - {ChatKey(chatId, userId)};
    }
  }
}
