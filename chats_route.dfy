/**
 * The `/api/chats` endpoint of app/api/chats/route.ts: `GET` lists the
 * signed-in user's chats as summaries, `POST` creates a chat. Both hand the
 * work to the chat service; the request body and the new chat's id come in
 * as parameters.
 */
module ChatsRoute {
  import opened Wrappers
  import opened Strings
  import opened ChatModels
  import opened ChatStore

  /** A chat as `GET` lists it: its metadata and the number of its messages, never the messages. */
  datatype ChatSummary = ChatSummary(
    id: string, title: string, isShared: bool, shareToken: Option<string>,
    createdAt: int, updatedAt: int, lastMessageAt: Option<int>, messageCount: nat)

  /** What the handlers answer: 401, 500, the chat list or the created chat. */
  datatype Response = Unauthorized | InternalServerError | ChatList(chats: seq<ChatSummary>) | Created(chat: Chat)

  function Summary(c: Chat): ChatSummary {
    ChatSummary(c.id, c.title, c.isShared, c.shareToken, c.createdAt, c.updatedAt, c.lastMessageAt, |c.messages|)
  }

  /** `chats.map(summary)`: one summary per chat, in the same order, each counting its chat's messages. */
  function Summaries(cs: seq<Chat>): (r: seq<ChatSummary>)
    ensures |r| == |cs|
    ensures forall i :: 0 <= i < |cs| ==>
      && r[i].id == cs[i].id && r[i].title == cs[i].title
      && r[i].lastMessageAt == cs[i].lastMessageAt && r[i].updatedAt == cs[i].updatedAt
      && r[i].isShared == cs[i].isShared && r[i].shareToken == cs[i].shareToken && r[i].createdAt == cs[i].createdAt
      && r[i].messageCount == |cs[i].messages|
  {
    if cs == [] then [] else Summaries(cs[..|cs| - 1]) + [Summary(cs[|cs| - 1])]
  }

  /**
   * `GET`: 401 without a signed-in user; otherwise one summary for each chat
   * `getUserChats` returns (`listed`): exactly the user's chats, each once,
   * newest activity first.
   */
  method Get(service: ChatService, userId: Option<string>) returns (response: Response, listed: seq<Chat>)
    requires service.Valid()
    ensures !Truthy(userId) <==> response == Unauthorized
    ensures !Truthy(userId) ==> listed == []
    ensures Truthy(userId) ==>
      && response == ChatList(Summaries(listed))
      && (forall c :: c in listed ==> c.userId == userId.value && KeyOf(c) in service.chats && service.chats[KeyOf(c)] == c)
      && (forall k :: k in service.chats && k.userId == userId.value ==> service.chats[k] in listed)
      && (forall i, j :: 0 <= i < j < |listed| ==> listed[i].id != listed[j].id)
      && SortedForListing(listed)
  {
    if !Truthy(userId) {
      return Unauthorized, [];
    }
    listed := service.GetUserChats(userId.value);
    response := ChatList(Summaries(listed));
  }

  /**
   * `POST`: 401 without a signed-in user; 500 when the body is not JSON;
   * otherwise the chat `createChat(userId, title)` stored, titled "New Chat"
   * when the body has no (truthy) title.
   */
  method Post(service: ChatService, userId: Option<string>, body: Result<Option<string>>, id: string, now: int)
    returns (response: Response)
    requires service.Valid()
    requires forall k :: k in service.chats ==> k.chatId != id
    modifies service
    ensures service.Valid()
    ensures !Truthy(userId) ==> response == Unauthorized && service.chats == old(service.chats)
    ensures Truthy(userId) && body.Err? ==> response == InternalServerError && service.chats == old(service.chats)
    ensures Truthy(userId) && body.Ok? ==>
      && response == Created(Chat(id, TitleOrDefault(body.value), userId.value, [], false, None, now, now, None))
      && service.chats == old(service.chats)[ChatKey(id, userId.value) := response.chat]
  {
    if !Truthy(userId) {
      return Unauthorized;
    }
    if body.Err? {
      return InternalServerError;
    }
    var chat := service.CreateChat(userId.value, body.value, id, now);
    response := Created(chat);
  }

  /** A created chat without a title in the body is called "New Chat" and holds no messages. */
  lemma UntitledChatIsNewChat(userId: string, title: Option<string>, id: string, now: int)
    requires !Truthy(title)
    ensures var chat := Chat(id, TitleOrDefault(title), userId, [], false, None, now, now, None);
      Summary(chat).title == DefaultTitle && Summary(chat).messageCount == 0
  {
  }
}
