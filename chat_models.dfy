/**
 * The persisted record shapes of lib/models/chat.ts, widened where the
 * handlers receive loosely typed JSON: `content`, `parts` and the part
 * fields may be absent, and roles include the model-facing `system`.
 * Dates are integers (milliseconds since the epoch).
 */
module ChatModels {
  import opened Wrappers

  datatype Role = User | Assistant | System

  /** The role as the wire string (`msg.role`). */
  function RoleName(r: Role): (s: string)
    ensures s != ""
  {
    match r
    case User => "user"
    case Assistant => "assistant"
    case System => "system"
  }

  /** An uploaded file as stored in a file part: `{ name, url, mediaType, uuid? }`. */
  datatype FileInfo = FileInfo(name: string, url: Option<string>, mediaType: string, uuid: Option<string>)

  /**
   * One element of `parts`. `kind` is the `type` field. Stored parts carry
   * `text` or a nested `file`; parts produced by the client chat hook carry
   * `mediaType`, `url` (and sometimes `cdnUrl`) at the top level.
   */
  datatype Part = Part(
    kind: string,
    text: Option<string>,
    file: Option<FileInfo>,
    mediaType: Option<string>,
    url: Option<string>,
    cdnUrl: Option<string>)

  /** `{ type: 'text', text }` */
  function TextPart(t: string): (p: Part)
    ensures p.kind == "text" && p.text == Some(t) && p.file.None?
  {
    Part("text", Some(t), None, None, None, None)
  }

  /** `{ type: 'file', file }` as the client stores attachments. */
  function FilePart(f: FileInfo): (p: Part)
    ensures p.kind == "file" && p.file == Some(f) && p.text.None? && p.mediaType.None?
  {
    Part("file", None, Some(f), None, None, None)
  }

  /** `ChatMessage`: id, role, flattened content, optional parts and a timestamp. */
  datatype Message = Message(
    id: string,
    role: Role,
    content: Option<string>,
    parts: Option<seq<Part>>,
    timestamp: Option<int>)

  /** `Chat`: one conversation document of the `chats` collection. */
  datatype Chat = Chat(
    id: string,
    title: string,
    userId: string,
    messages: seq<Message>,
    isShared: bool,
    shareToken: Option<string>,
    createdAt: int,
    updatedAt: int,
    lastMessageAt: Option<int>)

  /** The ids of a message list (`new Set(messages.map(m => m.id))`). */
  function Ids(ms: seq<Message>): (ids: set<string>)
    ensures forall i :: 0 <= i < |ms| ==> ms[i].id in ids
    ensures forall id :: id in ids ==> exists i :: 0 <= i < |ms| && ms[i].id == id
  {
    set i | 0 <= i < |ms| :: ms[i].id
  }

  /** `messages.findIndex(m => m.id === id)`, with `None` for -1. */
  function FindIndex(ms: seq<Message>, id: string): (r: Option<nat>)
    ensures r.None? <==> id !in Ids(ms)
    ensures r.Some? ==> r.value < |ms| && ms[r.value].id == id && id !in Ids(ms[..r.value])
  {
    if ms == [] then None
    else if ms[0].id == id then
      assert ms[..0] == [];
      Some(0)
    else
      IdsCons(ms);
      match FindIndex(ms[1..], id)
      case None => None
      case Some(i) =>
        FirstOccurrenceStep(ms, id, i);
        Some(i + 1)
  }

  /** No earlier occurrence in the tail and none at the head: none before `i + 1` in the whole list. */
  lemma FirstOccurrenceStep(ms: seq<Message>, id: string, i: nat)
    requires ms != [] && ms[0].id != id && i < |ms| - 1
    requires id !in Ids(ms[1..][..i])
    ensures id !in Ids(ms[..i + 1])
  {
  }

  /** The ids of a non-empty list: the first message's and those of the rest. */
  lemma IdsCons(ms: seq<Message>)
    requires ms != []
    ensures Ids(ms) == {ms[0].id} + Ids(ms[1..])
  {
    forall x | x in Ids(ms) ensures x in {ms[0].id} + Ids(ms[1..]) {
      var i :| 0 <= i < |ms| && ms[i].id == x;
      if i > 0 {
        assert ms[1..][i - 1] == ms[i];
      }
    }
  }

  /** `message.timestamp || new Date()`: a stored date is always truthy. */
  function TimestampOr(m: Message, now: int): int {
    if m.timestamp.Some? then m.timestamp.value else now
  }

  /** `list[list.length - 1]?.timestamp || new Date()` */
  function LastTimestampOr(ms: seq<Message>, now: int): int {
    if ms == [] then now else TimestampOr(ms[|ms| - 1], now)
  }
}
