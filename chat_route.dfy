/**
 * The message conversion of `POST` in app/api/chat/route.ts: each stored or
 * UI message becomes one model message whose content is a string or a list of
 * text and image parts. The language-model call and the streamed answer are
 * not modelled; `Post` only says whether the handler gets past the
 * conversion or answers 500.
 */
module ChatRoute {
  import opened Wrappers
  import opened Strings
  import opened ChatModels

  datatype ModelPart = TextContent(text: string) | ImageContent(image: Option<string>)

  /** A model message's content: a plain string, or a list of parts. */
  datatype ModelContent = Text(s: string) | Parts(parts: seq<ModelPart>)

  datatype ModelMessage = ModelMessage(role: Role, content: ModelContent)

  /** The 500 the handler answers when anything in it throws. */
  const InternalError: int := 500
  const ChatFailure: string := "Failed to process chat request"

  /**
   * What one part pushes onto the content list: a non-empty text, an image for
   * an `image/` file, or nothing. A file part without a `mediaType` throws,
   * because `mediaType.startsWith` is called on `undefined`.
   */
  function PartContent(p: Part): (r: Result<Option<ModelPart>>)
    ensures r.Err? <==> p.kind == "file" && p.mediaType.None?
    ensures r.Ok? && r.value.Some? && r.value.value.TextContent? ==>
      p.kind == "text" && p.text == Some(r.value.value.text) && r.value.value.text != ""
    ensures r.Ok? && r.value.Some? && r.value.value.ImageContent? ==>
      p.kind == "file" && StartsWith(p.mediaType.value, "image/")
    ensures p.kind == "file" && p.mediaType.Some? && StartsWith(p.mediaType.value, "image/") ==>
      r == Ok(Some(ImageContent(if Truthy(p.url) then p.url else p.cdnUrl)))
    ensures p.kind == "text" && Truthy(p.text) ==> r == Ok(Some(TextContent(p.text.value)))
    ensures p.kind != "file" && !(p.kind == "text" && Truthy(p.text)) ==> r == Ok(None)
    ensures p.kind == "file" && p.mediaType.Some? && !StartsWith(p.mediaType.value, "image/") ==> r == Ok(None)
  {
    if p.kind == "text" && Truthy(p.text) then
      Ok(Some(TextContent(p.text.value)))
    else if p.kind == "file" then
      if p.mediaType.None? then Err("mediaType is undefined")
      else if StartsWith(p.mediaType.value, "image/") then
        Ok(Some(ImageContent(if Truthy(p.url) then p.url else p.cdnUrl)))
      else Ok(None)
    else Ok(None)
  }

  /** The content list `parts.forEach` builds, or the error of the first part that throws. */
  function PartsContent(ps: seq<Part>): Result<seq<ModelPart>> {
    if ps == [] then Ok([])
    else
      match PartsContent(ps[..|ps| - 1])
      case Err(e) => Err(e)
      case Ok(content) =>
        match PartContent(ps[|ps| - 1])
        case Err(e) => Err(e)
        case Ok(None) => Ok(content)
        case Ok(Some(c)) => Ok(content + [c])
  }

  /** A text/image classification of one part that does not throw, as a plain predicate. */
  predicate Contributes(p: Part) {
    (p.kind == "text" && Truthy(p.text))
    || (p.kind == "file" && p.mediaType.Some? && StartsWith(p.mediaType.value, "image/"))
  }

  /** The parts that put something on the content list, in order. */
  function ContributingParts(ps: seq<Part>): (r: seq<Part>)
    ensures |r| <= |ps|
    ensures forall p :: p in r ==> p in ps && Contributes(p)
  {
    if ps == [] then []
    else ContributingParts(ps[..|ps| - 1]) + (if Contributes(ps[|ps| - 1]) then [ps[|ps| - 1]] else [])
  }

  /**
   * The conversion throws exactly when some file part lacks a media type;
   * otherwise the content list holds, in order, what each contributing part
   * converts to, and no empty text.
   */
  lemma {:induction false} PartsContentSpec(ps: seq<Part>)
    ensures PartsContent(ps).Err? <==> exists i :: 0 <= i < |ps| && ps[i].kind == "file" && ps[i].mediaType.None?
    ensures PartsContent(ps).Ok? ==>
      && |PartsContent(ps).value| == |ContributingParts(ps)|
      && (forall i :: 0 <= i < |ContributingParts(ps)| ==>
            PartContent(ContributingParts(ps)[i]) == Ok(Some(PartsContent(ps).value[i])))
      && forall c :: c in PartsContent(ps).value ==> c.TextContent? ==> c.text != ""
  {
    if ps != [] {
      var init := ps[..|ps| - 1];
      PartsContentSpec(init);
      if PartsContent(init).Err? {
        var i :| 0 <= i < |init| && init[i].kind == "file" && init[i].mediaType.None?;
        assert ps[i] == init[i];
      } else if PartContent(ps[|ps| - 1]).Ok? {
        assert forall i :: 0 <= i < |init| ==> ps[i] == init[i];
        PartsContentElements(ps);
      }
    }
  }

  /** One step of the conversion, element by element: the new part's element follows those of the others. */
  lemma PartsContentElements(ps: seq<Part>)
    requires ps != []
    requires PartsContent(ps[..|ps| - 1]).Ok? && PartContent(ps[|ps| - 1]).Ok?
    requires var init := ps[..|ps| - 1];
      && |PartsContent(init).value| == |ContributingParts(init)|
      && forall i :: 0 <= i < |ContributingParts(init)| ==>
           PartContent(ContributingParts(init)[i]) == Ok(Some(PartsContent(init).value[i]))
    ensures PartsContent(ps).Ok?
    ensures |PartsContent(ps).value| == |ContributingParts(ps)|
    ensures forall i :: 0 <= i < |ContributingParts(ps)| ==>
      PartContent(ContributingParts(ps)[i]) == Ok(Some(PartsContent(ps).value[i]))
  {
    var init := ps[..|ps| - 1];
    var last := ps[|ps| - 1];
    var content := PartsContent(init).value;
    var cs := ContributingParts(init);
    if Contributes(last) {
      var content' := content + [PartContent(last).value.value];
      var cs' := cs + [last];
      assert PartsContent(ps).value == content';
      assert ContributingParts(ps) == cs';
      forall i | 0 <= i < |cs'|
        ensures PartContent(cs'[i]) == Ok(Some(content'[i]))
      {
        if i < |cs| {
          assert cs'[i] == cs[i] && content'[i] == content[i];
        }
      }
    } else {
      assert PartsContent(ps).value == content;
      assert ContributingParts(ps) == cs;
    }
  }

  /**
   * The content after the fallbacks: an empty list falls back to a truthy
   * `content` string, else to one empty text part (which collapses to ""); a
   * list holding exactly one text part collapses to that text; any other list,
   * such as one with an image, is kept as the list of parts.
   */
  function Settle(m: Message, content: seq<ModelPart>): (r: ModelContent)
    ensures content == [] && Truthy(m.content) ==> r == Text(m.content.value)
    ensures content == [] && !Truthy(m.content) ==> r == Text("")
    ensures |content| == 1 && content[0].TextContent? ==> r == Text(content[0].text)
    ensures r.Parts? ==> r.parts == content && content != []
    ensures content != [] && !(|content| == 1 && content[0].TextContent?) ==> r == Parts(content)
  {
    if content == [] then
      if Truthy(m.content) then Text(m.content.value)
      else Text("")
    else if |content| == 1 && content[0].TextContent? then Text(content[0].text)
    else Parts(content)
  }

  /** The model message one input message maps to, or the error the mapping throws. */
  function ModelMessageOf(m: Message): (r: Result<ModelMessage>)
    ensures r.Ok? ==> r.value.role == m.role
  {
    if m.parts.Some? then
      match PartsContent(m.parts.value)
      case Err(e) => Err(e)
      case Ok(content) => Ok(ModelMessage(m.role, Settle(m, content)))
    else Ok(ModelMessage(m.role, Settle(m, [])))
  }

  /** `messages.map(...)`: all model messages, or the first error. */
  function ModelMessagesOf(ms: seq<Message>): Result<seq<ModelMessage>> {
    if ms == [] then Ok([])
    else
      match ModelMessagesOf(ms[..|ms| - 1])
      case Err(e) => Err(e)
      case Ok(done) =>
        match ModelMessageOf(ms[|ms| - 1])
        case Err(e) => Err(e)
        case Ok(mm) => Ok(done + [mm])
  }

  /** One model message per input message, in order and with its role, unless one of them throws. */
  lemma {:induction false} ModelMessagesOfSpec(ms: seq<Message>)
    ensures ModelMessagesOf(ms).Err? <==> exists i :: 0 <= i < |ms| && ModelMessageOf(ms[i]).Err?
    ensures ModelMessagesOf(ms).Ok? ==>
      && |ModelMessagesOf(ms).value| == |ms|
      && forall i :: 0 <= i < |ms| ==>
           ModelMessageOf(ms[i]).Ok? && ModelMessagesOf(ms).value[i] == ModelMessageOf(ms[i]).value
           && ModelMessagesOf(ms).value[i].role == ms[i].role
  {
    if ms != [] {
      var init := ms[..|ms| - 1];
      ModelMessagesOfSpec(init);
      if ModelMessagesOf(init).Err? {
        var i :| 0 <= i < |init| && ModelMessageOf(init[i]).Err?;
        assert ms[i] == init[i];
      } else {
        assert forall i :: 0 <= i < |init| ==> ms[i] == init[i];
      }
    }
  }

  /** A lone non-empty text part reaches the model as a plain string. */
  lemma SingleTextCollapses(m: Message, t: string)
    requires t != "" && m.parts == Some([TextPart(t)])
    ensures ModelMessageOf(m) == Ok(ModelMessage(m.role, Text(t)))
  {
    var ps := [TextPart(t)];
    assert ps[..|ps| - 1] == [];
    assert PartsContent(ps[..|ps| - 1]) == Ok([]);
    assert PartContent(ps[|ps| - 1]) == Ok(Some(TextContent(t)));
    assert [] + [TextContent(t)] == [TextContent(t)];
    assert PartsContent(ps) == Ok([TextContent(t)]);
  }

  /** The per-message conversion: the `parts.forEach` loop that pushes content, then the fallbacks. */
  method ConvertMessage(message: Message) returns (r: Result<ModelMessage>)
    ensures r == ModelMessageOf(message)
  {
    var content: seq<ModelPart> := [];
    if message.parts.Some? {
      var parts := message.parts.value;
      for i := 0 to |parts|
        invariant PartsContent(parts[..i]) == Ok(content)
      {
        assert parts[..i + 1][..i] == parts[..i];
        var part := parts[i];
        if part.kind == "text" && Truthy(part.text) {
          content := content + [TextContent(part.text.value)];
        } else if part.kind == "file" {
          if part.mediaType.None? {
            assert PartsContent(parts[..i + 1]) == Err("mediaType is undefined");
            PartsErrExtends(parts, i + 1);
            assert parts[..|parts|] == parts;
            return Err("mediaType is undefined");
          }
          if StartsWith(part.mediaType.value, "image/") {
            content := content + [ImageContent(if Truthy(part.url) then part.url else part.cdnUrl)];
          }
        }
      }
      assert parts[..|parts|] == parts;
    }
    r := Ok(ModelMessage(message.role, Settle(message, content)));
  }

  /** Once a prefix of the parts throws, the whole list does, with the same error. */
  lemma {:induction false} PartsErrExtends(ps: seq<Part>, k: nat)
    requires k <= |ps| && PartsContent(ps[..k]).Err?
    ensures PartsContent(ps) == PartsContent(ps[..k])
    decreases |ps| - k
  {
    if k < |ps| {
      assert ps[..k + 1][..k] == ps[..k];
      PartsErrExtends(ps, k + 1);
    } else {
      assert ps[..k] == ps;
    }
  }

  /** The outer `messages.map`, one converted message after another. */
  method ToModelMessages(messages: seq<Message>) returns (r: Result<seq<ModelMessage>>)
    ensures r == ModelMessagesOf(messages)
  {
    var modelMessages: seq<ModelMessage> := [];
    for i := 0 to |messages|
      invariant ModelMessagesOf(messages[..i]) == Ok(modelMessages)
    {
      assert messages[..i + 1][..i] == messages[..i];
      var converted := ConvertMessage(messages[i]);
      if converted.Err? {
        MessagesErrExtends(messages, i + 1);
        assert messages[..|messages|] == messages;
        return Err(converted.error);
      }
      modelMessages := modelMessages + [converted.value];
    }
    assert messages[..|messages|] == messages;
    r := Ok(modelMessages);
  }

  /** Once a prefix of the messages throws, the whole list does, with the same error. */
  lemma {:induction false} MessagesErrExtends(ms: seq<Message>, k: nat)
    requires k <= |ms| && ModelMessagesOf(ms[..k]).Err?
    ensures ModelMessagesOf(ms) == ModelMessagesOf(ms[..k])
    decreases |ms| - k
  {
    if k < |ms| {
      assert ms[..k + 1][..k] == ms[..k];
      MessagesErrExtends(ms, k + 1);
    } else {
      assert ms[..k] == ms;
    }
  }

  /**
   * `POST`: the model messages handed to the model, or 500 with the fixed
   * error body when the conversion throws.
   */
  method Post(messages: seq<Message>) returns (status: int, modelMessages: seq<ModelMessage>, body: string)
    ensures status == InternalError <==> ModelMessagesOf(messages).Err?
    ensures status == InternalError ==> body == ChatFailure && modelMessages == []
    ensures status != InternalError ==> modelMessages == ModelMessagesOf(messages).value && |modelMessages| == |messages|
  {
    var converted := ToModelMessages(messages);
    ModelMessagesOfSpec(messages);
    if converted.Err? {
      return InternalError, [], ChatFailure;
    }
    return 200, converted.value, "";
  }
}
