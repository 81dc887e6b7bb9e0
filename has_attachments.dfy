/**
 * `hasAttachments(message)` of lib/hasAttachments.ts: a message has
 * attachments when it carries a non-empty `files` array, or else when one of
 * its `parts` is a file part.
 */
module Attachments {
  import opened Wrappers
  import opened ChatModels
  import ChatComponent

  /** The `files` field as the check sees it: missing or falsy, a truthy non-array, or an array. */
  datatype FilesField = NoFiles | NotAnArray | FileArray(length: nat)

  /** The test the `filter` applies: `part.type === 'file' || part.file`. */
  predicate IsFilePart(p: Part) {
    p.kind == "file" || p.file.Some?
  }

  /** `parts.filter(isFilePart)`, kept in order. */
  function FileParts(ps: seq<Part>): (r: seq<Part>)
    ensures |r| <= |ps|
    ensures forall p :: p in r ==> p in ps && IsFilePart(p)
  {
    if ps == [] then []
    else FileParts(ps[..|ps| - 1]) + (if IsFilePart(ps[|ps| - 1]) then [ps[|ps| - 1]] else [])
  }

  /** The filter keeps something exactly when some part is a file part. */
  lemma {:induction false} FilePartsNonEmptyIff(ps: seq<Part>)
    ensures |FileParts(ps)| > 0 <==> exists i :: 0 <= i < |ps| && IsFilePart(ps[i])
  {
    if ps != [] {
      var init := ps[..|ps| - 1];
      FilePartsNonEmptyIff(init);
      if exists i :: 0 <= i < |init| && IsFilePart(init[i]) {
        var i :| 0 <= i < |init| && IsFilePart(init[i]);
        assert ps[i] == init[i];
      } else if !IsFilePart(ps[|ps| - 1]) {
        forall i | 0 <= i < |ps|
          ensures !IsFilePart(ps[i])
        {
          if i < |init| {
            assert ps[i] == init[i];
          }
        }
      }
    }
  }

  /** `hasAttachments(message)`, for a message whose `parts` field is absent or a list. */
  function HasAttachments(files: FilesField, parts: Option<seq<Part>>): (r: bool)
    ensures files.FileArray? && files.length > 0 ==> r
    ensures !(files.FileArray? && files.length > 0) && parts.None? ==> !r
  {
    if files.FileArray? && files.length > 0 then true
    else if parts.Some? then |FileParts(parts.value)| > 0
    else false
  }

  /**
   * Without a non-empty `files` array the answer rests on the parts alone,
   * whether `files` is missing, empty or not an array: true exactly when some
   * part is typed `file` or carries a `file` object.
   */
  lemma PartsDecide(files: FilesField, parts: seq<Part>)
    requires !(files.FileArray? && files.length > 0)
    ensures HasAttachments(files, Some(parts)) <==> exists i :: 0 <= i < |parts| && IsFilePart(parts[i])
  {
    FilePartsNonEmptyIff(parts);
  }

  /**
   * A user message saved by the chat view has attachments exactly when files
   * were attached when it was sent: its text part is not a file part, and every
   * stored attachment part is.
   */
  lemma SavedUserMessageAttachments(text: string, files: seq<ChatComponent.AttachedFile>, now: nat)
    ensures var m := ChatComponent.FormatUserMessage(ChatComponent.SubmitData(text, files), now);
      HasAttachments(NoFiles, m.parts) <==> |files| > 0
  {
    var m := ChatComponent.FormatUserMessage(ChatComponent.SubmitData(text, files), now);
    ChatComponent.SubmittedMessageShape(text, files, now);
    PartsDecide(NoFiles, m.parts.value);
    if |files| > 0 {
      assert IsFilePart(m.parts.value[1]);
    } else {
      assert m.parts.value == [TextPart(text)];
      assert !IsFilePart(m.parts.value[0]);
    }
  }
}
