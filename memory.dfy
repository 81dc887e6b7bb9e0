/**
 * The memory adapter of lib/memory.ts (`ChatMemoryManager`). The external
 * memory service is not modelled: what its `search` and `getAll` calls return
 * is an input (`None` when the call threw), what `add` would be sent is an
 * output, and whether each `delete` succeeds is an oracle. The manager keeps
 * no state of its own beyond its configuration, so its operations are
 * functions and loop-carrying methods over those inputs.
 */
module Memory {
  import opened Wrappers
  import opened Strings
  import opened ChatModels

  /** `maxMessagesInContext` */
  const MaxMessagesInContext: nat := 20
  /** The transcript must be longer than this for `storeMemory` to submit it. */
  const MinTranscriptLength: nat := 100
  const MillisPerDay: int := 86400000

  /** The configuration a `ChatMemoryManager` keeps: its user and its context limits. */
  datatype Manager = Manager(userId: string, maxContextTokens: nat, maxMessagesInContext: nat)

  /** `new ChatMemoryManager({ apiKey, userId })`: refused without a (truthy) API key. */
  function NewManager(apiKey: Option<string>, userId: string): (r: Result<Manager>)
    ensures r.Ok? <==> Truthy(apiKey)
    ensures r.Ok? ==> r.value.userId == userId && r.value.maxMessagesInContext == MaxMessagesInContext
  {
    if !Truthy(apiKey) then Err("MEM0_API_KEY is required")
    else Ok(Manager(userId, 4000, MaxMessagesInContext))
  }

  /** One entry as the memory service returns it; `timestamp` is the parsed `metadata.timestamp`. */
  datatype MemoryEntry = MemoryEntry(id: string, memory: Option<string>, text: Option<string>, timestamp: Option<int>)

  /** `ConversationMemory`: the three buckets of `getAllMemories`. */
  datatype ConversationMemory = ConversationMemory(facts: seq<string>, preferences: seq<string>, context: seq<string>)

  datatype Category = Fact | Preference | Context

  /** `memory.memory || memory.text || ''` */
  function EntryText(e: MemoryEntry): string {
    OrElse(e.memory, OrElse(e.text, ""))
  }

  // ---------------------------------------------------------------------------
  // Classification (`getAllMemories`)

  const PreferenceWords: seq<string> := ["prefer", "like", "dislike", "love", "hate", "favorite"]
  const FactWords: seq<string> := [" is ", " are ", " was ", " were ", "name is", "work", "live", "age"]

  predicate MentionsAny(s: string, words: seq<string>) {
    exists w :: w in words && Contains(s, w)
  }

  /** The bucket of one memory text: preference words win, then fact patterns, else context. */
  function Classify(text: string): Category {
    var lower := ToLower(text);
    if MentionsAny(lower, PreferenceWords) then Preference
    else if MentionsAny(lower, FactWords) then Fact
    else Context
  }

  /** The texts of the entries in bucket `c`, in input order. */
  function Bucket(es: seq<MemoryEntry>, c: Category): seq<string> {
    if es == [] then []
    else
      var e := es[|es| - 1];
      Bucket(es[..|es| - 1], c) + (if Classify(EntryText(e)) == c then [EntryText(e)] else [])
  }

  /** What `getAllMemories` returns for the `getAll` result `fetched`. */
  function AllMemories(fetched: Option<seq<MemoryEntry>>): ConversationMemory {
    match fetched
    case None => ConversationMemory([], [], [])
    case Some(es) => ConversationMemory(Bucket(es, Fact), Bucket(es, Preference), Bucket(es, Context))
  }

  /** Every entry lands in exactly one bucket: the bucket sizes add up to the entry count. */
  lemma {:induction false} BucketsPartition(es: seq<MemoryEntry>)
    ensures |Bucket(es, Fact)| + |Bucket(es, Preference)| + |Bucket(es, Context)| == |es|
  {
    if es != [] {
      BucketsPartition(es[..|es| - 1]);
    }
  }

  /** A bucket holds exactly the texts of the entries classified into it. */
  lemma {:induction false} BucketMembers(es: seq<MemoryEntry>, c: Category)
    ensures forall t :: t in Bucket(es, c) <==> Classify(t) == c && exists i :: 0 <= i < |es| && EntryText(es[i]) == t
  {
    if es != [] {
      var init := es[..|es| - 1];
      var last := EntryText(es[|es| - 1]);
      BucketMembers(init, c);
      assert Bucket(es, c) == Bucket(init, c) + (if Classify(last) == c then [last] else []);
      forall t | Classify(t) == c && (exists i :: 0 <= i < |es| && EntryText(es[i]) == t)
        ensures t in Bucket(es, c)
      {
        var i :| 0 <= i < |es| && EntryText(es[i]) == t;
        if i < |es| - 1 {
          assert EntryText(init[i]) == t;
        }
      }
      forall t | t in Bucket(es, c)
        ensures exists i :: 0 <= i < |es| && EntryText(es[i]) == t
      {
        if t in Bucket(init, c) {
          var i :| 0 <= i < |init| && EntryText(init[i]) == t;
          assert es[i] == init[i];
        } else {
          assert last == t;
        }
      }
    }
  }

  /**
   * A sample preference: whatever lower-cases to "i like pizza" mentions
   * "like" and is a preference.
   */
  lemma ClassifyPreferenceExample(text: string)
    requires ToLower(text) == "i like pizza"
    ensures Classify(text) == Preference
  {
    ContainsAt(ToLower(text), "like", 2);
    assert "like" in PreferenceWords;
  }

  /** A sample fact: whatever lower-cases to "my name is alex" is a fact. */
  lemma ClassifyFactExample(text: string)
    requires ToLower(text) == "my name is alex"
    ensures Classify(text) == Fact
  {
    var lower := ToLower(text);
    assert forall k :: 0 <= k < |lower| ==> lower[k] in {'m', 'y', ' ', 'n', 'a', 'e', 'i', 's', 'l', 'x'};
    ContainsAt(lower, " is ", 7);
    assert " is " in FactWords;
    NoPreferenceWord(lower);
  }

  /** A sample context memory: whatever lower-cases to "it rained yesterday" is context. */
  lemma ClassifyContextExample(text: string)
    requires ToLower(text) == "it rained yesterday"
    ensures Classify(text) == Context
  {
    var lower := ToLower(text);
    RainedYesterday(lower);
    NoPreferenceWord(lower);
    NoFactWord(lower);
  }

  lemma RainedYesterday(lower: string)
    requires lower == "it rained yesterday"
    ensures 'p' !in lower && 'k' !in lower && 'v' !in lower && 'h' !in lower && 'f' !in lower
    ensures 'w' !in lower && 'm' !in lower && 'l' !in lower && 'g' !in lower
    ensures !Contains(lower, " is ") && !Contains(lower, " are ")
  {
    RainedYesterdayPairs(lower);
    RainedYesterdayLetters(lower);
  }

  lemma RainedYesterdayLetters(lower: string)
    requires lower == "it rained yesterday"
    ensures 'p' !in lower && 'k' !in lower && 'v' !in lower && 'h' !in lower && 'f' !in lower
    ensures 'w' !in lower && 'm' !in lower && 'l' !in lower && 'g' !in lower
  {
    assert forall k :: 0 <= k < |lower| ==> lower[k] in {'i', 't', ' ', 'r', 'a', 'n', 'e', 'd', 'y', 's'};
  }

  lemma RainedYesterdayPairs(lower: string)
    requires lower == "it rained yesterday"
    ensures !Contains(lower, " is ") && !Contains(lower, " are ")
  {
    NoSpacedWord(lower, " is ");
    NoSpacedWord(lower, " are ");
  }

  /** Neither " is " nor " are " occurs: "it rained yesterday" has no space followed by 'i' or 'a'. */
  lemma NoSpacedWord(lower: string, w: string)
    requires lower == "it rained yesterday"
    requires w == " is " || w == " are "
    ensures !Contains(lower, w)
  {
    NoPair(lower, w, 1);
  }

  /** A lower-cased text without the letters p, k, v, h and f mentions no preference word. */
  lemma NoPreferenceWord(lower: string)
    requires 'p' !in lower && 'k' !in lower && 'v' !in lower && 'h' !in lower && 'f' !in lower
    ensures !MentionsAny(lower, PreferenceWords)
  {
    NoChar(lower, "prefer", 0);
    NoChar(lower, "like", 2);
    NoChar(lower, "dislike", 5);
    NoChar(lower, "love", 2);
    NoChar(lower, "hate", 0);
    NoChar(lower, "favorite", 0);
  }

  /** Without " is ", " are " and the letters w, m, l and g a text matches no fact pattern. */
  lemma NoFactWord(lower: string)
    requires !Contains(lower, " is ") && !Contains(lower, " are ")
    requires 'w' !in lower && 'm' !in lower && 'l' !in lower && 'g' !in lower
    ensures !MentionsAny(lower, FactWords)
  {
    NoChar(lower, " was ", 1);
    NoChar(lower, " were ", 1);
    NoChar(lower, "name is", 2);
    NoChar(lower, "work", 0);
    NoChar(lower, "live", 0);
    NoChar(lower, "age", 1);
  }

  /** `getAllMemories()`: one pass over the entries, pushing each text into its bucket. */
  method GetAllMemories(fetched: Option<seq<MemoryEntry>>) returns (m: ConversationMemory)
    ensures m == AllMemories(fetched)
  {
    if fetched.None? {
      return ConversationMemory([], [], []);
    }
    var memories := fetched.value;
    var facts: seq<string> := [];
    var preferences: seq<string> := [];
    var context: seq<string> := [];
    for i := 0 to |memories|
      invariant facts == Bucket(memories[..i], Fact)
      invariant preferences == Bucket(memories[..i], Preference)
      invariant context == Bucket(memories[..i], Context)
    {
      assert memories[..i + 1][..i] == memories[..i];
      var text := EntryText(memories[i]);
      var lowerText := ToLower(text);
      if MentionsAny(lowerText, PreferenceWords) {
        preferences := preferences + [text];
      } else if MentionsAny(lowerText, FactWords) {
        facts := facts + [text];
      } else {
        context := context + [text];
      }
    }
    assert memories[..|memories|] == memories;
    m := ConversationMemory(facts, preferences, context);
  }

  // ---------------------------------------------------------------------------
  // Context window (`manageContextWindow`)

  /** The system messages (`system` true) or the other messages, in input order. */
  function OfRole(ms: seq<Message>, system: bool): (r: seq<Message>)
    ensures forall m :: m in r <==> m in ms && (m.role == System) == system
  {
    if ms == [] then []
    else OfRole(ms[..|ms| - 1], system)
         + (if (ms[|ms| - 1].role == System) == system then [ms[|ms| - 1]] else [])
  }

  /** `list.slice(-n)` for a positive `n`: the last `n` elements, or all of a shorter list. */
  function LastN(s: seq<Message>, n: nat): (r: seq<Message>)
    ensures |r| == if |s| < n then |s| else n
    ensures r == s[|s| - |r|..]
  {
    if |s| <= n then s else s[|s| - n..]
  }

  /** `manageContextWindow(messages)` */
  function ManageContextWindow(ms: seq<Message>): (r: seq<Message>)
    ensures |ms| <= MaxMessagesInContext ==> r == ms
  {
    if |ms| <= MaxMessagesInContext then ms
    else OfRole(ms, true) + LastN(OfRole(ms, false), MaxMessagesInContext)
  }

  lemma {:induction false} OfRolePartition(ms: seq<Message>)
    ensures |OfRole(ms, true)| + |OfRole(ms, false)| == |ms|
  {
    if ms != [] {
      OfRolePartition(ms[..|ms| - 1]);
    }
  }

  /**
   * A long history keeps every system message, first and in order, followed by
   * the 20 most recent other messages in order; its length is the system count
   * plus at most 20, and never more than the input's.
   */
  lemma ContextWindowShape(ms: seq<Message>)
    requires |ms| > MaxMessagesInContext
    ensures var r := ManageContextWindow(ms);
      var sys := OfRole(ms, true);
      var others := OfRole(ms, false);
      && r[..|sys|] == sys
      && r[|sys|..] == others[|others| - |r[|sys|..]|..]
      && |r| == |sys| + (if |others| < MaxMessagesInContext then |others| else MaxMessagesInContext)
      && |r| <= |ms|
      && (forall i :: 0 <= i < |r| ==> (r[i].role == System <==> i < |sys|))
      && (forall m :: m in ms && m.role == System ==> m in r)
  {
    var r := ManageContextWindow(ms);
    var sys := OfRole(ms, true);
    var others := OfRole(ms, false);
    OfRolePartition(ms);
    assert r == sys + LastN(others, MaxMessagesInContext);
    forall i | 0 <= i < |r| ensures r[i].role == System <==> i < |sys| {
      if i < |sys| {
        assert r[i] == sys[i] && sys[i] in sys;
      } else {
        var j := i - |sys|;
        assert r[i] == LastN(others, MaxMessagesInContext)[j];
        assert r[i] in others;
      }
    }
  }

  // ---------------------------------------------------------------------------
  // Transcript (`extractConversationText`) and the storing threshold

  /** `${msg.role}: ${part.text}` for each text part; an undefined text prints as "undefined". */
  function TextPartLines(role: Role, ps: seq<Part>): seq<string> {
    if ps == [] then []
    else
      (if ps[0].kind == "text"
       then [RoleName(role) + ": " + (if ps[0].text.Some? then ps[0].text.value else "undefined")]
       else [])
      + TextPartLines(role, ps[1..])
  }

  /** The transcript lines one message contributes. */
  function MessageLines(m: Message): seq<string> {
    if m.parts.Some? then TextPartLines(m.role, m.parts.value)
    else [RoleName(m.role) + ": " + OrElse(m.content, "")]
  }

  /** The text `extractConversationText` maps one message to. */
  function MessageText(m: Message): string {
    Join(MessageLines(m), "\n")
  }

  function MessageTexts(ms: seq<Message>): (r: seq<string>)
    ensures |r| == |ms|
    ensures forall i :: 0 <= i < |ms| ==> r[i] == MessageText(ms[i])
  {
    if ms == [] then [] else MessageTexts(ms[..|ms| - 1]) + [MessageText(ms[|ms| - 1])]
  }

  /** `extractConversationText(messages)` */
  function ExtractConversationText(ms: seq<Message>): string {
    Join(MessageTexts(ms), "\n")
  }

  /** All transcript lines of a conversation, message after message. */
  function AllLines(ms: seq<Message>): seq<string> {
    if ms == [] then [] else AllLines(ms[..|ms| - 1]) + MessageLines(ms[|ms| - 1])
  }

  /**
   * When every message contributes at least one line, the transcript is those
   * lines, one per text part (or one per content-only message), joined by newlines.
   */
  lemma {:induction false} TranscriptIsLines(ms: seq<Message>)
    requires forall i :: 0 <= i < |ms| ==> MessageLines(ms[i]) != []
    ensures ExtractConversationText(ms) == Join(AllLines(ms), "\n")
    ensures |ms| > 0 ==> AllLines(ms) != []
  {
    if ms != [] {
      var init := ms[..|ms| - 1];
      var last := ms[|ms| - 1];
      assert MessageTexts(ms) == MessageTexts(init) + [MessageText(last)];
      if init == [] {
        assert AllLines(ms) == MessageLines(last);
        assert MessageTexts(ms) == [MessageText(last)];
      } else {
        TranscriptIsLines(init);
        JoinSnoc(MessageTexts(init), MessageText(last), "\n");
        JoinAppend(AllLines(init), MessageLines(last), "\n");
      }
    }
  }

  /** What `storeMemory` hands to the memory service's `add`. */
  datatype Submission = Submission(
    userId: string,
    content: string,
    conversationId: Option<string>,
    timestamp: int,
    messageCount: nat,
    source: string)

  /**
   * `storeMemory(messages, conversationId)`: the submission made, if any.
   * A failure of `add` is logged and swallowed, so nothing else is observable.
   */
  function StoreMemory(userId: string, ms: seq<Message>, conversationId: Option<string>, now: int): (r: Option<Submission>)
    ensures r.Some? <==> |ExtractConversationText(ms)| > MinTranscriptLength
    ensures r.Some? ==> r.value.content == ExtractConversationText(ms) && r.value.userId == userId
                        && r.value.messageCount == |ms| && r.value.conversationId == conversationId
  {
    var conversationText := ExtractConversationText(ms);
    if |conversationText| > MinTranscriptLength then
      Some(Submission(userId, conversationText, conversationId, now, |ms|, "chat_session"))
    else None
  }

  /** A lone user message without parts is stored only when its content exceeds 94 characters. */
  lemma SingleUserMessageThreshold(userId: string, m: Message, conversationId: Option<string>, now: int)
    requires m.role == User && m.parts.None?
    ensures StoreMemory(userId, [m], conversationId, now).Some? <==> |OrElse(m.content, "")| > 94
  {
    assert MessageTexts([m]) == [MessageText(m)];
    assert ExtractConversationText([m]) == "user: " + OrElse(m.content, "");
  }

  // ---------------------------------------------------------------------------
  // Retrieval (`getRelevantMemories`) and the enriched prompt

  /** `.map(m => m.memory || m.text || '').filter(Boolean)` */
  function NonEmptyTexts(es: seq<MemoryEntry>): (r: seq<string>)
    ensures forall t :: t in r ==> t != ""
    ensures |r| <= |es|
  {
    if es == [] then []
    else (if EntryText(es[0]) != "" then [EntryText(es[0])] else []) + NonEmptyTexts(es[1..])
  }

  /** The end index of `list.slice(0, end)` on a list of length `len`. */
  function SliceEnd(end: int, len: nat): (k: nat)
    ensures k <= len
    ensures end >= 0 ==> k == if end < len then end else len
  {
    if end >= 0 then (if end < len then end else len)
    else if len + end > 0 then len + end else 0
  }

  /** `getRelevantMemories(query, limit)` for the search result `search`. */
  function GetRelevantMemories(search: Option<seq<MemoryEntry>>, limit: int): (r: seq<string>)
    ensures search.None? ==> r == []
    ensures search.Some? ==> IsPrefixOf(r, NonEmptyTexts(search.value))
    ensures limit >= 0 ==> |r| <= limit
    ensures search.Some? && limit >= 0 ==>
      |r| == if limit < |NonEmptyTexts(search.value)| then limit else |NonEmptyTexts(search.value)|
    ensures search.Some? && limit < 0 ==>
      |r| == if |NonEmptyTexts(search.value)| + limit > 0 then |NonEmptyTexts(search.value)| + limit else 0
    ensures forall t :: t in r ==> t != ""
  {
    match search
    case None => []
    case Some(es) =>
      var texts := NonEmptyTexts(es);
      var relevant := texts[..SliceEnd(limit, |texts|)];
      assert texts[..|relevant|] == relevant;
      assert forall t :: t in relevant ==> t in texts;
      relevant
  }

  predicate IsPrefixOf(a: seq<string>, b: seq<string>) {
    |a| <= |b| && b[..|a|] == a
  }

  const RelevantHeading: string := "\n\nRelevant context from previous conversations:"
  const PreferencesHeading: string := "\n\nUser preferences:"
  const FactsHeading: string := "\n\nKnown facts about user:"
  const MemoryInstruction: string :=
    "\n\nPlease use this context to provide more personalized and relevant responses. Reference past conversations naturally when appropriate, but don't mention that you're using stored memory unless specifically asked."

  /** `\n1. a\n2. b ...` */
  function Numbered(items: seq<string>): string {
    if items == [] then ""
    else Numbered(items[..|items| - 1]) + "\n" + NatToString(|items|) + ". " + items[|items| - 1]
  }

  /** `\n- a\n- b ...` */
  function Bulleted(items: seq<string>): string {
    if items == [] then "" else Bulleted(items[..|items| - 1]) + "\n- " + items[|items| - 1]
  }

  function AtMost3(items: seq<string>): seq<string> {
    if |items| <= 3 then items else items[..3]
  }

  /** `prompt` followed by a heading and up to three bulleted items; unchanged for an empty list. */
  function WithBullets(prompt: string, heading: string, items: seq<string>): (r: string)
    ensures |r| >= |prompt| && r[..|prompt|] == prompt
    ensures items == [] ==> r == prompt
  {
    if items == [] then prompt else prompt + heading + Bulleted(AtMost3(items))
  }

  /** `prompt` followed by the numbered relevant memories, when the query is truthy and found some. */
  function WithRelevant(prompt: string, query: Option<string>, search: Option<seq<MemoryEntry>>): (r: string)
    ensures |r| >= |prompt| && r[..|prompt|] == prompt
    ensures !Truthy(query) || GetRelevantMemories(search, 3) == [] ==> r == prompt
  {
    var relevant := GetRelevantMemories(search, 3);
    if Truthy(query) && relevant != [] then prompt + RelevantHeading + Numbered(relevant) else prompt
  }

  /** The prompt `createEnrichedSystemPrompt` builds from what the two memory calls return. */
  function EnrichedPrompt(basePrompt: string, query: Option<string>,
                          search: Option<seq<MemoryEntry>>, fetched: Option<seq<MemoryEntry>>): string
  {
    var all := AllMemories(fetched);
    WithBullets(WithBullets(WithRelevant(basePrompt, query, search), PreferencesHeading, all.preferences),
                FactsHeading, all.facts)
    + MemoryInstruction
  }

  /** The prompt starts with the base prompt. */
  lemma EnrichedPromptStartsWithBase(basePrompt: string, query: Option<string>,
                                     search: Option<seq<MemoryEntry>>, fetched: Option<seq<MemoryEntry>>)
    ensures StartsWith(EnrichedPrompt(basePrompt, query, search, fetched), basePrompt)
  {
    var all := AllMemories(fetched);
    var p1 := WithRelevant(basePrompt, query, search);
    var p2 := WithBullets(p1, PreferencesHeading, all.preferences);
    var p3 := WithBullets(p2, FactsHeading, all.facts);
    assert p3[..|basePrompt|] == p2[..|p1|][..|basePrompt|] == p1[..|basePrompt|];
    PrefixOfAppend(p3, MemoryInstruction, |basePrompt|);
  }

  /** The prompt always ends with the instruction, whether or not any memory was found. */
  lemma EnrichedPromptEndsWithInstruction(basePrompt: string, query: Option<string>,
                                          search: Option<seq<MemoryEntry>>, fetched: Option<seq<MemoryEntry>>)
    ensures var p := EnrichedPrompt(basePrompt, query, search, fetched);
      |p| >= |MemoryInstruction| && p[|p| - |MemoryInstruction|..] == MemoryInstruction
  {
    var all := AllMemories(fetched);
    SuffixOfAppend(WithBullets(WithBullets(WithRelevant(basePrompt, query, search), PreferencesHeading, all.preferences),
                               FactsHeading, all.facts), MemoryInstruction);
  }

  /** With nothing relevant and no preference or fact, the prompt is the base prompt and the instruction. */
  lemma EnrichedPromptWithoutMemories(basePrompt: string, query: Option<string>,
                                      search: Option<seq<MemoryEntry>>, fetched: Option<seq<MemoryEntry>>)
    requires !Truthy(query) || GetRelevantMemories(search, 3) == []
    requires AllMemories(fetched).preferences == [] && AllMemories(fetched).facts == []
    ensures EnrichedPrompt(basePrompt, query, search, fetched) == basePrompt + MemoryInstruction
  {
  }

  lemma PrefixOfAppend(a: string, b: string, n: nat)
    requires n <= |a|
    ensures (a + b)[..n] == a[..n]
  {
  }

  lemma SuffixOfAppend(a: string, b: string)
    ensures (a + b)[|a + b| - |b|..] == b
  {
  }

  /** Only the first three preferences (or facts) reach the prompt. */
  lemma WithBulletsUsesFirstThree(prompt: string, heading: string, a: seq<string>, b: seq<string>)
    requires |a| >= 3 && |b| >= 3 && a[..3] == b[..3]
    ensures WithBullets(prompt, heading, a) == WithBullets(prompt, heading, b)
  {
    assert AtMost3(a) == a[..3] by {
      if |a| == 3 { assert a[..3] == a; }
    }
    assert AtMost3(b) == b[..3] by {
      if |b| == 3 { assert b[..3] == b; }
    }
  }

  /** The `relevantMemories.forEach` loop: one numbered line per memory. */
  method AppendNumbered(prompt: string, items: seq<string>) returns (r: string)
    ensures r == prompt + Numbered(items)
  {
    r := prompt;
    for index := 0 to |items|
      invariant r == prompt + Numbered(items[..index])
    {
      assert items[..index + 1][..index] == items[..index];
      r := r + "\n" + NatToString(index + 1) + ". " + items[index];
    }
    assert items[..|items|] == items;
  }

  /** The `slice(0, 3).forEach` loops: one bulleted line per item. */
  method AppendBulleted(prompt: string, items: seq<string>) returns (r: string)
    ensures r == prompt + Bulleted(items)
  {
    r := prompt;
    for index := 0 to |items|
      invariant r == prompt + Bulleted(items[..index])
    {
      assert items[..index + 1][..index] == items[..index];
      r := r + "\n- " + items[index];
    }
    assert items[..|items|] == items;
  }

  /** `createEnrichedSystemPrompt(basePrompt, currentQuery)`, appending block by block. */
  method CreateEnrichedSystemPrompt(basePrompt: string, currentQuery: Option<string>,
                                    search: Option<seq<MemoryEntry>>, fetched: Option<seq<MemoryEntry>>)
    returns (enrichedPrompt: string)
    ensures enrichedPrompt == EnrichedPrompt(basePrompt, currentQuery, search, fetched)
  {
    enrichedPrompt := basePrompt;
    if Truthy(currentQuery) {
      var relevantMemories := GetRelevantMemories(search, 3);
      if |relevantMemories| > 0 {
        enrichedPrompt := AppendNumbered(enrichedPrompt + RelevantHeading, relevantMemories);
      }
    }
    assert enrichedPrompt == WithRelevant(basePrompt, currentQuery, search);

    var allMemories := GetAllMemories(fetched);

    ghost var before := enrichedPrompt;
    if |allMemories.preferences| > 0 {
      enrichedPrompt := AppendBulleted(enrichedPrompt + PreferencesHeading, AtMost3(allMemories.preferences));
    }
    assert enrichedPrompt == WithBullets(before, PreferencesHeading, allMemories.preferences);

    before := enrichedPrompt;
    if |allMemories.facts| > 0 {
      enrichedPrompt := AppendBulleted(enrichedPrompt + FactsHeading, AtMost3(allMemories.facts));
    }
    assert enrichedPrompt == WithBullets(before, FactsHeading, allMemories.facts);

    enrichedPrompt := enrichedPrompt + MemoryInstruction;
  }

  // ---------------------------------------------------------------------------
  // Cleanup (`cleanupOldMemories`) and statistics (`getMemoryStats`)

  /** `cutoffDate.setDate(cutoffDate.getDate() - daysOld)`, as whole days of milliseconds. */
  function Cutoff(now: int, daysOld: int): int {
    now - daysOld * MillisPerDay
  }

  /** Whether the cleanup loop tries to delete `e`; an entry without a timestamp is kept. */
  predicate DueForDeletion(e: MemoryEntry, daysOld: int, cutoff: int) {
    daysOld == 0 || (e.timestamp.Some? && e.timestamp.value < cutoff)
  }

  /** The ids the loop calls `delete` on, in order. */
  function DeletionAttempts(es: seq<MemoryEntry>, daysOld: int, cutoff: int): (r: seq<string>)
    ensures |r| <= |es|
  {
    if es == [] then []
    else DeletionAttempts(es[..|es| - 1], daysOld, cutoff)
         + (if DueForDeletion(es[|es| - 1], daysOld, cutoff) then [es[|es| - 1].id] else [])
  }

  /** How many of those deletions succeed, by the oracle `deleteOk`. */
  function SuccessfulDeletions(es: seq<MemoryEntry>, daysOld: int, cutoff: int, deleteOk: string -> bool): nat {
    if es == [] then 0
    else SuccessfulDeletions(es[..|es| - 1], daysOld, cutoff, deleteOk)
         + (if DueForDeletion(es[|es| - 1], daysOld, cutoff) && deleteOk(es[|es| - 1].id) then 1 else 0)
  }

  /** The count never exceeds the attempts, and equals them when every delete succeeds. */
  lemma {:induction false} DeletionCountBounds(es: seq<MemoryEntry>, daysOld: int, cutoff: int, deleteOk: string -> bool)
    ensures SuccessfulDeletions(es, daysOld, cutoff, deleteOk) <= |DeletionAttempts(es, daysOld, cutoff)| <= |es|
    ensures (forall e :: e in es ==> deleteOk(e.id))
            ==> SuccessfulDeletions(es, daysOld, cutoff, deleteOk) == |DeletionAttempts(es, daysOld, cutoff)|
  {
    if es != [] {
      var init := es[..|es| - 1];
      assert forall e :: e in init ==> e in es;
      DeletionCountBounds(init, daysOld, cutoff, deleteOk);
    }
  }

  /** With `daysOld = 0` every entry is attempted, whatever its timestamp: a full wipe. */
  lemma {:induction false} ZeroDaysDeletesAll(es: seq<MemoryEntry>, cutoff: int)
    ensures |DeletionAttempts(es, 0, cutoff)| == |es|
    ensures forall i :: 0 <= i < |es| ==> DeletionAttempts(es, 0, cutoff)[i] == es[i].id
  {
    if es != [] {
      ZeroDaysDeletesAll(es[..|es| - 1], cutoff);
    }
  }

  /** With `daysOld ≠ 0` an entry without a timestamp is never attempted. */
  lemma {:induction false} UndatedEntriesKept(es: seq<MemoryEntry>, daysOld: int, cutoff: int)
    requires daysOld != 0
    ensures forall id :: id in DeletionAttempts(es, daysOld, cutoff) ==>
      exists e :: e in es && e.id == id && e.timestamp.Some? && e.timestamp.value < cutoff
  {
    if es != [] {
      var init := es[..|es| - 1];
      UndatedEntriesKept(init, daysOld, cutoff);
      forall id | id in DeletionAttempts(es, daysOld, cutoff)
        ensures exists e :: e in es && e.id == id && e.timestamp.Some? && e.timestamp.value < cutoff
      {
        if id in DeletionAttempts(init, daysOld, cutoff) {
          var e :| e in init && e.id == id && e.timestamp.Some? && e.timestamp.value < cutoff;
          assert e in es;
        } else {
          assert es[|es| - 1] in es;
        }
      }
    }
  }

  /**
   * `cleanupOldMemories(daysOld)`: the ids it calls `delete` on and the count it
   * returns. A failed delete is counted out and the loop goes on; a failed
   * `getAll` returns 0.
   */
  method CleanupOldMemories(fetched: Option<seq<MemoryEntry>>, daysOld: int, now: int, deleteOk: string -> bool)
    returns (attempted: seq<string>, deletedCount: nat)
    ensures fetched.None? ==> attempted == [] && deletedCount == 0
    ensures fetched.Some? ==>
      && attempted == DeletionAttempts(fetched.value, daysOld, Cutoff(now, daysOld))
      && deletedCount == SuccessfulDeletions(fetched.value, daysOld, Cutoff(now, daysOld), deleteOk)
  {
    attempted := [];
    deletedCount := 0;
    if fetched.None? {
      return;
    }
    var memories := fetched.value;
    var cutoffDate := Cutoff(now, daysOld);
    for i := 0 to |memories|
      invariant attempted == DeletionAttempts(memories[..i], daysOld, cutoffDate)
      invariant deletedCount == SuccessfulDeletions(memories[..i], daysOld, cutoffDate, deleteOk)
    {
      assert memories[..i + 1][..i] == memories[..i];
      var memory := memories[i];
      if daysOld == 0 || (memory.timestamp.Some? && memory.timestamp.value < cutoffDate) {
        attempted := attempted + [memory.id];
        if deleteOk(memory.id) {
          deletedCount := deletedCount + 1;
        }
      }
    }
    assert memories[..|memories|] == memories;
  }

  /** `getMemoryStats()` */
  datatype MemoryStats = MemoryStats(totalMemories: nat, facts: nat, preferences: nat, context: nat,
                                     lastUpdated: Option<int>)

  /** The `reduce` from `new Date(0)`: the latest timestamp, a missing one counting as the epoch. */
  function LatestTimestamp(es: seq<MemoryEntry>): int {
    if es == [] then 0
    else
      var latest := LatestTimestamp(es[..|es| - 1]);
      var e := es[|es| - 1];
      var memoryDate := if e.timestamp.Some? then e.timestamp.value else 0;
      if memoryDate > latest then memoryDate else latest
  }

  /** The reduce yields the epoch or one of the timestamps, and no timestamp is later. */
  lemma {:induction false} LatestTimestampIsMax(es: seq<MemoryEntry>)
    ensures LatestTimestamp(es) >= 0
    ensures forall e :: e in es && e.timestamp.Some? ==> e.timestamp.value <= LatestTimestamp(es)
    ensures LatestTimestamp(es) == 0
            || exists e :: e in es && e.timestamp == Some(LatestTimestamp(es))
  {
    if es != [] {
      var init := es[..|es| - 1];
      LatestTimestampIsMax(init);
      assert forall e :: e in es ==> e in init || e == es[|es| - 1];
      if LatestTimestamp(es) == LatestTimestamp(init) && LatestTimestamp(init) != 0 {
        var e :| e in init && e.timestamp == Some(LatestTimestamp(init));
        assert e in es;
      }
    }
  }

  /**
   * `getMemoryStats()`: `first` is what the `getAll` inside `getAllMemories`
   * returns, `second` what the stats' own `getAll` returns.
   */
  method GetMemoryStats(first: Option<seq<MemoryEntry>>, second: Option<seq<MemoryEntry>>)
    returns (stats: MemoryStats)
    ensures second.None? ==> stats == MemoryStats(0, 0, 0, 0, None)
    ensures second.Some? ==>
      var all := AllMemories(first);
      && stats.totalMemories == |second.value|
      && stats.facts == |all.facts| && stats.preferences == |all.preferences| && stats.context == |all.context|
      && (stats.lastUpdated.Some? <==> |second.value| > 0)
      && (stats.lastUpdated.Some? ==> stats.lastUpdated.value == LatestTimestamp(second.value))
  {
    var allMemories := GetAllMemories(first);
    if second.None? {
      return MemoryStats(0, 0, 0, 0, None);
    }
    var memories := second.value;
    var lastUpdated := if |memories| > 0 then Some(LatestTimestamp(memories)) else None;
    stats := MemoryStats(|memories|, |allMemories.facts|, |allMemories.preferences|,
                         |allMemories.context|, lastUpdated);
  }

  /** When both fetches see the same entries, the three counts add up to the total. */
  lemma StatsCountsAddUp(es: seq<MemoryEntry>)
    ensures var all := AllMemories(Some(es));
      |all.facts| + |all.preferences| + |all.context| == |es|
  {
    BucketsPartition(es);
  }
}
