/**
 * The `/api/memory` endpoint of app/api/memory/route.ts: `GET` lists the
 * signed-in user's memories bucket by bucket, `DELETE` wipes them. The
 * memory service's answers come in as parameters (`fetched`, `deleteOk`), as
 * they do for the memory manager itself, and so does the clock.
 */
module MemoryRoute {
  import opened Wrappers
  import opened Strings
  import opened Memory

  const SignInRequired: string := "Unauthorized - please sign in"
  const FetchFailure: string := "Failed to fetch memories"
  const ClearFailure: string := "Failed to clear memories"
  const ClearedMessage: string := "All memories cleared successfully"

  /** One listed memory: `{ id, memory, type, timestamp }`. */
  datatype MemoryItem = MemoryItem(id: string, memory: string, kind: string, timestamp: string)

  /** What the handlers answer. */
  datatype Response =
    | Denied(error: string)
    | Failed(error: string)
    | Listing(memories: seq<MemoryItem>, total: nat, userId: string)
    | Cleared(success: bool, message: string, userId: string)

  /** The HTTP status of a response. */
  function Status(r: Response): (status: int)
    ensures status == 401 <==> r.Denied?
    ensures status == 500 <==> r.Failed?
  {
    match r
    case Denied(_) => 401
    case Failed(_) => 500
    case _ => 200
  }

  /** `bucket.map((text, index) => ({ id: prefix + index, memory: text, type: kind, timestamp }))` */
  function Tagged(items: seq<string>, prefix: string, kind: string, stamp: string): (r: seq<MemoryItem>)
    ensures |r| == |items|
    ensures forall i :: 0 <= i < |items| ==> r[i] == MemoryItem(prefix + NatToString(i), items[i], kind, stamp)
  {
    if items == [] then []
    else Tagged(items[..|items| - 1], prefix, kind, stamp)
         + [MemoryItem(prefix + NatToString(|items| - 1), items[|items| - 1], kind, stamp)]
  }

  /** The spread of the three mapped buckets: facts, then preferences, then context. */
  function MemoryList(m: ConversationMemory, stamp: string): seq<MemoryItem> {
    Tagged(m.facts, "fact-", "fact", stamp)
    + Tagged(m.preferences, "pref-", "preference", stamp)
    + Tagged(m.context, "ctx-", "context", stamp)
  }

  /**
   * The list holds the facts first, then the preferences, then the context,
   * each numbered from 0 within its own bucket and typed after its bucket.
   */
  lemma MemoryListLayout(m: ConversationMemory, stamp: string)
    ensures var l := MemoryList(m, stamp);
      && |l| == |m.facts| + |m.preferences| + |m.context|
      && (forall i :: 0 <= i < |m.facts| ==>
            l[i] == MemoryItem("fact-" + NatToString(i), m.facts[i], "fact", stamp))
      && (forall i :: 0 <= i < |m.preferences| ==>
            l[|m.facts| + i] == MemoryItem("pref-" + NatToString(i), m.preferences[i], "preference", stamp))
      && (forall i :: 0 <= i < |m.context| ==>
            l[|m.facts| + |m.preferences| + i] == MemoryItem("ctx-" + NatToString(i), m.context[i], "context", stamp))
  {
  }

  /** Every fetched memory is listed once: the length of the list is the number of entries the service returned. */
  lemma ListingCountsEveryEntry(es: seq<MemoryEntry>, stamp: string)
    ensures |MemoryList(AllMemories(Some(es)), stamp)| == |es|
  {
    MemoryListLayout(AllMemories(Some(es)), stamp);
    BucketsPartition(es);
  }

  /**
   * `GET`: 401 without a signed-in user, before any manager exists; 500 when
   * the manager cannot be built; otherwise the listing, its length as `total`,
   * and the user id. `getAllMemories` answers empty buckets when the service
   * fails, so a failed fetch lists nothing rather than answering 500.
   */
  method Get(userId: Option<string>, apiKey: Option<string>, fetched: Option<seq<MemoryEntry>>, stamp: string)
    returns (response: Response)
    ensures !Truthy(userId) ==> response == Denied(SignInRequired)
    ensures Truthy(userId) && !Truthy(apiKey) ==> response == Failed(FetchFailure)
    ensures Truthy(userId) && Truthy(apiKey) ==>
      && response.Listing?
      && response.memories == MemoryList(AllMemories(fetched), stamp)
      && response.total == |response.memories|
      && response.userId == userId.value
    ensures response.Listing? && fetched.Some? ==> response.total == |fetched.value|
    ensures response.Listing? && fetched.None? ==> response.total == 0
  {
    if !Truthy(userId) {
      return Denied(SignInRequired);
    }
    var manager := NewManager(apiKey, userId.value);
    if manager.Err? {
      return Failed(FetchFailure);
    }
    var allMemories := GetAllMemories(fetched);
    var memories := MemoryList(allMemories, stamp);
    if fetched.Some? {
      ListingCountsEveryEntry(fetched.value, stamp);
    }
    response := Listing(memories, |memories|, userId.value);
  }

  /**
   * `DELETE`: `cleanupOldMemories(0)` asks the service to delete every entry it
   * returned, in order, and the handler reports success whatever came of the
   * fetch and of each delete.
   */
  method Delete(userId: Option<string>, apiKey: Option<string>, fetched: Option<seq<MemoryEntry>>,
                now: int, deleteOk: string -> bool)
    returns (response: Response, attempted: seq<string>)
    ensures !Truthy(userId) ==> response == Denied(SignInRequired) && attempted == []
    ensures Truthy(userId) && !Truthy(apiKey) ==> response == Failed(ClearFailure) && attempted == []
    ensures Truthy(userId) && Truthy(apiKey) ==> response == Cleared(true, ClearedMessage, userId.value)
    ensures fetched.None? ==> attempted == []
    ensures Truthy(userId) && Truthy(apiKey) && fetched.Some? ==>
      && |attempted| == |fetched.value|
      && forall i :: 0 <= i < |attempted| ==> attempted[i] == fetched.value[i].id
  {
    attempted := [];
    if !Truthy(userId) {
      return Denied(SignInRequired), attempted;
    }
    var manager := NewManager(apiKey, userId.value);
    if manager.Err? {
      return Failed(ClearFailure), attempted;
    }
    var deletedCount;
    attempted, deletedCount := CleanupOldMemories(fetched, 0, now, deleteOk);
    if fetched.Some? {
      ZeroDaysDeletesAll(fetched.value, Cutoff(now, 0));
    }
    response := Cleared(true, ClearedMessage, userId.value);
  }
}
