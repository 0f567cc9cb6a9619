/** The client-side chat state of src/context/ChatContext.tsx: the optimistic insert of the
    user's message into the cached pages of messages, the streamed assistant answer
    accumulated into a single `'ai-response'` message, the rollback on error, and the
    input/loading fields the handlers set. */
module ChatContext {
  import opened Wrappers

  /** A message as the client caches it. */
  datatype Message = Message(createdAt: string, id: string, text: string, isUserMessage: bool)
  /** One page of `getFileMessages`. */
  datatype Page = Page(messages: seq<Message>, nextCursor: Option<string>)
  /** The cached infinite-query data: the pages and the cursor each was fetched with. */
  datatype InfiniteData = InfiniteData(pages: seq<Page>, pageParams: seq<Option<string>>)

  const AI_RESPONSE_ID: string := "ai-response"

  /** `{ pages: [], pageParams: [] }` */
  const EMPTY: InfiniteData := InfiniteData([], [])

  /** `pages.flatMap((page) => page.messages)` */
  function Flatten(pages: seq<Page>): seq<Message> {
    if |pages| == 0 then [] else pages[0].messages + Flatten(pages[1..])
  }

  /** The cached messages, flattened (none when nothing is cached): the snapshot taken
      before the optimistic insert. */
  function Snapshot(data: Option<InfiniteData>): seq<Message> {
    if data.None? then [] else Flatten(data.value.pages)
  }

  /** The message the user just typed, as inserted before the server has it. */
  function UserMessage(text: string, id: string, createdAt: string): Message {
    Message(createdAt, id, text, true)
  }

  /** The placeholder for the streamed answer. */
  function AiResponse(text: string, createdAt: string): Message {
    Message(createdAt, AI_RESPONSE_ID, text, false)
  }

  // ---------------------------------------------------------------- optimistic insert

  /** Reading `.messages` of a first page that does not exist throws. */
  datatype UpdaterError = TypeError

  /** The `setInfiniteData` updater of `onMutate`: no data gives the empty pages; otherwise
      `m` goes in front of the first page and all else is kept. */
  function InsertOptimistic(cached: Option<InfiniteData>, m: Message): (r: Result<InfiniteData, UpdaterError>)
    ensures cached.None? ==> r == Ok(EMPTY)
    ensures cached.Some? && |cached.value.pages| == 0 ==> r == Err(TypeError)
    ensures cached.Some? && |cached.value.pages| > 0 ==>
      && r.Ok?
      && |r.value.pages| == |cached.value.pages|
      && r.value.pageParams == cached.value.pageParams
      && r.value.pages[0].messages == [m] + cached.value.pages[0].messages
      && r.value.pages[0].nextCursor == cached.value.pages[0].nextCursor
      && r.value.pages[1..] == cached.value.pages[1..]
  {
    match cached
    case None => Ok(EMPTY)
    case Some(data) =>
      if |data.pages| == 0 then Err(TypeError)
      else
        var latestPage := data.pages[0].(messages := [m] + data.pages[0].messages);
        Ok(data.(pages := data.pages[0 := latestPage]))
  }

  /** Replacing the first page changes the flattened list only in its first part. */
  lemma FlattenReplaceFirst(pages: seq<Page>, p: Page)
    requires |pages| > 0
    ensures Flatten(pages[0 := p]) == p.messages + Flatten(pages[1..])
  {
    assert pages[0 := p][1..] == pages[1..];
  }

  /** The optimistic insert adds exactly the new message, in front, to the flattened list,
      which is the snapshot `onError` rolls back to. */
  lemma InsertOptimisticFlatten(data: InfiniteData, m: Message)
    requires |data.pages| > 0
    ensures InsertOptimistic(Some(data), m).Ok?
    ensures Flatten(InsertOptimistic(Some(data), m).value.pages) == [m] + Snapshot(Some(data))
  {
    var r := InsertOptimistic(Some(data), m).value;
    assert r.pages == data.pages[0 := r.pages[0]];
    FlattenReplaceFirst(data.pages, r.pages[0]);
  }

  /** Which cache entry the `getInfiniteData()` of `onMutate` returns. It is called without
      the `{ fileId, limit }` input that the updater writes under, so the entry it finds is
      an input of the model: that keyed entry, nothing, or some other entry. */
  datatype SnapshotRead = KeyedEntry | NoEntry | OtherEntry(data: InfiniteData)

  /** The context `onMutate` returns, as written: `previousMessages?.pages.flatMap(...) ?? []`
      evaluated after the updater. `[...old.pages]` copies the array but not the page
      objects, and the updater reassigns `messages` of the first page object itself, so a
      snapshot of the keyed entry already holds the optimistic message. */
  function RollbackAsWritten(read: SnapshotRead, cached: Option<InfiniteData>, m: Message): (r: seq<Message>)
    requires cached.None? || |cached.value.pages| > 0
    ensures read.KeyedEntry? && cached.Some? ==> r == [m] + Snapshot(cached)
    ensures read.KeyedEntry? && cached.None? ==> r == []
    ensures read.NoEntry? ==> r == []
    ensures read.OtherEntry? ==> r == Snapshot(Some(read.data))
  {
    match read
    case KeyedEntry =>
      if cached.None? then []
      else
        InsertOptimisticFlatten(cached.value, m);
        Flatten(InsertOptimistic(cached, m).value.pages)
    case NoEntry => []
    case OtherEntry(data) => Flatten(data.pages)
  }

  /** As written, the rollback never takes the optimistic message out: the snapshot of the
      keyed entry starts with it, and a read that finds nothing rolls back to no messages.
      Neither is the list from before the insert. */
  lemma RollbackKeepsOptimistic(data: InfiniteData, m: Message)
    requires |data.pages| > 0
    ensures RollbackAsWritten(KeyedEntry, Some(data), m)[0] == m
    ensures RollbackAsWritten(KeyedEntry, Some(data), m) != Snapshot(Some(data))
    ensures RollbackAsWritten(NoEntry, Some(data), m) == []
    ensures |Snapshot(Some(data))| > 0 ==> RollbackAsWritten(NoEntry, Some(data), m) != Snapshot(Some(data))
  {
    assert |RollbackAsWritten(KeyedEntry, Some(data), m)| == |Snapshot(Some(data))| + 1;
  }

  /** The rollback evidently intended is the snapshot from before the insert: the list after
      the insert, without its first message, is exactly that snapshot. */
  lemma IntendedRollbackUndoesInsert(data: InfiniteData, m: Message)
    requires |data.pages| > 0
    ensures var after := Flatten(InsertOptimistic(Some(data), m).value.pages);
      |after| > 0 && after[0] == m && after[1..] == Snapshot(Some(data))
  {
    InsertOptimisticFlatten(data, m);
  }

  // ---------------------------------------------------------------- the streamed answer

  /** `cached.pages.some((page) => page.messages.some((message) => message.id === 'ai-response'))` */
  predicate HasAiResponse(pages: seq<Page>) {
    exists i, j | 0 <= i < |pages| && 0 <= j < |pages[i].messages| :: pages[i].messages[j].id == AI_RESPONSE_ID
  }

  /** `messages.map(...)` giving every `'ai-response'` message the text `text`. */
  function SetAiText(messages: seq<Message>, text: string): (r: seq<Message>)
    ensures |r| == |messages|
    ensures forall k :: 0 <= k < |messages| ==>
      r[k] == if messages[k].id == AI_RESPONSE_ID then messages[k].(text := text) else messages[k]
  {
    if |messages| == 0 then []
    else
      var m := messages[0];
      [if m.id == AI_RESPONSE_ID then m.(text := text) else m] + SetAiText(messages[1..], text)
  }

  /** The `setInfiniteData` updater run after each read of the stream: with no
      `'ai-response'` anywhere, one holding `acc` goes in front of the first page; otherwise
      the `'ai-response'` messages of the first page take the text `acc`. Other pages are
      kept. */
  function UpsertAiResponse(cached: Option<InfiniteData>, acc: string, now: string): (r: InfiniteData)
    ensures cached.None? ==> r == EMPTY
    ensures cached.Some? ==>
      && |r.pages| == |cached.value.pages|
      && r.pageParams == cached.value.pageParams
      && (|r.pages| > 0 ==> r.pages[1..] == cached.value.pages[1..])
    ensures cached.Some? && |cached.value.pages| > 0 ==>
      && r.pages[0].nextCursor == cached.value.pages[0].nextCursor
      && r.pages[0].messages ==
           if HasAiResponse(cached.value.pages) then SetAiText(cached.value.pages[0].messages, acc)
           else [AiResponse(acc, now)] + cached.value.pages[0].messages
  {
    match cached
    case None => EMPTY
    case Some(data) =>
      if |data.pages| == 0 then data
      else
        var first := data.pages[0];
        var updatedMessages :=
          if HasAiResponse(data.pages) then SetAiText(first.messages, acc)
          else [AiResponse(acc, now)] + first.messages;
        data.(pages := data.pages[0 := first.(messages := updatedMessages)])
  }

  /** Messages without an `'ai-response'` are left as they are. */
  lemma {:induction false} SetAiTextNoAi(messages: seq<Message>, text: string)
    requires forall k :: 0 <= k < |messages| ==> messages[k].id != AI_RESPONSE_ID
    ensures SetAiText(messages, text) == messages
  {
    var r := SetAiText(messages, text);
    assert forall k :: 0 <= k < |messages| ==> r[k] == messages[k];
  }

  /** The upsert keeps an `'ai-response'` present once the first page exists. */
  lemma UpsertHasAiResponse(data: InfiniteData, acc: string, now: string)
    requires |data.pages| > 0
    ensures HasAiResponse(UpsertAiResponse(Some(data), acc, now).pages)
  {
    var r := UpsertAiResponse(Some(data), acc, now);
    if HasAiResponse(data.pages) {
      var i, j :| 0 <= i < |data.pages| && 0 <= j < |data.pages[i].messages|
                  && data.pages[i].messages[j].id == AI_RESPONSE_ID;
      if i == 0 {
        assert r.pages[0].messages[j].id == AI_RESPONSE_ID;
      } else {
        assert r.pages[i] == r.pages[1..][i - 1] == data.pages[1..][i - 1] == data.pages[i];
        assert r.pages[i].messages[j].id == AI_RESPONSE_ID;
      }
    } else {
      assert r.pages[0].messages[0].id == AI_RESPONSE_ID;
    }
  }

  /** Setting the answer's text twice keeps the second text. */
  lemma SetAiTextTwice(messages: seq<Message>, a: string, b: string)
    ensures SetAiText(SetAiText(messages, a), b) == SetAiText(messages, b)
  {
    var lhs, rhs := SetAiText(SetAiText(messages, a), b), SetAiText(messages, b);
    assert forall k :: 0 <= k < |messages| ==> lhs[k] == rhs[k];
  }

  /** Setting the text after inserting the answer is inserting it with that text. */
  lemma SetAiTextAfterInsert(messages: seq<Message>, a: string, b: string, t: string)
    requires forall k :: 0 <= k < |messages| ==> messages[k].id != AI_RESPONSE_ID
    ensures SetAiText([AiResponse(a, t)] + messages, b) == [AiResponse(b, t)] + messages
  {
    SetAiTextNoAi(messages, b);
    var lhs := SetAiText([AiResponse(a, t)] + messages, b);
    assert lhs[0] == AiResponse(b, t);
    assert lhs[1..] == SetAiText(messages, b);
  }

  /** Two page lists that agree on the first page and on the rest are equal. */
  lemma SamePages(p: seq<Page>, q: seq<Page>)
    requires |p| == |q| > 0 && p[0] == q[0] && p[1..] == q[1..]
    ensures p == q
  {
    assert forall i :: 0 < i < |p| ==> p[i] == p[1..][i - 1] == q[1..][i - 1] == q[i];
  }

  /** Upserting twice is upserting the second text once: the message created by the first
      read is the one later reads update. This is why the loop of `onSuccess` ends with the
      whole answer in a single message. */
  lemma UpsertTwice(cached: Option<InfiniteData>, a: string, b: string, t: string, t': string)
    ensures UpsertAiResponse(Some(UpsertAiResponse(cached, a, t)), b, t') == UpsertAiResponse(cached, b, t)
  {
    if cached.Some? && |cached.value.pages| > 0 {
      var data := cached.value;
      var r1 := UpsertAiResponse(cached, a, t);
      var r2 := UpsertAiResponse(Some(r1), b, t');
      var r := UpsertAiResponse(cached, b, t);
      UpsertHasAiResponse(data, a, t);
      var m := data.pages[0].messages;
      assert r2.pages[0].messages == SetAiText(r1.pages[0].messages, b);
      if HasAiResponse(data.pages) {
        SetAiTextTwice(m, a, b);
      } else {
        assert forall k :: 0 <= k < |m| ==> m[k].id != AI_RESPONSE_ID;
        SetAiTextAfterInsert(m, a, b, t);
      }
      SamePages(r2.pages, r.pages);
    }
  }

  // ---------------------------------------------------------------- at most one answer

  /** How many `'ai-response'` messages a list holds. */
  function AiCount(messages: seq<Message>): nat {
    if |messages| == 0 then 0
    else (if messages[0].id == AI_RESPONSE_ID then 1 else 0) + AiCount(messages[1..])
  }

  lemma {:induction false} AiCountAppend(xs: seq<Message>, ys: seq<Message>)
    ensures AiCount(xs + ys) == AiCount(xs) + AiCount(ys)
  {
    if |xs| > 0 {
      assert (xs + ys)[1..] == xs[1..] + ys;
      AiCountAppend(xs[1..], ys);
    } else {
      assert xs + ys == ys;
    }
  }

  lemma {:induction false} AiCountSetAiText(messages: seq<Message>, text: string)
    ensures AiCount(SetAiText(messages, text)) == AiCount(messages)
  {
    if |messages| > 0 {
      var r := SetAiText(messages, text);
      assert r[1..] == SetAiText(messages[1..], text);
      AiCountSetAiText(messages[1..], text);
    }
  }

  /** Some page holds an `'ai-response'` exactly when the flattened list counts one. */
  lemma {:induction false} HasAiResponseCount(pages: seq<Page>)
    ensures HasAiResponse(pages) <==> AiCount(Flatten(pages)) > 0
  {
    if |pages| > 0 {
      HasAiResponseCount(pages[1..]);
      AiCountAppend(pages[0].messages, Flatten(pages[1..]));
      MessagesHaveAi(pages[0].messages);
      if HasAiResponse(pages) {
        var i, j :| 0 <= i < |pages| && 0 <= j < |pages[i].messages| && pages[i].messages[j].id == AI_RESPONSE_ID;
        if i > 0 {
          assert pages[1..][i - 1].messages[j].id == AI_RESPONSE_ID;
        }
      }
      if HasAiResponse(pages[1..]) {
        var i, j :| 0 <= i < |pages[1..]| && 0 <= j < |pages[1..][i].messages| && pages[1..][i].messages[j].id == AI_RESPONSE_ID;
        assert pages[i + 1].messages[j].id == AI_RESPONSE_ID;
      }
    }
  }

  lemma {:induction false} MessagesHaveAi(messages: seq<Message>)
    ensures (exists j | 0 <= j < |messages| :: messages[j].id == AI_RESPONSE_ID) <==> AiCount(messages) > 0
  {
    if |messages| > 0 {
      MessagesHaveAi(messages[1..]);
      if exists j | 0 <= j < |messages| :: messages[j].id == AI_RESPONSE_ID {
        var j :| 0 <= j < |messages| && messages[j].id == AI_RESPONSE_ID;
        if j > 0 { assert messages[1..][j - 1].id == AI_RESPONSE_ID; }
      }
      if exists j | 0 <= j < |messages[1..]| :: messages[1..][j].id == AI_RESPONSE_ID {
        var j :| 0 <= j < |messages[1..]| && messages[1..][j].id == AI_RESPONSE_ID;
        assert messages[j + 1].id == AI_RESPONSE_ID;
      }
    }
  }

  /** Starting from at most one `'ai-response'`, an upsert on existing pages leaves exactly
      one. */
  lemma UpsertLeavesOneAiResponse(data: InfiniteData, acc: string, now: string)
    requires |data.pages| > 0
    requires AiCount(Flatten(data.pages)) <= 1
    ensures AiCount(Flatten(UpsertAiResponse(Some(data), acc, now).pages)) == 1
  {
    var r := UpsertAiResponse(Some(data), acc, now);
    var m := data.pages[0].messages;
    assert r.pages == data.pages[0 := r.pages[0]];
    FlattenReplaceFirst(data.pages, r.pages[0]);
    AiCountAppend(r.pages[0].messages, Flatten(data.pages[1..]));
    AiCountAppend(m, Flatten(data.pages[1..]));
    assert Flatten(data.pages) == m + Flatten(data.pages[1..]);
    HasAiResponseCount(data.pages);
    if HasAiResponse(data.pages) {
      AiCountSetAiText(m, acc);
    } else {
      AiCountAppend([AiResponse(acc, now)], m);
      assert AiCount([AiResponse(acc, now)]) == 1;
    }
  }

  /** The optimistic user message adds no `'ai-response'`. */
  lemma InsertOptimisticAiCount(data: InfiniteData, m: Message)
    requires |data.pages| > 0 && m.id != AI_RESPONSE_ID
    ensures AiCount(Flatten(InsertOptimistic(Some(data), m).value.pages)) == AiCount(Flatten(data.pages))
  {
    InsertOptimisticFlatten(data, m);
    AiCountAppend([m], Flatten(data.pages));
  }

  /** Over one send, the cache never gains a second `'ai-response'`: neither the optimistic
      insert nor the upsert of any answer text does. */
  lemma SendKeepsOneAiResponse(cached: Option<InfiniteData>, m: Message, acc: string, now: string)
    requires m.id != AI_RESPONSE_ID && AiCount(Snapshot(cached)) <= 1
    ensures var u := InsertOptimistic(cached, m);
      u.Ok? ==>
        && AiCount(Snapshot(Some(u.value))) <= 1
        && AiCount(Snapshot(Some(UpsertAiResponse(Some(u.value), acc, now)))) <= 1
  {
    if cached.Some? && |cached.value.pages| > 0 {
      var u := InsertOptimistic(cached, m).value;
      InsertOptimisticAiCount(cached.value, m);
      UpsertLeavesOneAiResponse(u, acc, now);
    }
  }

  // ---------------------------------------------------------------- stream reading

  /** The chunks joined in order. */
  function Concat(chunks: seq<string>): string {
    if |chunks| == 0 then "" else Concat(chunks[..|chunks| - 1]) + chunks[|chunks| - 1]
  }

  /** How reading the body ends after its chunks: a read reporting `done`, or a
      `reader.read()` that rejects. */
  datatype StreamEnd = Done | ReadRejected

  /** A response body: the text chunks read from it (already decoded), then how it ends. */
  datatype StreamBody = StreamBody(chunks: seq<string>, end: StreamEnd)

  /** What `fetch('/api/message', ...)` gives the mutation: a failed request (or a response
      that is not ok), or a response with a body stream or with no body. */
  datatype FetchOutcome = RequestFailed | Responded(body: Option<StreamBody>)

  class ChatSession {
    /** The controlled input. */
    var message: string
    var isLoading: bool
    /** `backupMessage.current` */
    var backupMessage: string
    /** The infinite-query data of `getFileMessages` for `{ fileId, limit }`. */
    var paged: Option<InfiniteData>
    /** The plain query data of `getFileMessages` for `{ fileId }`, which `onError` writes. */
    var flat: Option<seq<Message>>
    /** How many times the file's messages were invalidated. */
    var invalidations: nat

    constructor (cached: Option<InfiniteData>)
      ensures message == "" && !isLoading && backupMessage == ""
      ensures paged == cached && flat == None && invalidations == 0
    {
      message, isLoading, backupMessage := "", false, "";
      paged, flat, invalidations := cached, None, 0;
    }

    /** `handleInputChange` */
    method HandleInputChange(value: string)
      modifies this
      ensures message == value
      ensures isLoading == old(isLoading) && backupMessage == old(backupMessage)
      ensures paged == old(paged) && flat == old(flat) && invalidations == old(invalidations)
    {
      message := value;
    }

    /** `onMutate`: back up and clear the input, insert the user's message optimistically,
        turn loading on, and return the flattened snapshot as context, as the source
        computes it from the entry `read` finds. When the updater throws, the rest is
        skipped and there is no context. */
    method OnMutate(text: string, optimisticId: string, now: string, read: SnapshotRead)
      returns (context: Option<seq<Message>>)
      modifies this
      ensures backupMessage == text && message == ""
      ensures flat == old(flat) && invalidations == old(invalidations)
      ensures var m := UserMessage(text, optimisticId, now);
        var u := InsertOptimistic(old(paged), m);
        && (u.Ok? ==> paged == Some(u.value) && isLoading && context == Some(RollbackAsWritten(read, old(paged), m)))
        && (u.Err? ==> paged == old(paged) && isLoading == old(isLoading) && context.None?)
    {
      backupMessage := text;
      message := "";
      var previousMessages := paged;
      var m := UserMessage(text, optimisticId, now);
      var updated := InsertOptimistic(paged, m);
      if updated.Err? {
        return None;
      }
      paged := Some(updated.value);
      isLoading := true;
      context := Some(RollbackAsWritten(read, previousMessages, m));
    }

    /** `onSuccess`: turn loading off; with a body, read it, after every read adding the
        decoded chunk to `accResponse` and upserting the `'ai-response'`. A read reporting
        done carries no value, which decodes to the empty string, so on a complete stream
        the updater runs once more than there are chunks. A read that rejects ends the
        loop before its upsert, and `readFailed` reports that `onSuccess` threw. */
    method OnSuccess(stream: Option<StreamBody>, now: string) returns (accResponse: string, readFailed: bool)
      modifies this
      ensures !isLoading
      ensures message == old(message) && backupMessage == old(backupMessage)
      ensures flat == old(flat) && invalidations == old(invalidations)
      ensures stream.None? ==> paged == old(paged) && accResponse == "" && !readFailed
      ensures stream.Some? ==>
        && accResponse == Concat(stream.value.chunks)
        && readFailed == stream.value.end.ReadRejected?
        && paged == if readFailed && |stream.value.chunks| == 0 then old(paged)
                    else Some(UpsertAiResponse(old(paged), accResponse, now))
    {
      isLoading := false;
      accResponse, readFailed := "", false;
      if stream.None? {
        return;
      }
      var chunks := stream.value.chunks;
      var done := false;
      var read := 0;
      while !done && !readFailed
        invariant 0 <= read <= |chunks|
        invariant done ==> read == |chunks| && !readFailed && stream.value.end.Done?
        invariant readFailed ==> read == |chunks| && stream.value.end.ReadRejected?
        invariant accResponse == Concat(chunks[..read])
        invariant read == 0 && !done ==> paged == old(paged)
        invariant read > 0 || done ==> paged == Some(UpsertAiResponse(old(paged), accResponse, now))
        invariant !isLoading && message == old(message) && backupMessage == old(backupMessage)
        invariant flat == old(flat) && invalidations == old(invalidations)
        decreases |chunks| - read, if done || readFailed then 0 else 1
      {
        var value: string;
        if read < |chunks| {
          assert chunks[..read + 1] == chunks[..read] + [chunks[read]];
          value := chunks[read];
          read := read + 1;
        } else if stream.value.end.ReadRejected? {
          readFailed := true;
        } else {
          value := "";
          done := true;
        }
        if !readFailed {
          accResponse := Absorb(accResponse, value, now, old(paged));
        }
      }
      assert chunks[..read] == chunks;
    }

    /** The body of one read of `onSuccess`: the decoded chunk goes onto the accumulated
        text and the cache is upserted with it. Whether or not an earlier read already
        upserted, the cache ends as one upsert of the whole text so far. */
    method Absorb(acc: string, value: string, now: string, ghost cached: Option<InfiniteData>)
      returns (acc': string)
      requires paged == cached || paged == Some(UpsertAiResponse(cached, acc, now))
      modifies this
      ensures acc' == acc + value
      ensures paged == Some(UpsertAiResponse(cached, acc', now))
      ensures message == old(message) && isLoading == old(isLoading) && backupMessage == old(backupMessage)
      ensures flat == old(flat) && invalidations == old(invalidations)
    {
      acc' := acc + value;
      if paged != cached {
        UpsertTwice(cached, acc, acc', now, now);
      }
      paged := Some(UpsertAiResponse(paged, acc', now));
    }

    /** `onError`: put the typed text back in the input and write the snapshot (or nothing)
        to the plain `{ fileId }` query data. */
    method OnError(context: Option<seq<Message>>)
      modifies this
      ensures message == old(backupMessage) && flat == Some(context.GetOr([]))
      ensures isLoading == old(isLoading) && backupMessage == old(backupMessage)
      ensures paged == old(paged) && invalidations == old(invalidations)
    {
      message := backupMessage;
      flat := Some(context.GetOr([]));
    }

    /** `onSettled`: loading off, and the file's messages invalidated. */
    method OnSettled()
      modifies this
      ensures !isLoading && invalidations == old(invalidations) + 1
      ensures message == old(message) && backupMessage == old(backupMessage)
      ensures paged == old(paged) && flat == old(flat)
    {
      isLoading := false;
      invalidations := invalidations + 1;
    }

    /** `addMessage`: one whole mutation for the text in the input, its callbacks run in the
        order the mutation runs them. The clock is read once for the optimistic message
        (`now`) and again for the streamed answer (`answeredAt`). A throw in `onMutate` or in `onSuccess` goes to
        `onError` with the context there is; `onSettled` runs once either way. */
    method AddMessage(optimisticId: string, now: string, read: SnapshotRead, response: FetchOutcome,
                      answeredAt: string)
      modifies this
      ensures !isLoading && invalidations == old(invalidations) + 1
      ensures optimisticId != AI_RESPONSE_ID && AiCount(Snapshot(old(paged))) <= 1 ==>
        AiCount(Snapshot(paged)) <= 1
      ensures backupMessage == old(message)
      ensures var m := UserMessage(old(message), optimisticId, now);
        var u := InsertOptimistic(old(paged), m);
        && (u.Err? ==> message == old(message) && paged == old(paged) && flat == Some([]))
        && (u.Ok? && response.RequestFailed? ==>
              message == old(message) && paged == Some(u.value) && flat == Some(RollbackAsWritten(read, old(paged), m)))
        && (u.Ok? && response.Responded? && response.body.None? ==>
              message == "" && flat == old(flat) && paged == Some(u.value))
        && (u.Ok? && response.Responded? && response.body.Some? ==>
              var body := response.body.value;
              && paged == (if body.end.ReadRejected? && |body.chunks| == 0 then Some(u.value)
                           else Some(UpsertAiResponse(Some(u.value), Concat(body.chunks), answeredAt)))
              && (body.end.Done? ==> message == "" && flat == old(flat))
              && (body.end.ReadRejected? ==>
                    message == old(message) && flat == Some(RollbackAsWritten(read, old(paged), m))))
    {
      ghost var cached := paged;
      ghost var text := message;
      var context := OnMutate(message, optimisticId, now, read);
      if context.None? {
        OnError(None);
      } else if response.RequestFailed? {
        OnError(context);
      } else {
        var answer, readFailed := OnSuccess(response.body, answeredAt);
        if readFailed {
          OnError(context);
        }
      }
      OnSettled();
      if optimisticId != AI_RESPONSE_ID && AiCount(Snapshot(cached)) <= 1 {
        var acc := if response.Responded? && response.body.Some? then Concat(response.body.value.chunks) else "";
        SendKeepsOneAiResponse(cached, UserMessage(text, optimisticId, now), acc, answeredAt);
      }
    }
  }
}
