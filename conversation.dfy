/** One chat turn, `send_message_streaming` and `_get_history` in
    backend/services/ai_chat.py: the session and creator guards, the history read before
    the user's message is saved, the message list sent to the model with its two
    truncations, the relay of the streamed reply, the assistant turn saved on success and
    on failure, and the title set on the first exchange. */
module Conversation {
  import opened Common
  import opened Models
  import Embeddings
  import KeywordSearch
  import Context
  import Prompt
  import Catalog
  import Sorting

  /** `settings.chat_history_limit` */
  const HistoryLimit: nat := 10
  const MaxHistoryTurnChars: nat := 3000
  const HistoryMarker := "\n[...truncated]"
  /** `settings.max_user_msg_to_claude` */
  const MaxUserMsgToModel: nat := 12000
  const UserMarker := "\n\n[Message truncated \U{2014} full message was saved]"
  const TitleChars: nat := 80
  const SessionNotFound := "Error: Chat session not found"
  const CreatorNotFound := "Error: Creator not found"
  const ErrorPrefix := "Error communicating with Claude: "

  /** One entry of the `messages` list sent to the model. */
  datatype Turn = Turn(role: string, content: string)

  /** What the model is asked: the system prompt and the turns. */
  datatype Request = Request(system: string, turns: seq<Turn>)

  /** What the model's stream delivered: the text chunks in order, then, when the stream
      raised, the exception's text. */
  datatype Reply = Reply(chunks: seq<string>, failure: Option<string>)

  // ---------------------------------------------------------------------------
  // History
  // ---------------------------------------------------------------------------

  /** The messages of session `sid`, in the order they were saved (which is their
      `created_at` order). */
  function SessionMessages(messages: seq<ChatMessage>, sid: int): (r: seq<ChatMessage>)
    ensures |r| <= |messages|
    ensures forall m :: m in r <==> m in messages && m.sessionId == sid
  {
    if messages == [] then []
    else
      var init := messages[..|messages| - 1];
      var last := messages[|messages| - 1];
      assert forall m :: m in messages <==> m in init || m == last;
      SessionMessages(init, sid) + (if last.sessionId == sid then [last] else [])
  }

  /** `_get_history`: the newest `chat_history_limit` messages of the session, oldest
      first. */
  function History(messages: seq<ChatMessage>, sid: int): (r: seq<ChatMessage>)
    ensures var all := SessionMessages(messages, sid);
      && |r| == (if |all| <= HistoryLimit then |all| else HistoryLimit)
      && r == all[|all| - |r|..]
    ensures forall m :: m in r ==> m in messages && m.sessionId == sid
  {
    var all := SessionMessages(messages, sid);
    if |all| <= HistoryLimit then all else all[|all| - HistoryLimit..]
  }

  lemma SessionMessagesSnoc(messages: seq<ChatMessage>, m: ChatMessage, sid: int)
    ensures SessionMessages(messages + [m], sid)
            == SessionMessages(messages, sid) + (if m.sessionId == sid then [m] else [])
  {
    assert (messages + [m])[..|messages|] == messages;
  }

  /** The exchange a turn saves is the newest part of the history the next turn reads:
      the user's message and then the reply. */
  lemma HistoryAfterExchange(messages: seq<ChatMessage>, sid: int, user: string, reply: string)
    ensures var next := History(messages + [ChatMessage(sid, "user", user), ChatMessage(sid, "assistant", reply)], sid);
      |next| >= 2 && next[|next| - 2..] == [ChatMessage(sid, "user", user), ChatMessage(sid, "assistant", reply)]
  {
    var u := ChatMessage(sid, "user", user);
    var a := ChatMessage(sid, "assistant", reply);
    SessionMessagesSnoc(messages, u, sid);
    SessionMessagesSnoc(messages + [u], a, sid);
    assert messages + [u] + [a] == messages + [u, a];
    var all := SessionMessages(messages + [u, a], sid);
    assert all == SessionMessages(messages, sid) + [u] + [a];
    var next := History(messages + [u, a], sid);
    assert next[|next| - 2..] == all[|all| - 2..];
  }

  // ---------------------------------------------------------------------------
  // The turns sent to the model
  // ---------------------------------------------------------------------------

  /** A past message as sent again: cut to 3000 characters and marked when longer. */
  function HistoryTurn(m: ChatMessage): (r: Turn)
    ensures r.role == m.role
    ensures |m.content| <= MaxHistoryTurnChars ==> r.content == m.content
    ensures |m.content| > MaxHistoryTurnChars ==>
      |r.content| == MaxHistoryTurnChars + |HistoryMarker|
      && StartsWith(r.content, m.content[..MaxHistoryTurnChars]) && EndsWith(r.content, HistoryMarker)
  {
    var c := Cap(m.content, MaxHistoryTurnChars, HistoryMarker);
    assert |m.content| > MaxHistoryTurnChars ==> c[|c| - |HistoryMarker|..] == HistoryMarker;
    Turn(m.role, c)
  }

  /** The user's message as sent to the model: cut to `max_user_msg_to_claude`
      characters and marked when longer. */
  function CurrentTurn(userMessage: string): (r: Turn)
    ensures r.role == "user"
    ensures |userMessage| <= MaxUserMsgToModel ==> r.content == userMessage
    ensures |userMessage| > MaxUserMsgToModel ==>
      |r.content| == MaxUserMsgToModel + |UserMarker|
      && StartsWith(r.content, userMessage[..MaxUserMsgToModel]) && EndsWith(r.content, UserMarker)
  {
    var c := Cap(userMessage, MaxUserMsgToModel, UserMarker);
    assert |userMessage| > MaxUserMsgToModel ==> c[|c| - |UserMarker|..] == UserMarker;
    Turn("user", c)
  }

  function HistoryTurns(history: seq<ChatMessage>): (r: seq<Turn>)
    ensures |r| == |history|
  {
    if history == [] then [] else HistoryTurns(history[..|history| - 1]) + [HistoryTurn(history[|history| - 1])]
  }

  /** The `messages` list: the history, then the current turn. */
  function Turns(history: seq<ChatMessage>, userMessage: string): seq<Turn>
  {
    HistoryTurns(history) + [CurrentTurn(userMessage)]
  }

  /** One turn per past message, in order and each from its own message, and the user's
      message last, exactly once. */
  lemma {:induction false} TurnsAt(history: seq<ChatMessage>, userMessage: string)
    ensures |Turns(history, userMessage)| == |history| + 1
    ensures forall i :: 0 <= i < |history| ==> Turns(history, userMessage)[i] == HistoryTurn(history[i])
    ensures Turns(history, userMessage)[|history|] == CurrentTurn(userMessage)
  {
    HistoryTurnsAt(history);
  }

  lemma {:induction false} HistoryTurnsAt(history: seq<ChatMessage>)
    ensures forall i :: 0 <= i < |history| ==> HistoryTurns(history)[i] == HistoryTurn(history[i])
  {
    if history != [] {
      var init := history[..|history| - 1];
      HistoryTurnsAt(init);
      assert forall i :: 0 <= i < |init| ==> init[i] == history[i];
    }
  }

  lemma HistoryTurnsSnoc(history: seq<ChatMessage>, m: ChatMessage)
    ensures HistoryTurns(history + [m]) == HistoryTurns(history) + [HistoryTurn(m)]
  {
    assert (history + [m])[..|history|] == history;
  }

  /** The loop that fills `messages`. */
  method BuildTurns(history: seq<ChatMessage>, userMessage: string) returns (turns: seq<Turn>)
    ensures turns == Turns(history, userMessage)
  {
    turns := [];
    var i := 0;
    while i < |history|
      invariant 0 <= i <= |history|
      invariant turns == HistoryTurns(history[..i])
    {
      assert history[..i + 1] == history[..i] + [history[i]];
      HistoryTurnsSnoc(history[..i], history[i]);
      turns := turns + [HistoryTurn(history[i])];
      i := i + 1;
    }
    assert history[..i] == history;
    turns := turns + [CurrentTurn(userMessage)];
  }

  // ---------------------------------------------------------------------------
  // Relaying the reply
  // ---------------------------------------------------------------------------

  function ErrorText(e: string): string
  {
    ErrorPrefix + e
  }

  /** What the user sees: every chunk, then the error text when the stream raised. */
  function Yielded(reply: Reply): seq<string>
  {
    reply.chunks + (if reply.failure.Some? then [ErrorText(reply.failure.value)] else [])
  }

  /** `full_response`: the chunks joined, replaced by the error text when the stream
      raised. */
  function FullResponse(reply: Reply): string
  {
    if reply.failure.Some? then ErrorText(reply.failure.value) else Concat(reply.chunks)
  }

  /** The saved reply is exactly what the user saw: all of it when the stream completed,
      and the last thing shown, the error text, when it raised. The chunks are relayed
      unchanged and in order either way. */
  lemma RelayFacts(reply: Reply)
    ensures Yielded(reply)[..|reply.chunks|] == reply.chunks
    ensures reply.failure.None? ==> Concat(Yielded(reply)) == FullResponse(reply)
    ensures reply.failure.Some? ==>
      |Yielded(reply)| == |reply.chunks| + 1
      && Yielded(reply)[|reply.chunks|] == FullResponse(reply)
      && StartsWith(FullResponse(reply), ErrorPrefix)
  {
    if reply.failure.Some? {
      var e := ErrorText(reply.failure.value);
      assert e[..|ErrorPrefix|] == ErrorPrefix;
    } else {
      assert Yielded(reply) == reply.chunks;
    }
  }

  /** The `async for` loop and its `except` branch. */
  method Relay(reply: Reply) returns (yielded: seq<string>, full: string)
    ensures yielded == Yielded(reply) && full == FullResponse(reply)
  {
    yielded, full := [], "";
    var i := 0;
    while i < |reply.chunks|
      invariant 0 <= i <= |reply.chunks|
      invariant yielded == reply.chunks[..i]
      invariant full == Concat(reply.chunks[..i])
    {
      assert reply.chunks[..i + 1] == reply.chunks[..i] + [reply.chunks[i]];
      ConcatAppend(reply.chunks[..i], reply.chunks[i]);
      full := full + reply.chunks[i];
      yielded := yielded + [reply.chunks[i]];
      i := i + 1;
    }
    assert reply.chunks[..i] == reply.chunks;
    if reply.failure.Some? {
      var msg := ErrorText(reply.failure.value);
      yielded := yielded + [msg];
      full := msg;
    }
  }

  // ---------------------------------------------------------------------------
  // The turn
  // ---------------------------------------------------------------------------

  /** The tables a turn reads: creators by id, each creator's platforms, the content
      table, the platforms by id, the knowledge table and each creator's vector store. */
  datatype Library = Library(creators: map<int, Creator>, platformsOf: map<int, seq<Platform>>,
                             table: seq<ContentItem>, platforms: map<int, Platform>, knowledge: seq<Knowledge>,
                             vectors: map<int, seq<Embeddings.Entry>>)

  /** `creator.platforms` */
  function CreatorPlatforms(lib: Library, creatorId: int): seq<Platform>
  {
    if creatorId in lib.platformsOf then lib.platformsOf[creatorId] else []
  }

  /** `_load_store(creator_id)`: the entries of the creator's store file, none without one. */
  function CreatorVectors(lib: Library, creatorId: int): seq<Embeddings.Entry>
  {
    if creatorId in lib.vectors then lib.vectors[creatorId] else []
  }

  /** `db.get(ChatSession, session_id)`: the position of the session with that id. */
  function SessionIndex(sessions: seq<ChatSession>, sid: int): (r: Option<nat>)
    ensures r.Some? ==> r.value < |sessions| && sessions[r.value].id == sid
    ensures r.None? ==> forall k :: 0 <= k < |sessions| ==> sessions[k].id != sid
  {
    if sessions == [] then None
    else if sessions[0].id == sid then Some(0)
    else
      var r := SessionIndex(sessions[1..], sid);
      if r.Some? then Some(r.value + 1) else None
  }

  /** Whom a turn asked the model about: the session's creator and the history read
      before the user's message was saved. */
  datatype Asked = Asked(creator: Creator, history: seq<ChatMessage>)

  /** What a turn leaves behind and gives out, and whether it asked the model. */
  datatype Exchange = Exchange(sessions: seq<ChatSession>, messages: seq<ChatMessage>,
                               yielded: seq<string>, asked: Option<Asked>)

  /** The model's request of a turn whose session belongs to `creator`: the system
      prompt over the context retrieved for the first 500 characters of the message, and
      the turns. The catalog queries the creator's items from the content table, and the
      semantic search runs over the creator's vector store with `embedder`. */
  function TurnRequest(w: Prompt.Wording, lib: Library, asked: Asked, userMessage: string,
                       attachments: Option<seq<Attachment>>,
                       embedder: Embeddings.Embedder): Request
  {
    var ps := CreatorPlatforms(lib, asked.creator.id);
    var context := Context.ContextText(Take(userMessage, KeywordSearch.MaxKeywordExtractChars), lib.table,
                                       Prompt.PlatformIds(ps), lib.platforms,
                                       Context.SemanticSearch(Take(userMessage, KeywordSearch.MaxKeywordExtractChars),
                                                              CreatorVectors(lib, asked.creator.id), embedder));
    Request(Prompt.SystemPrompt(w, asked.creator, ps, lib.table, lib.platforms,
                                lib.knowledge, context, attachments),
            Turns(asked.history, userMessage))
  }

  /** The items the catalog of a turn lists, for the creator with id `creatorId`: exactly
      the items of the creator's platforms, newest first, each once; and the catalog is the
      fixed sentence exactly when the creator has no item. */
  lemma TurnCatalog(lib: Library, creatorId: int)
    requires DistinctIds(lib.table)
    ensures var ids := Prompt.PlatformIds(CreatorPlatforms(lib, creatorId));
      var items := Catalog.Query(lib.table, ids);
      && (forall x :: x in items <==> x in lib.table && x.platformId in ids)
      && Sorting.SortedDesc(items, DateKey)
      && DistinctIds(items)
      && (var empty := Catalog.CatalogText(ids, items, lib.platforms) == Catalog.NoContentAvailable;
          empty <==> forall x :: x in lib.table ==> x.platformId !in ids)
  {
    var ids := Prompt.PlatformIds(CreatorPlatforms(lib, creatorId));
    var items := Catalog.Query(lib.table, ids);
    Catalog.QueryFacts(lib.table, ids);
    Catalog.CatalogEmpty(ids, items, lib.platforms);
    if items != [] {
      assert items[0] in items;
    }
  }

  /** The retrieval, the system prompt and the message list of a turn. */
  method Ask(w: Prompt.Wording, lib: Library, asked: Asked, userMessage: string,
             attachments: Option<seq<Attachment>>,
             embedder: Embeddings.Embedder) returns (request: Request)
    ensures request == TurnRequest(w, lib, asked, userMessage, attachments, embedder)
  {
    var ps := CreatorPlatforms(lib, asked.creator.id);
    var query := Take(userMessage, KeywordSearch.MaxKeywordExtractChars);
    var context := Context.BuildContext(query, lib.table, Prompt.PlatformIds(ps), lib.platforms,
                                       CreatorVectors(lib, asked.creator.id), embedder);
    var turns := BuildTurns(asked.history, userMessage);
    var system := Prompt.BuildSystemPrompt(w, asked.creator, ps, lib.table, lib.platforms,
                                           lib.knowledge, context, attachments);
    request := Request(system, turns);
  }

  /** The two guards: the position of the session, or the error text when the session
      or its creator is unknown. */
  function Locate(sessions: seq<ChatSession>, lib: Library, sid: int): (r: Result<nat, string>)
    ensures r.Ok? ==> r.value < |sessions| && sessions[r.value].id == sid && sessions[r.value].creatorId in lib.creators
    ensures r.Err? ==> r.error == SessionNotFound || r.error == CreatorNotFound
  {
    var k := SessionIndex(sessions, sid);
    if k.None? then Err(SessionNotFound)
    else if sessions[k.value].creatorId !in lib.creators then Err(CreatorNotFound)
    else Ok(k.value)
  }

  /** The session's creator and history when both guards pass. */
  function AskedOf(sessions: seq<ChatSession>, messages: seq<ChatMessage>, lib: Library, sid: int): (r: Option<Asked>)
    ensures r.Some? <==> Locate(sessions, lib, sid).Ok?
  {
    match Locate(sessions, lib, sid)
    case Err(_) => None
    case Ok(k) => Some(Asked(lib.creators[sessions[k].creatorId], History(messages, sid)))
  }

  /** `send_message_streaming(session_id, user_message, db, file_attachments)` apart from
      the request itself (`TurnRequest`); `reply` is what the model's stream delivers. */
  function Send(sessions: seq<ChatSession>, messages: seq<ChatMessage>, lib: Library, sid: int,
                userMessage: string, reply: Reply): Exchange
  {
    match Locate(sessions, lib, sid)
    case Err(e) => Exchange(sessions, messages, [e], None)
    case Ok(k) =>
      var history := History(messages, sid);
      var saved := messages + [ChatMessage(sid, "user", userMessage), ChatMessage(sid, "assistant", FullResponse(reply))];
      var titled := if history == [] then sessions[k := sessions[k].(title := Take(userMessage, TitleChars))]
                    else sessions;
      Exchange(titled, saved, Yielded(reply), AskedOf(sessions, messages, lib, sid))
  }

  /** An unknown session or a session whose creator is gone gives one error message and
      changes nothing; the model is not asked. */
  lemma SendGuards(sessions: seq<ChatSession>, messages: seq<ChatMessage>, lib: Library, sid: int,
                   userMessage: string, reply: Reply)
    ensures var x := Send(sessions, messages, lib, sid, userMessage, reply);
      && ((forall k :: 0 <= k < |sessions| ==> sessions[k].id != sid) ==>
            x == Exchange(sessions, messages, [SessionNotFound], None))
      && (forall k :: (0 <= k < |sessions| && sessions[k].id == sid && sessions[k].creatorId !in lib.creators
                       && (forall j :: 0 <= j < k ==> sessions[j].id != sid)) ==>
            x == Exchange(sessions, messages, [CreatorNotFound], None))
  {
    forall k | 0 <= k < |sessions| && sessions[k].id == sid && (forall j :: 0 <= j < k ==> sessions[j].id != sid)
      ensures SessionIndex(sessions, sid) == Some(k)
    {
      FirstSession(sessions, sid, k);
    }
  }

  lemma {:induction false} FirstSession(sessions: seq<ChatSession>, sid: int, k: nat)
    requires k < |sessions| && sessions[k].id == sid
    requires forall j :: 0 <= j < k ==> sessions[j].id != sid
    ensures SessionIndex(sessions, sid) == Some(k)
  {
    if k > 0 {
      FirstSession(sessions[1..], sid, k - 1);
    }
  }

  /** A turn of a known session saves the user's message in full and then the assistant's
      turn, which is the error text when the model's stream raised; it asks the model
      about the session's creator with the history read before the save, so the current
      message is in the request once, as its last turn (`TurnsAt`); and the title becomes
      the first 80 characters of the message exactly when the session had no history. */
  lemma SendSaves(sessions: seq<ChatSession>, messages: seq<ChatMessage>, lib: Library, sid: int,
                  userMessage: string, reply: Reply)
    requires Locate(sessions, lib, sid).Ok?
    ensures var x := Send(sessions, messages, lib, sid, userMessage, reply);
      var k := Locate(sessions, lib, sid).value;
      var history := History(messages, sid);
      && x.messages == messages + [ChatMessage(sid, "user", userMessage), ChatMessage(sid, "assistant", FullResponse(reply))]
      && (reply.failure.Some? ==> x.messages[|messages| + 1].content == ErrorPrefix + reply.failure.value)
      && x.yielded == Yielded(reply)
      && x.asked == Some(Asked(lib.creators[sessions[k].creatorId], history))
      && (forall m :: m in history ==> m in messages)
      && |x.sessions| == |sessions|
      && (forall j :: 0 <= j < |sessions| && j != k ==> x.sessions[j] == sessions[j])
      && (history == [] ==> x.sessions[k] == sessions[k].(title := Take(userMessage, TitleChars)))
      && (history != [] ==> x.sessions[k] == sessions[k])
  {
    var k := Locate(sessions, lib, sid).value;
    assert AskedOf(sessions, messages, lib, sid) == Some(Asked(lib.creators[sessions[k].creatorId], History(messages, sid)));
  }

  // ---------------------------------------------------------------------------
  // The chat tables
  // ---------------------------------------------------------------------------

  /** The chat service over the `chatsession` and `chatmessage` tables, writing its
      prompts in the standard wording. */
  class ChatService {
    const wording: Prompt.Wording
    var sessions: seq<ChatSession>
    var messages: seq<ChatMessage>

    constructor(sessions: seq<ChatSession>, messages: seq<ChatMessage>)
      ensures wording == Prompt.Standard
      ensures this.sessions == sessions && this.messages == messages
    {
      wording := Prompt.Standard;
      this.sessions := sessions;
      this.messages := messages;
    }

    /** `send_message_streaming`: the tables afterwards, what is yielded, and the request
        the model is sent, when it is asked. */
    method SendMessage(lib: Library, sid: int, userMessage: string, attachments: Option<seq<Attachment>>,
                       embedder: Embeddings.Embedder,
                       reply: Reply) returns (yielded: seq<string>, request: Option<Request>)
      modifies this
      ensures var x := Send(old(sessions), old(messages), lib, sid, userMessage, reply);
        && sessions == x.sessions && messages == x.messages && yielded == x.yielded
      ensures var asked := AskedOf(old(sessions), old(messages), lib, sid);
        && request.Some? == asked.Some?
        && (asked.Some? ==>
              request.value == TurnRequest(wording, lib, asked.value, userMessage, attachments, embedder))
    {
      var located := Locate(sessions, lib, sid);
      if located.Err? {
        return [located.error], None;
      }
      var asked := AskedOf(sessions, messages, lib, sid).value;
      yielded, request := Converse(lib, sid, located.value, asked, userMessage, attachments, embedder, reply);
    }

    /** A turn past the guards, on the session at position `k`. */
    method Converse(lib: Library, sid: int, k: nat, asked: Asked, userMessage: string,
                    attachments: Option<seq<Attachment>>,
                    embedder: Embeddings.Embedder, reply: Reply)
      returns (yielded: seq<string>, request: Option<Request>)
      requires k < |sessions|
      modifies this
      ensures messages == old(messages) + [ChatMessage(sid, "user", userMessage), ChatMessage(sid, "assistant", FullResponse(reply))]
      ensures sessions == if asked.history == [] then old(sessions)[k := old(sessions)[k].(title := Take(userMessage, TitleChars))]
                          else old(sessions)
      ensures yielded == Yielded(reply)
      ensures request == Some(TurnRequest(wording, lib, asked, userMessage, attachments, embedder))
    {
      var r := Ask(wording, lib, asked, userMessage, attachments, embedder);
      request := Some(r);
      Save(ChatMessage(sid, "user", userMessage));
      yielded := Answer(sid, k, asked.history == [], userMessage, reply);
    }

    /** The streaming half of a turn: relays the reply, saves it, and titles a session that
        had no history. */
    method Answer(sid: int, k: nat, first: bool, userMessage: string, reply: Reply) returns (yielded: seq<string>)
      requires k < |sessions|
      modifies this
      ensures messages == old(messages) + [ChatMessage(sid, "assistant", FullResponse(reply))]
      ensures sessions == if first then old(sessions)[k := old(sessions)[k].(title := Take(userMessage, TitleChars))]
                          else old(sessions)
      ensures yielded == Yielded(reply)
    {
      var full;
      yielded, full := Relay(reply);
      Save(ChatMessage(sid, "assistant", full));
      if first {
        Retitle(k, Take(userMessage, TitleChars));
      }
    }

    /** `db.add(message); db.commit()` */
    method Save(m: ChatMessage)
      modifies this
      ensures messages == old(messages) + [m] && sessions == old(sessions)
    {
      messages := messages + [m];
    }

    /** `session.title = title; db.commit()` */
    method Retitle(k: nat, title: string)
      requires k < |sessions|
      modifies this
      ensures sessions == old(sessions)[k := old(sessions)[k].(title := title)] && messages == old(messages)
    {
      sessions := sessions[k := sessions[k].(title := title)];
    }
  }
}
