/**
 * The chat handlers of app/api/chat/route.ts: POST records the user's turn
 * and relays the message to the completion provider; GET returns one user's
 * history. The message table is an append-only log whose `createdAt` the
 * store assigns from a strictly increasing clock.
 */
module Chat {
  import opened Options
  import Auth

  /** The `role` column: "user" or "ai". */
  datatype Role = UserRole | AiRole

  /** A row of the message table. */
  datatype ChatMessage = ChatMessage(userId: nat, role: Role, content: string, createdAt: nat)

  /** A history row as GET selects it: content, role and createdAt. */
  datatype HistoryEntry = HistoryEntry(content: string, role: Role, createdAt: nat)

  /** One entry of the provider request's `messages` list. */
  datatype PromptTurn = PromptTurn(role: string, content: string)

  /** The request POST sends to the completion provider: URL, bearer header and JSON body. */
  datatype CompletionRequest = CompletionRequest(
    url: string,
    authorization: string,
    model: string,
    messages: seq<PromptTurn>,
    maxTokens: nat,
    temperature: real,
    topP: real,
    stream: bool)

  /**
   * What the provider answered: a readable event stream; a failure (a
   * non-OK status or a missing body) with the text of its response; or no
   * usable answer at all (the request itself rejects, or reading the failed
   * response's text rejects), which the handler does not catch.
   */
  datatype Upstream = Streamed(events: seq<string>) | Failed(text: string) | Unreachable

  datatype Body = Error(error: string) | History(history: seq<HistoryEntry>)

  datatype Response =
    | Json(status: nat, body: Body)
      /** The provider's event stream passed through as `text/event-stream`. */
    | EventStream(events: seq<string>)
      /** An exception the handler does not catch: the framework's bare 500. */
    | ServerError

  const Unauthorized: string := "Unauthorized"
  const KeyMissing: string := "API key is missing"
  const AiErrorPrefix: string := "AI error: "
  const CompletionsUrl: string := "https://openrouter.ai/api/v1/chat/completions"
  const Model: string := "deepseek/deepseek-chat-v3-0324:free"
  const MaxTokens: nat := 512
  const SystemDirective: string := "شما یک دستیار فارسی هستید. پاسخ\U{200C}ها را کامل، مودبانه و فارسی بده. اگر سوال طولانی بود، پاسخ را به طور کامل و با جزئیات ارائه کن."
  const EmailMissing: string := "ایمیل ارسال نشده است."

  /**
   * The provider request for one user message: exactly two turns, the fixed
   * directive and then the message itself, streamed, with the key as a
   * bearer credential.
   */
  function CompletionRequestFor(apiKey: string, message: string): (req: CompletionRequest)
    ensures req.messages == [PromptTurn("system", SystemDirective), PromptTurn("user", message)]
    ensures req.url == CompletionsUrl && req.authorization == "Bearer " + apiKey
    ensures req.model == Model && req.stream
  {
    CompletionRequest(
      CompletionsUrl,
      "Bearer " + apiKey,
      Model,
      [PromptTurn("system", SystemDirective), PromptTurn("user", message)],
      MaxTokens, 0.7, 0.95, true)
  }

  /** The response once the provider has been called. */
  function Relayed(upstream: Upstream): (r: Response)
    ensures r.EventStream? <==> upstream.Streamed?
    ensures upstream.Streamed? ==> r.events == upstream.events
    ensures upstream.Failed? ==>
      && r.Json? && r.status == 500 && r.body.Error?
      && |AiErrorPrefix| <= |r.body.error|
      && r.body.error[..|AiErrorPrefix|] == AiErrorPrefix
      && r.body.error[|AiErrorPrefix|..] == upstream.text
    ensures upstream.Unreachable? <==> r == ServerError
  {
    match upstream
    case Streamed(events) => EventStream(events)
    case Failed(text) => Json(500, Error(AiErrorPrefix + text))
    case Unreachable => ServerError
  }

  /** Rows in the order the store wrote them carry strictly increasing timestamps. */
  ghost predicate Chronological(log: seq<ChatMessage>)
  {
    forall i, j :: 0 <= i < j < |log| ==> log[i].createdAt < log[j].createdAt
  }

  ghost predicate Ascending(s: seq<HistoryEntry>)
  {
    forall i, j :: 0 <= i < j < |s| ==> s[i].createdAt <= s[j].createdAt
  }

  function EntryOf(m: ChatMessage): HistoryEntry
  {
    HistoryEntry(m.content, m.role, m.createdAt)
  }

  /** `where: {userId}`: the rows of one user, in log order. */
  function OwnedBy(log: seq<ChatMessage>, userId: nat): (r: seq<ChatMessage>)
    ensures forall m :: m in r <==> m in log && m.userId == userId
  {
    if log == [] then []
    else
      var last := log[|log| - 1];
      OwnedBy(log[..|log| - 1], userId) + (if last.userId == userId then [last] else [])
  }

  /** Each of the user's rows is selected as often as it occurs in the log, and no other row is. */
  lemma {:induction false} OwnedByCounts(log: seq<ChatMessage>, userId: nat)
    ensures forall m :: multiset(OwnedBy(log, userId))[m] == (if m.userId == userId then multiset(log)[m] else 0)
  {
    if log != [] {
      var init, last := log[..|log| - 1], log[|log| - 1];
      assert log == init + [last];
      OwnedByCounts(init, userId);
    }
  }

  /** `select: {content, role, createdAt}` */
  function Project(log: seq<ChatMessage>): (r: seq<HistoryEntry>)
    ensures |r| == |log|
    ensures forall i :: 0 <= i < |log| ==>
      r[i].content == log[i].content && r[i].role == log[i].role && r[i].createdAt == log[i].createdAt
  {
    seq(|log|, i requires 0 <= i < |log| => EntryOf(log[i]))
  }

  /** Insert one entry into an ascending list, before the first entry not older than it. */
  function Insert(x: HistoryEntry, s: seq<HistoryEntry>): (r: seq<HistoryEntry>)
    requires Ascending(s)
    ensures Ascending(r)
    ensures multiset(r) == multiset(s) + multiset{x}
  {
    if s == [] || x.createdAt <= s[0].createdAt then
      [x] + s
    else
      var rest := Insert(x, s[1..]);
      InsertAfterHead(x, s, rest);
      assert s == [s[0]] + s[1..];
      [s[0]] + rest
  }

  /** The head of an ascending list is not newer than anything after it, nor than `x` when it precedes `x`. */
  lemma InsertAfterHead(x: HistoryEntry, s: seq<HistoryEntry>, rest: seq<HistoryEntry>)
    requires Ascending(s) && s != [] && s[0].createdAt < x.createdAt
    requires Ascending(rest) && multiset(rest) == multiset(s[1..]) + multiset{x}
    ensures Ascending([s[0]] + rest)
  {
    forall k | 0 <= k < |rest|
      ensures s[0].createdAt <= rest[k].createdAt
    {
      assert rest[k] in multiset(rest);
      if rest[k] != x {
        assert rest[k] in multiset(s[1..]);
        var j :| 0 <= j < |s[1..]| && s[1..][j] == rest[k];
        assert s[j + 1] == rest[k];
      }
    }
  }

  /** `orderBy: {createdAt: "asc"}` */
  function SortByCreatedAt(s: seq<HistoryEntry>): (r: seq<HistoryEntry>)
    ensures Ascending(r)
    ensures multiset(r) == multiset(s)
  {
    if s == [] then []
    else
      assert s == [s[0]] + s[1..];
      Insert(s[0], SortByCreatedAt(s[1..]))
  }

  /** Sorting a list that is already ascending leaves it as it is. */
  lemma {:induction false} SortKeepsAscending(s: seq<HistoryEntry>)
    requires Ascending(s)
    ensures SortByCreatedAt(s) == s
  {
    if s != [] {
      SortKeepsAscending(s[1..]);
      assert s == [s[0]] + s[1..];
    }
  }

  /**
   * GET: the history of the user named by the `email` query parameter,
   * oldest first. It only reads the two tables.
   */
  function GetHistory(users: map<string, Auth.User>, log: seq<ChatMessage>, email: Option<string>): (r: Response)
    ensures IsBlank(email) ==> r == Json(400, Error(EmailMissing))
    ensures !IsBlank(email) && email.value !in users ==> r == Json(401, Error(Unauthorized))
    ensures !IsBlank(email) && email.value in users ==>
      && r.Json? && r.status == 200 && r.body.History?
      && Ascending(r.body.history)
      && multiset(r.body.history) == multiset(Project(OwnedBy(log, users[email.value].id)))
  {
    if IsBlank(email) then
      Json(400, Error(EmailMissing))
    else if email.value !in users then
      Json(401, Error(Unauthorized))
    else
      Json(200, History(SortByCreatedAt(Project(OwnedBy(log, users[email.value].id)))))
  }

  lemma {:induction false} OwnedByChronological(log: seq<ChatMessage>, userId: nat)
    requires Chronological(log)
    ensures Chronological(OwnedBy(log, userId))
  {
    if log != [] {
      var init, last := log[..|log| - 1], log[|log| - 1];
      assert Chronological(init);
      OwnedByChronological(init, userId);
      var prefix := OwnedBy(init, userId);
      if last.userId == userId {
        forall k | 0 <= k < |prefix|
          ensures prefix[k].createdAt < last.createdAt
        {
          assert prefix[k] in init;
          var i :| 0 <= i < |init| && init[i] == prefix[k];
          assert log[i] == init[i];
        }
        var r := prefix + [last];
        assert OwnedBy(log, userId) == r;
        forall i, j | 0 <= i < j < |r|
          ensures r[i].createdAt < r[j].createdAt
        {
          assert r[i] == prefix[i];
        }
      } else {
        assert OwnedBy(log, userId) == prefix;
      }
    }
  }

  /** With the store's timestamps, the history is the user's rows in the order they were written. */
  lemma HistoryInLogOrder(users: map<string, Auth.User>, log: seq<ChatMessage>, email: string)
    requires Chronological(log) && email in users && email != ""
    ensures GetHistory(users, log, Some(email)) == Json(200, History(Project(OwnedBy(log, users[email].id))))
  {
    var owned := OwnedBy(log, users[email].id);
    OwnedByChronological(log, users[email].id);
    SortKeepsAscending(Project(owned));
  }

  /**
   * A turn written after every existing row appears last in its author's
   * history, and every other user's history is unchanged.
   */
  lemma HistoryAfterAppend(users: map<string, Auth.User>, log: seq<ChatMessage>, m: ChatMessage, email: string)
    requires Chronological(log) && email in users && email != ""
    requires forall i :: 0 <= i < |log| ==> log[i].createdAt < m.createdAt
    ensures m.userId == users[email].id ==>
      GetHistory(users, log + [m], Some(email)).body.history == GetHistory(users, log, Some(email)).body.history + [EntryOf(m)]
    ensures m.userId != users[email].id ==>
      GetHistory(users, log + [m], Some(email)) == GetHistory(users, log, Some(email))
  {
    var log' := log + [m];
    assert log'[..|log'| - 1] == log;
    assert Chronological(log');
    HistoryInLogOrder(users, log, email);
    HistoryInLogOrder(users, log', email);
    var id := users[email].id;
    if m.userId == id {
      assert Project(OwnedBy(log', id)) == Project(OwnedBy(log, id)) + [EntryOf(m)];
    }
  }

  class MessageLog {
    var messages: seq<ChatMessage>
    /** The timestamp the store gives the next row. */
    var clock: nat

    ghost predicate Valid()
      reads this
    {
      && Chronological(messages)
      && forall i :: 0 <= i < |messages| ==> messages[i].createdAt < clock
    }

    constructor ()
      ensures Valid() && messages == []
    {
      messages := [];
      clock := 0;
    }

    /** `prisma.chatMessage.create`: one row, stamped by the store. */
    method Append(userId: nat, role: Role, content: string) returns (m: ChatMessage)
      requires Valid()
      modifies this
      ensures Valid()
      ensures m == ChatMessage(userId, role, content, old(clock))
      ensures messages == old(messages) + [m] && clock > old(clock)
    {
      m := ChatMessage(userId, role, content, clock);
      messages := messages + [m];
      clock := clock + 1;
    }

    /**
     * POST. `apiKey` is the `OPENROUTER_API_KEY` setting and `upstream` what
     * the provider answers; `sent` is the request made to the provider, if
     * one was made. The user's turn is written before the key is checked,
     * no path writes an "ai" turn, and the log grows by at most one row.
     */
    method Post(users: map<string, Auth.User>, email: string, message: string, apiKey: Option<string>, upstream: Upstream)
      returns (r: Response, sent: Option<CompletionRequest>)
      requires Valid()
      modifies this
      ensures Valid()
      ensures email !in users ==>
        r == Json(401, Error(Unauthorized)) && sent == None && messages == old(messages) && clock == old(clock)
      ensures email in users ==>
        messages == old(messages) + [ChatMessage(users[email].id, UserRole, message, old(clock))]
      ensures email in users && IsBlank(apiKey) ==>
        r == Json(500, Error(KeyMissing)) && sent == None
      ensures email in users && !IsBlank(apiKey) ==>
        sent == Some(CompletionRequestFor(apiKey.value, message)) && r == Relayed(upstream)
    {
      if email !in users {
        return Json(401, Error(Unauthorized)), None;
      }
      var user := users[email];
      var _ := Append(user.id, UserRole, message);
      if IsBlank(apiKey) {
        return Json(500, Error(KeyMissing)), None;
      }
      var req := CompletionRequestFor(apiKey.value, message);
      sent := Some(req);
      r := Relayed(upstream);
    }
  }
}
