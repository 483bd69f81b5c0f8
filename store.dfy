/**
 * The prompt-request store and the two stateful handlers of the tools
 * router (server/routes/tools.js): POST /:id/prompt, which forwards a prompt
 * and appends one record, and GET/POST /history, which return a user's
 * newest records. The database is a sequence of records in insertion order
 * plus a user table from email to user id.
 */
module Store {
  import opened Seqs
  import Catalog
  import Forwarder

  /** A user's database id (`user._id`). */
  type UserId = nat

  /** One `PromptRequest` document; `createdAt` is the time the record was saved. */
  datatype PromptRecord = PromptRecord(
    user: UserId,
    toolId: string,
    prompt: string,
    response: string,
    createdAt: int)

  /** `.limit(50)`. */
  const HistoryLimit: nat := 50

  // ---------------------------------------------------------------------
  // The history query: find by user, sort by createdAt descending, limit
  // ---------------------------------------------------------------------

  predicate IsNewestFirst(s: seq<PromptRecord>) {
    forall i, j :: 0 <= i < j < |s| ==> s[i].createdAt >= s[j].createdAt
  }

  /** Places `x` in front of the first record that is not newer than it. */
  function InsertNewestFirst(x: PromptRecord, s: seq<PromptRecord>): (r: seq<PromptRecord>)
    ensures multiset(r) == multiset(s) + multiset{x}
    decreases |s|
  {
    if s == [] || s[0].createdAt <= x.createdAt then [x] + s
    else
      assert s == [s[0]] + s[1..];
      [s[0]] + InsertNewestFirst(x, s[1..])
  }

  /** Inserting a record no newer than `b` among records no newer than `b` keeps that bound. */
  lemma {:induction false} InsertKeepsBound(x: PromptRecord, s: seq<PromptRecord>, b: int)
    requires x.createdAt <= b
    requires forall i :: 0 <= i < |s| ==> s[i].createdAt <= b
    ensures forall i :: 0 <= i < |InsertNewestFirst(x, s)| ==> InsertNewestFirst(x, s)[i].createdAt <= b
    decreases |s|
  {
    if s != [] && s[0].createdAt > x.createdAt {
      InsertKeepsBound(x, s[1..], b);
    }
  }

  lemma {:induction false} InsertKeepsNewestFirst(x: PromptRecord, s: seq<PromptRecord>)
    requires IsNewestFirst(s)
    ensures IsNewestFirst(InsertNewestFirst(x, s))
    decreases |s|
  {
    if s != [] && s[0].createdAt > x.createdAt {
      var rest := InsertNewestFirst(x, s[1..]);
      InsertKeepsNewestFirst(x, s[1..]);
      InsertKeepsBound(x, s[1..], s[0].createdAt);
      var r := [s[0]] + rest;
      assert forall i :: 0 < i < |r| ==> r[i] == rest[i - 1];
    }
  }

  /**
   * `.sort({ createdAt: -1 })`: newest first; records saved at the same
   * instant come in reverse insertion order.
   */
  function SortNewestFirst(s: seq<PromptRecord>): (r: seq<PromptRecord>)
    ensures multiset(r) == multiset(s)
    decreases |s|
  {
    if s == [] then []
    else
      assert s == s[..|s| - 1] + [s[|s| - 1]];
      InsertNewestFirst(s[|s| - 1], SortNewestFirst(s[..|s| - 1]))
  }

  lemma {:induction false} SortIsNewestFirst(s: seq<PromptRecord>)
    ensures IsNewestFirst(SortNewestFirst(s))
    decreases |s|
  {
    if s != [] {
      SortIsNewestFirst(s[..|s| - 1]);
      InsertKeepsNewestFirst(s[|s| - 1], SortNewestFirst(s[..|s| - 1]));
    }
  }

  /** The filter `{ user: user._id }`. */
  function OwnerIs(user: UserId): PromptRecord -> bool {
    (x: PromptRecord) => x.user == user
  }

  function OwnedBy(records: seq<PromptRecord>, user: UserId): (r: seq<PromptRecord>)
    ensures forall x :: multiset(r)[x] == if x.user == user then multiset(records)[x] else 0
  {
    Filter(records, OwnerIs(user))
  }

  /** `PromptRequest.find({ user }).sort({ createdAt: -1 }).limit(50)`. */
  function HistoryOf(records: seq<PromptRecord>, user: UserId): (page: seq<PromptRecord>)
    ensures |page| == Min(HistoryLimit, |OwnedBy(records, user)|)
    ensures multiset(page) <= multiset(OwnedBy(records, user))
  {
    var sorted := SortNewestFirst(OwnedBy(records, user));
    SortKeepsLength(OwnedBy(records, user));
    var page := if |sorted| <= HistoryLimit then sorted else sorted[..HistoryLimit];
    SplitAt(sorted, |page|);
    page
  }

  function Min(a: nat, b: nat): nat {
    if a <= b then a else b
  }

  /**
   * What a history page must be: at most fifty of the user's records, every
   * one of them stored, newest first, and no record of the user left out is
   * newer than any record on the page.
   */
  ghost predicate IsHistoryPage(records: seq<PromptRecord>, user: UserId, page: seq<PromptRecord>) {
    && |page| == Min(HistoryLimit, |OwnedBy(records, user)|)
    && (forall i :: 0 <= i < |page| ==> page[i].user == user)
    && multiset(page) <= multiset(records)
    && IsNewestFirst(page)
    && (forall x :: x in records && x.user == user && multiset(page)[x] < multiset(records)[x] ==>
          forall i :: 0 <= i < |page| ==> x.createdAt <= page[i].createdAt)
  }

  /** Sorting keeps the length. */
  lemma SortKeepsLength(s: seq<PromptRecord>)
    ensures |SortNewestFirst(s)| == |s|
  {
    assert |multiset(SortNewestFirst(s))| == |multiset(s)|;
  }

  /** The page is the first `|page|` records of the sorted owned records. */
  lemma PageIsSortedPrefix(records: seq<PromptRecord>, user: UserId)
    ensures var sorted := SortNewestFirst(OwnedBy(records, user));
            var page := HistoryOf(records, user);
            && |page| == Min(HistoryLimit, |OwnedBy(records, user)|)
            && page == sorted[..|page|]
            && multiset(sorted) == multiset(page) + multiset(sorted[|page|..])
  {
    var sorted := SortNewestFirst(OwnedBy(records, user));
    SortKeepsLength(OwnedBy(records, user));
    var page := HistoryOf(records, user);
    SplitAt(sorted, |page|);
  }

  lemma PageRecordsAreOwnedAndStored(records: seq<PromptRecord>, user: UserId)
    ensures var page := HistoryOf(records, user);
            && (forall i :: 0 <= i < |page| ==> page[i].user == user)
            && multiset(page) <= multiset(records)
  {
    var owned := OwnedBy(records, user);
    var sorted := SortNewestFirst(owned);
    var page := HistoryOf(records, user);
    PageIsSortedPrefix(records, user);
    forall i | 0 <= i < |page| ensures page[i].user == user {
      assert page[i] == sorted[i];
      assert page[i] in multiset(owned);
    }
    forall x ensures multiset(page)[x] <= multiset(records)[x] {
      assert multiset(page)[x] <= multiset(sorted)[x];
    }
  }

  lemma PageIsNewestFirst(records: seq<PromptRecord>, user: UserId)
    ensures IsNewestFirst(HistoryOf(records, user))
  {
    var sorted := SortNewestFirst(OwnedBy(records, user));
    SortIsNewestFirst(OwnedBy(records, user));
    PageIsSortedPrefix(records, user);
    var page := HistoryOf(records, user);
    assert forall i :: 0 <= i < |page| ==> page[i] == sorted[i];
  }

  /**
   * In a newest-first sequence, a record that occurs more often in the whole
   * than in the first `k` positions is no newer than any of those positions.
   */
  lemma PrefixKeepsTheNewest(s: seq<PromptRecord>, k: nat, x: PromptRecord)
    requires IsNewestFirst(s) && k <= |s|
    requires multiset(s[..k])[x] < multiset(s)[x]
    ensures forall i :: 0 <= i < k ==> x.createdAt <= s[i].createdAt
  {
    SplitAt(s, k);
    assert x in multiset(s[k..]);
    var j :| 0 <= j < |s[k..]| && s[k..][j] == x;
    assert s[k + j] == x;
  }

  /**
   * The same fact for any prefix `page` of a newest-first permutation
   * `sorted` of the records of `user`.
   */
  lemma PrefixOfOwnedKeepsTheNewest(records: seq<PromptRecord>, user: UserId,
                                    sorted: seq<PromptRecord>, page: seq<PromptRecord>)
    requires forall x :: multiset(sorted)[x] == if x.user == user then multiset(records)[x] else 0
    requires IsNewestFirst(sorted)
    requires |page| <= |sorted| && page == sorted[..|page|]
    ensures forall x :: x in records && x.user == user && multiset(page)[x] < multiset(records)[x] ==>
              forall i :: 0 <= i < |page| ==> x.createdAt <= page[i].createdAt
  {
    forall x | x in records && x.user == user && multiset(page)[x] < multiset(records)[x]
      ensures forall i :: 0 <= i < |page| ==> x.createdAt <= page[i].createdAt
    {
      PrefixKeepsTheNewest(sorted, |page|, x);
    }
  }

  lemma PageKeepsTheNewest(records: seq<PromptRecord>, user: UserId)
    ensures var page := HistoryOf(records, user);
            forall x :: x in records && x.user == user && multiset(page)[x] < multiset(records)[x] ==>
              forall i :: 0 <= i < |page| ==> x.createdAt <= page[i].createdAt
  {
    var owned := OwnedBy(records, user);
    SortIsNewestFirst(owned);
    PageIsSortedPrefix(records, user);
    PrefixOfOwnedKeepsTheNewest(records, user, SortNewestFirst(owned), HistoryOf(records, user));
  }

  /** The query answers with a history page. */
  lemma HistoryOfIsHistoryPage(records: seq<PromptRecord>, user: UserId)
    ensures IsHistoryPage(records, user, HistoryOf(records, user))
  {
    PageIsSortedPrefix(records, user);
    PageRecordsAreOwnedAndStored(records, user);
    PageIsNewestFirst(records, user);
    PageKeepsTheNewest(records, user);
  }

  /** Appending a record of `user` appends it to that user's records. */
  lemma OwnedBySnoc(records: seq<PromptRecord>, x: PromptRecord)
    ensures OwnedBy(records + [x], x.user) == OwnedBy(records, x.user) + [x]
  {
    FilterSnoc(records, x, OwnerIs(x.user));
    assert OwnerIs(x.user)(x);
  }

  /** Sorting after appending inserts the appended record into the sorted rest. */
  lemma SortSnoc(s: seq<PromptRecord>, x: PromptRecord)
    ensures SortNewestFirst(s + [x]) == InsertNewestFirst(x, SortNewestFirst(s))
  {
    var t := s + [x];
    assert t[..|t| - 1] == s;
    assert t[|t| - 1] == x;
  }

  /** A record saved strictly later than all of a user's earlier ones heads that user's history. */
  lemma NewestSubmissionHeadsHistory(records: seq<PromptRecord>, x: PromptRecord)
    requires forall i :: 0 <= i < |records| && records[i].user == x.user ==>
               records[i].createdAt < x.createdAt
    ensures |HistoryOf(records + [x], x.user)| > 0
    ensures HistoryOf(records + [x], x.user)[0] == x
  {
    var owned := OwnedBy(records, x.user);
    OwnedBySnoc(records, x);
    SortSnoc(owned, x);
    var sorted := SortNewestFirst(owned);
    if sorted != [] {
      var y := sorted[0];
      assert y in multiset(owned);
      assert y in multiset(records) && y.user == x.user;
      var i :| 0 <= i < |records| && records[i] == y;
      assert y.createdAt < x.createdAt;
    }
    var s2 := SortNewestFirst(OwnedBy(records + [x], x.user));
    assert s2 == [x] + sorted;
    PageIsSortedPrefix(records + [x], x.user);
    var page := HistoryOf(records + [x], x.user);
    assert |page| > 0;
    assert page[0] == s2[0];
  }

  /** Saving a record of one user leaves every other user's history as it was. */
  lemma OtherHistoriesUnchanged(records: seq<PromptRecord>, x: PromptRecord, user: UserId)
    requires x.user != user
    ensures HistoryOf(records + [x], user) == HistoryOf(records, user)
  {
    FilterSnoc(records, x, OwnerIs(user));
    assert !OwnerIs(user)(x);
    assert OwnedBy(records + [x], user) == OwnedBy(records, user);
  }

  // ---------------------------------------------------------------------
  // Replies
  // ---------------------------------------------------------------------

  datatype SubmitReply = Responded(response: string) | ToolNotFound | QuotaExceeded | ServerError

  /** The HTTP status the router sends with each reply. */
  function SubmitStatus(r: SubmitReply): int {
    match r
    case Responded(_) => 200
    case ToolNotFound => 404
    case QuotaExceeded => 429
    case ServerError => 500
  }

  /** The `email` query parameter: absent, a string, or something else (a repeated parameter). */
  datatype EmailParam = Absent | Given(value: string) | NotAString

  datatype HistoryReply = Records(items: seq<PromptRecord>) | EmailRequired | UserNotFound

  function HistoryStatus(r: HistoryReply): int {
    match r
    case Records(_) => 200
    case EmailRequired => 400
    case UserNotFound => 404
  }

  // ---------------------------------------------------------------------
  // The store and its handlers
  // ---------------------------------------------------------------------

  class PromptStore {
    /** The tool catalog the router looks tools up in. */
    const catalog: seq<Catalog.Tool>
    /** Every saved `PromptRequest`, in the order it was saved. */
    var records: seq<PromptRecord>
    /** `User.findOne({ email })`: the id of the user with that email. */
    var users: map<string, UserId>

    constructor (users: map<string, UserId>)
      ensures catalog == Catalog.Tools
      ensures this.records == [] && this.users == users
    {
      this.catalog := Catalog.Tools;
      this.records := [];
      this.users := users;
    }

    /**
     * POST /:id/prompt. `withinQuota` is the verdict of the rate-limit
     * middleware, `apiKey` and `outcome` are what `processPrompt` sees,
     * `saveSucceeds` says whether `save()` resolves, and `now` is the time
     * the record is saved.
     */
    method SubmitPrompt(user: UserId, id: string, prompt: string, withinQuota: bool,
                        apiKey: Option<string>, outcome: Forwarder.ProviderOutcome,
                        saveSucceeds: bool, now: int) returns (reply: SubmitReply)
      modifies this
      ensures users == old(users)
      ensures !withinQuota ==> reply == QuotaExceeded && records == old(records)
      ensures withinQuota && Catalog.GetTool(catalog, id).None? ==>
                reply == ToolNotFound && records == old(records)
      ensures withinQuota && Catalog.GetTool(catalog, id).Some? ==>
                var result := Forwarder.ProcessPrompt(apiKey, id, prompt, outcome).result;
                if result.UnknownToolId? || !saveSucceeds then
                  reply == ServerError && records == old(records)
                else
                  && reply == Responded(result.text)
                  && records == old(records) + [PromptRecord(user, id, prompt, result.text, now)]
      ensures reply.Responded? ==> Forwarder.IsPlainText(reply.response)
      ensures SubmitStatus(reply) == 429 <==> !withinQuota
      ensures SubmitStatus(reply) == 404 <==> withinQuota && Catalog.GetTool(catalog, id).None?
      ensures SubmitStatus(reply) == 200 <==> |records| == |old(records)| + 1
    {
      if !withinQuota {
        return QuotaExceeded;
      }
      var tool := Catalog.GetTool(catalog, id);
      if tool.None? {
        return ToolNotFound;
      }
      var processed := Forwarder.ProcessPrompt(apiKey, id, prompt, outcome);
      if processed.result.UnknownToolId? {
        return ServerError;
      }
      var response := processed.result.text;
      var record := PromptRecord(user, id, prompt, response, now);
      if !saveSucceeds {
        return ServerError;
      }
      records := records + [record];
      reply := Responded(response);
    }

    /** The part both history handlers share once the email has been checked. */
    method HistoryForEmail(email: string) returns (r: HistoryReply)
      ensures email !in users <==> r == UserNotFound
      ensures email in users ==>
                r == Records(HistoryOf(records, users[email]))
                && IsHistoryPage(records, users[email], r.items)
    {
      if email !in users {
        return UserNotFound;
      }
      HistoryOfIsHistoryPage(records, users[email]);
      r := Records(HistoryOf(records, users[email]));
    }

    /** GET /history?email=…: missing, empty or non-string emails are rejected. */
    method HistoryByQuery(email: EmailParam) returns (r: HistoryReply)
      ensures HistoryStatus(r) == 400 <==> !email.Given? || email.value == ""
      ensures HistoryStatus(r) == 404 <==> email.Given? && email.value != "" && email.value !in users
      ensures r.Records? ==>
                email.Given? && email.value in users
                && r.items == HistoryOf(records, users[email.value])
                && IsHistoryPage(records, users[email.value], r.items)
    {
      if !email.Given? || email.value == "" {
        return EmailRequired;
      }
      r := HistoryForEmail(email.value);
    }

    /** POST /history with body `{ email }`: a missing or empty email is rejected. */
    method HistoryByBody(email: Option<string>) returns (r: HistoryReply)
      ensures HistoryStatus(r) == 400 <==> email.None? || email.value == ""
      ensures HistoryStatus(r) == 404 <==> email.Some? && email.value != "" && email.value !in users
      ensures r.Records? ==>
                email.Some? && email.value in users
                && r.items == HistoryOf(records, users[email.value])
                && IsHistoryPage(records, users[email.value], r.items)
    {
      if email.None? || email.value == "" {
        return EmailRequired;
      }
      r := HistoryForEmail(email.value);
    }
  }

  /** A submission for a catalog tool never ends in the "Unknown toolId" error. */
  lemma CatalogSubmissionsNeverThrow(id: string, apiKey: Option<string>, prompt: string,
                                     outcome: Forwarder.ProviderOutcome)
    requires Catalog.GetTool(Catalog.Tools, id).Some?
    ensures Forwarder.ProcessPrompt(apiKey, id, prompt, outcome).result.Answer?
  {
    var k :| 0 <= k < |Catalog.Tools| && Catalog.Tools[k] == Catalog.GetTool(Catalog.Tools, id).value;
    Forwarder.CatalogToolsAlwaysAnswer(apiKey, k, prompt, outcome);
  }

  /**
   * A user with no history submits to "fix-bug" without an API key and the
   * provider unreachable: the reply is the mock text and exactly one record
   * holding it is saved.
   */
  method SubmitFixBugWithoutKey() returns (store: PromptStore, reply: SubmitReply)
    ensures fresh(store) && store.catalog == Catalog.Tools
    ensures reply == Responded(Forwarder.MockResponse)
    ensures store.users == map["dev@example.com" := 7]
    ensures store.records == [PromptRecord(7, "fix-bug", "function f(){}", Forwarder.MockResponse, 1000)]
  {
    store := new PromptStore(map["dev@example.com" := 7]);
    assert Catalog.Tools[1].id == "fix-bug";
    reply := store.SubmitPrompt(7, "fix-bug", "function f(){}", true, None,
                                Forwarder.TransportError, true, 1000);
  }

  /** After that submission the user's history is exactly the one saved record. */
  method FixBugScenario() returns (history: HistoryReply)
    ensures history == Records([PromptRecord(7, "fix-bug", "function f(){}", Forwarder.MockResponse, 1000)])
  {
    var store, reply := SubmitFixBugWithoutKey();
    var record := store.records[0];
    assert store.records == [] + [record];
    history := store.HistoryByQuery(Given("dev@example.com"));
    NewestSubmissionHeadsHistory([], record);
    assert OwnedBy([record], 7) == [record];
    assert |history.items| == 1 && history.items[0] == record;
  }
}
