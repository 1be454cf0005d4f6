/** `GroupmeService` of `src/service.ts`: the query parameters of a page
    request, the bounded retry of a request, and the cursor loop that pages
    through a conversation. The HTTP client is an oracle `Server` that answers
    each try of a request; the waits between tries are counted, not
    performed. */
module Service {
  import opened Model
  import opened Seqs
  import opened Messages
  import Media
  import Batches
  import Downloads

  const ApiBaseUrl: string := "https://api.groupme.com/v3"

  /** The retries `downloadContent` allows each page request. */
  const PageRetries: int := 5

  /** The wait before each retry, in milliseconds. */
  const RetryWaitMs: nat := 4000

  /** A value of the query-parameter dictionary. */
  datatype ParamValue = Text(s: string) | Number(n: int)

  type Params = map<string, ParamValue>

  /** A response as far as the exporter reads it: `page` is the array at
      `data.response.direct_messages`, `None` when there is none (the data
      of the placeholder response is `null`, and a reply without that field
      has none either). */
  datatype Response = Response(page: Option<seq<Message>>, status: int, statusText: string, config: Params)

  /** The answer to one try of a GET request: a response, or the error
      `axios` rejects with. */
  datatype Attempt = Answered(response: Response) | Failed(error: string)

  /** The server: the answer to try `n` (counted from 0) of a request to a
      URL with some parameters. */
  type Server = (string, Params, nat) -> Attempt

  /** How a call of `makeRequestWithRetries` ends. */
  datatype RequestOutcome = Returned(response: Response) | Threw(error: string)

  /** A call of `makeRequestWithRetries`: how it ends, how many tries it
      made and how many times it waited before retrying. */
  datatype Retried = Retried(outcome: RequestOutcome, attempts: nat, retries: nat)

  /** The response `makeRequestWithRetries` returns once the loop is left
      without a try: status 500 and no data. */
  function Placeholder(params: Params): Response
  {
    Response(None, 500, "Internal Server Error", params)
  }

  /** The address `axios.get` is called with. */
  function FullUrl(url: string): string
  {
    ApiBaseUrl + "/" + url
  }

  /** What `makeRequestWithRetries` does from the try made after
      `numRetries` retries. */
  function Retries(server: Server, url: string, params: Params, maxRetries: int, numRetries: nat): Retried
    decreases maxRetries - numRetries
  {
    if numRetries > maxRetries then Retried(Returned(Placeholder(params)), numRetries, numRetries)
    else match server(FullUrl(url), params, numRetries)
      case Answered(response) => Retried(Returned(response), numRetries + 1, numRetries)
      case Failed(error) =>
        if numRetries < maxRetries then Retries(server, url, params, maxRetries, numRetries + 1)
        else Retried(Threw(error), numRetries + 1, numRetries)
  }

  /** The outcome of the call that attempt `k` of a page request answers. */
  lemma {:induction false} RetriesFrom(server: Server, url: string, params: Params, maxRetries: int, n: nat, k: nat)
    requires n <= k <= maxRetries
    requires forall i :: n <= i < k ==> server(FullUrl(url), params, i).Failed?
    requires server(FullUrl(url), params, k).Answered?
    ensures Retries(server, url, params, maxRetries, n)
            == Retried(Returned(server(FullUrl(url), params, k).response), k + 1, k)
    decreases k - n
  {
    if n < k {
      assert server(FullUrl(url), params, n).Failed?;
      RetriesFrom(server, url, params, maxRetries, n + 1, k);
    }
  }

  /** If the first `k` tries fail and try `k + 1` succeeds, with `k` at most
      `maxRetries`, that response is returned after `k` retries. */
  lemma RetrySucceedsAfter(server: Server, url: string, params: Params, maxRetries: int, k: nat)
    requires k <= maxRetries
    requires forall i :: 0 <= i < k ==> server(FullUrl(url), params, i).Failed?
    requires server(FullUrl(url), params, k).Answered?
    ensures Retries(server, url, params, maxRetries, 0)
            == Retried(Returned(server(FullUrl(url), params, k).response), k + 1, k)
  {
    RetriesFrom(server, url, params, maxRetries, 0, k);
  }

  lemma {:induction false} GivesUpFrom(server: Server, url: string, params: Params, maxRetries: int, n: nat)
    requires n <= maxRetries
    requires forall i :: n <= i <= maxRetries ==> server(FullUrl(url), params, i).Failed?
    ensures Retries(server, url, params, maxRetries, n)
            == Retried(Threw(server(FullUrl(url), params, maxRetries).error), maxRetries + 1, maxRetries)
    decreases maxRetries - n
  {
    assert server(FullUrl(url), params, n).Failed?;
    if n < maxRetries {
      GivesUpFrom(server, url, params, maxRetries, n + 1);
    }
  }

  /** If all `maxRetries + 1` tries fail, the error of the last one is
      rethrown and no further try is made. */
  lemma RetryGivesUp(server: Server, url: string, params: Params, maxRetries: int)
    requires maxRetries >= 0
    requires forall i :: 0 <= i <= maxRetries ==> server(FullUrl(url), params, i).Failed?
    ensures Retries(server, url, params, maxRetries, 0)
            == Retried(Threw(server(FullUrl(url), params, maxRetries).error), maxRetries + 1, maxRetries)
  {
    GivesUpFrom(server, url, params, maxRetries, 0);
  }

  /** With a negative `maxRetries` no request is made and the placeholder
      is returned. */
  lemma RetryNone(server: Server, url: string, params: Params, maxRetries: int)
    requires maxRetries < 0
    ensures Retries(server, url, params, maxRetries, 0) == Retried(Returned(Placeholder(params)), 0, 0)
  {
  }

  lemma {:induction false} ShapeFrom(server: Server, url: string, params: Params, maxRetries: int, n: nat)
    requires n <= maxRetries
    ensures var r := Retries(server, url, params, maxRetries, n);
            && n + 1 <= r.attempts <= maxRetries + 1 && r.retries == r.attempts - 1
            && (r.outcome.Threw? ==> r.attempts == maxRetries + 1)
            && (forall i :: n <= i < r.attempts - 1 ==> server(FullUrl(url), params, i).Failed?)
            && server(FullUrl(url), params, r.attempts - 1).Answered? == r.outcome.Returned?
            && (r.outcome.Returned? ==> r.outcome.response == server(FullUrl(url), params, r.attempts - 1).response)
            && (r.outcome.Threw? ==> r.outcome.error == server(FullUrl(url), params, r.attempts - 1).error)
    decreases maxRetries - n
  {
    if server(FullUrl(url), params, n).Failed? && n < maxRetries {
      ShapeFrom(server, url, params, maxRetries, n + 1);
    }
  }

  /** Every call with `maxRetries >= 0` makes between one and
      `maxRetries + 1` tries and waits once before each try but the first.
      All tries but the last fail; the last one decides the outcome, and the
      call throws only when it was try `maxRetries + 1`. */
  lemma RetryShape(server: Server, url: string, params: Params, maxRetries: int)
    requires maxRetries >= 0
    ensures var r := Retries(server, url, params, maxRetries, 0);
            && 1 <= r.attempts <= maxRetries + 1 && r.retries == r.attempts - 1
            && (r.outcome.Threw? ==> r.attempts == maxRetries + 1)
            && (forall i :: 0 <= i < r.attempts - 1 ==> server(FullUrl(url), params, i).Failed?)
            && server(FullUrl(url), params, r.attempts - 1).Answered? == r.outcome.Returned?
            && (r.outcome.Returned? ==> r.outcome.response == server(FullUrl(url), params, r.attempts - 1).response)
            && (r.outcome.Threw? ==> r.outcome.error == server(FullUrl(url), params, r.attempts - 1).error)
  {
    ShapeFrom(server, url, params, maxRetries, 0);
  }

  /** The endpoint `downloadContent` pages through. The groups path carries
      the stray `}` of the source; any other conversation type reads the
      direct messages. */
  function ContentUrl(conversationType: string, chatId: string): (url: string)
    ensures conversationType == "groups" ==>
              && |url| == 18 + |chatId|
              && url[..8] == "/groups/"
              && url[8..8 + |chatId|] == chatId
              && url[8 + |chatId|..] == "/messages}"
    ensures conversationType != "groups" ==> url == "direct_messages"
  {
    if conversationType == "groups" then "/groups/" + chatId + "/messages}" else "direct_messages"
  }

  /** `if (lastMessageId)`: a cursor is sent when it is defined and not the
      empty string. */
  predicate HasCursor(lastMessageId: Option<string>)
  {
    lastMessageId.Some? && lastMessageId.value != ""
  }

  /** The id of the last message of a page, the cursor of the request after
      it. */
  function LastId(page: seq<Message>): string
    requires page != []
  {
    page[|page| - 1].id
  }

  /** The cursor of the request made after the pages `pages`: none before the
      first page, then the id of the last message of the last page. */
  function CursorAfter(pages: seq<seq<Message>>): Option<string>
  {
    if pages == [] || pages[|pages| - 1] == [] then None else Some(LastId(pages[|pages| - 1]))
  }

  /** What a page request yields: the page, or the error that ends
      `downloadContent` (the request gave up, or the response has no array to
      take the length of). */
  function PageOf(outcome: RequestOutcome): Result<seq<Message>, string>
  {
    match outcome
    case Threw(error) => Err(error)
    case Returned(response) => if response.page.None? then Err("TypeError") else Ok(response.page.value)
  }

  /** The messages `downloadContent` keeps from the pages read so far. */
  function Kept(messages: seq<Message>, saveChatHistory: bool): seq<Message>
  {
    if saveChatHistory then messages else GetAttachmentMessages(messages)
  }

  /** The ids it collects from them. */
  function KeptIds(messages: seq<Message>, saveChatHistory: bool): seq<string>
  {
    if saveChatHistory then Ids(GetAttachmentMessages(messages)) else []
  }

  /** How `downloadContent` ends: with the two lists it hands to
      `initiateDownloadMediaFiles` and the two counters that call ends with,
      or with the error a request threw. */
  datatype ContentOutcome =
    | Exported(allMessages: seq<Message>, mediaMessageIds: seq<string>, successfulDownloads: nat, totalDownloads: nat)
    | Aborted(error: string)

  /** The media `initiateDownloadMediaFiles` sees are those of all pages,
      whether history is saved or not: the ids are never used, and the
      messages a filtered accumulator drops carry no attachments. */
  lemma ExportedMedia(pages: seq<seq<Message>>, saveChatHistory: bool, localDate: LocalDate)
    ensures Media.GetMediaFiles(KeptIds(Flatten(pages), saveChatHistory), Kept(Flatten(pages), saveChatHistory), localDate)
            == Media.GetMediaFiles([], Flatten(pages), localDate)
  {
    var all := Flatten(pages);
    Media.GetMediaFilesIgnoresIds(KeptIds(all, saveChatHistory), [], Kept(all, saveChatHistory), localDate);
    if !saveChatHistory {
      Media.GetMediaFilesOfAttachmentMessages([], all, localDate);
    }
  }

  /** Keeping and collecting page by page is keeping and collecting from all
      pages at once. */
  lemma KeptStep(pages: seq<seq<Message>>, messages: seq<Message>, saveChatHistory: bool)
    ensures AppendMessages(Kept(Flatten(pages), saveChatHistory), messages, saveChatHistory)
            == Kept(Flatten(pages + [messages]), saveChatHistory)
    ensures AppendMediaMessageIds(KeptIds(Flatten(pages), saveChatHistory), messages, saveChatHistory)
            == KeptIds(Flatten(pages + [messages]), saveChatHistory)
  {
    FlattenAppend(pages, messages);
    GetAttachmentMessagesAppend(Flatten(pages), messages);
    IdsAppend(GetAttachmentMessages(Flatten(pages)), GetAttachmentMessages(messages));
  }

  class GroupmeService {
    var accessToken: string

    constructor(accessToken: string)
      ensures this.accessToken == accessToken
    {
      this.accessToken := accessToken;
    }

    /** `buildConfig`: the token, the other user's id, a page size of 20 and
        a timeout of 10000 ms, and the cursor when there is one. */
    function BuildConfig(otherUserId: string, lastMessageId: Option<string>): (params: Params)
      reads this
      ensures params.Keys <= {"token", "other_user_id", "limit", "timeout", "before_id"}
      ensures "token" in params && params["token"] == Text(accessToken)
      ensures "other_user_id" in params && params["other_user_id"] == Text(otherUserId)
      ensures "limit" in params && params["limit"] == Number(20)
      ensures "timeout" in params && params["timeout"] == Number(10000)
      ensures "before_id" in params <==> HasCursor(lastMessageId)
      ensures "before_id" in params ==> params["before_id"] == Text(lastMessageId.value)
    {
      var params := map["token" := Text(accessToken), "other_user_id" := Text(otherUserId),
                        "limit" := Number(20), "timeout" := Number(10000)];
      if HasCursor(lastMessageId) then params["before_id" := Text(lastMessageId.value)] else params
    }

    /** `makeRequestWithRetries`: tries the request until it is answered,
        waiting 4000 ms before each retry, and rethrows the error of try
        `maxRetries + 1`. */
    method MakeRequestWithRetries(url: string, params: Params, maxRetries: int, server: Server)
      returns (outcome: RequestOutcome, attempts: nat, waitedMs: nat)
      ensures var r := Retries(server, url, params, maxRetries, 0);
              outcome == r.outcome && attempts == r.attempts && waitedMs == RetryWaitMs * r.retries
    {
      var numRetries: nat := 0;
      attempts, waitedMs := 0, 0;
      while numRetries <= maxRetries
        invariant attempts == numRetries && waitedMs == RetryWaitMs * numRetries
        invariant Retries(server, url, params, maxRetries, numRetries) == Retries(server, url, params, maxRetries, 0)
        decreases maxRetries - numRetries
      {
        var attempt := server(FullUrl(url), params, numRetries);
        attempts := attempts + 1;
        match attempt {
          case Answered(response) =>
            outcome := Returned(response);
            return;
          case Failed(error) =>
            if numRetries < maxRetries {
              waitedMs := waitedMs + RetryWaitMs;
              numRetries := numRetries + 1;
            } else {
              outcome := Threw(error);
              return;
            }
        }
      }
      outcome := Returned(Placeholder(params));
    }

    /** The page request `downloadContent` makes after the pages `pages`. */
    function PageRequest(url: string, chatId: string, pages: seq<seq<Message>>, server: Server): Result<seq<Message>, string>
      reads this
    {
      PageOf(Retries(server, url, BuildConfig(chatId, CursorAfter(pages)), PageRetries, 0).outcome)
    }

    /** Each page of `pages` is non-empty and is what the request made after
        the pages before it yields. */
    predicate Chain(url: string, chatId: string, pages: seq<seq<Message>>, server: Server)
      reads this
    {
      pages == [] ||
      var init := pages[..|pages| - 1];
      && Chain(url, chatId, init, server)
      && pages[|pages| - 1] != []
      && PageRequest(url, chatId, init, server) == Ok(pages[|pages| - 1])
    }

    /** Paging from `pages` on reaches an empty page or an error within
        `fuel` requests. */
    predicate EndsWithin(url: string, chatId: string, pages: seq<seq<Message>>, server: Server, fuel: nat)
      reads this
      decreases fuel
    {
      fuel > 0 &&
      match PageRequest(url, chatId, pages, server)
      case Err(_) => true
      case Ok(page) => page == [] || EndsWithin(url, chatId, pages + [page], server, fuel - 1)
    }

    /** `downloadContent`: requests page after page, each with the id of the
        last message of the page before as its cursor, until a page comes back
        empty, keeping all messages (or only those with attachments) and the
        ids of those with attachments. A request that throws ends it. Then
        `initiateDownloadMediaFiles` downloads the media of what was kept;
        the call is not awaited, and the model runs it to its end. Call `j`
        of `downloadMediaFiles` in it fails the fetches in `failures(j)`. */
    method DownloadContent(conversationType: string, chatId: string, outputDir: string, saveChatHistory: bool,
                           server: Server, localDate: LocalDate, failures: nat -> set<nat>)
      returns (outcome: ContentOutcome, pages: seq<seq<Message>>)
      requires exists fuel :: EndsWithin(ContentUrl(conversationType, chatId), chatId, [], server, fuel)
      ensures Chain(ContentUrl(conversationType, chatId), chatId, pages, server)
      ensures outcome.Exported? <==> PageRequest(ContentUrl(conversationType, chatId), chatId, pages, server) == Ok([])
      ensures outcome.Aborted? ==> PageRequest(ContentUrl(conversationType, chatId), chatId, pages, server) == Err(outcome.error)
      ensures outcome.Exported? ==> outcome.allMessages == Kept(Flatten(pages), saveChatHistory)
      ensures outcome.Exported? ==> outcome.mediaMessageIds == KeptIds(Flatten(pages), saveChatHistory)
      ensures outcome.Exported? ==>
                var files := Media.GetMediaFiles([], Flatten(pages), localDate);
                var chunks := Batches.Chunks(files, Downloads.BatchSize);
                && outcome.totalDownloads == |files|
                && outcome.successfulDownloads == Downloads.Tally(chunks, files, failures, |chunks|)
    {
      var url := ContentUrl(conversationType, chatId);
      ghost var fuel: nat :| EndsWithin(url, chatId, [], server, fuel);
      var allMessages: seq<Message> := [];
      var lastMessageId: Option<string> := None;
      var mediaMessageIds: seq<string> := [];
      pages := [];
      while true
        invariant Progress(url, chatId, server, saveChatHistory, fuel, pages, lastMessageId, allMessages, mediaMessageIds)
        decreases fuel - |pages|
      {
        var page := RequestPage(url, chatId, lastMessageId, pages, server);
        match page {
          case Err(error) =>
            outcome := Aborted(error);
            return;
          case Ok(messages) =>
            if |messages| == 0 {
              break;
            }
            Advance(url, chatId, server, saveChatHistory, fuel, pages, lastMessageId, allMessages, mediaMessageIds, messages);
            lastMessageId := Some(messages[|messages| - 1].id);
            allMessages := AppendMessages(allMessages, messages, saveChatHistory);
            mediaMessageIds := AppendMediaMessageIds(mediaMessageIds, messages, saveChatHistory);
            pages := pages + [messages];
        }
      }
      ExportedMedia(pages, saveChatHistory, localDate);
      var successfulDownloads, totalDownloads :=
        Downloads.InitiateDownloadMediaFiles(allMessages, mediaMessageIds, outputDir, localDate, failures);
      outcome := Exported(allMessages, mediaMessageIds, successfulDownloads, totalDownloads);
    }

    /** One round of the loop up to the length test: the parameters with the
        current cursor, the request with its retries, and the page read from
        the response. */
    method RequestPage(url: string, chatId: string, lastMessageId: Option<string>, ghost pages: seq<seq<Message>>, server: Server)
      returns (page: Result<seq<Message>, string>)
      requires lastMessageId == CursorAfter(pages)
      ensures page == PageRequest(url, chatId, pages, server)
    {
      var config := BuildConfig(chatId, lastMessageId);
      var request, _, _ := MakeRequestWithRetries(url, config, PageRetries, server);
      page := PageOf(request);
    }

    /** The loop invariant of `downloadContent`: the pages read so far form
        a chain within the fuel, the cursor is the last id read, and the two
        accumulators hold what the pages contribute. */
    ghost predicate Progress(url: string, chatId: string, server: Server, saveChatHistory: bool, fuel: nat,
                             pages: seq<seq<Message>>, lastMessageId: Option<string>,
                             allMessages: seq<Message>, mediaMessageIds: seq<string>)
      reads this
    {
      && |pages| <= fuel && EndsWithin(url, chatId, pages, server, fuel - |pages|)
      && Chain(url, chatId, pages, server)
      && lastMessageId == CursorAfter(pages)
      && allMessages == Kept(Flatten(pages), saveChatHistory)
      && mediaMessageIds == KeptIds(Flatten(pages), saveChatHistory)
    }

    /** A round that reads a non-empty page keeps the invariant. */
    lemma Advance(url: string, chatId: string, server: Server, saveChatHistory: bool, fuel: nat,
                  pages: seq<seq<Message>>, lastMessageId: Option<string>,
                  allMessages: seq<Message>, mediaMessageIds: seq<string>, page: seq<Message>)
      requires Progress(url, chatId, server, saveChatHistory, fuel, pages, lastMessageId, allMessages, mediaMessageIds)
      requires page != [] && PageRequest(url, chatId, pages, server) == Ok(page)
      ensures |pages| < fuel
      ensures Progress(url, chatId, server, saveChatHistory, fuel, pages + [page], Some(page[|page| - 1].id),
                       AppendMessages(allMessages, page, saveChatHistory),
                       AppendMediaMessageIds(mediaMessageIds, page, saveChatHistory))
    {
      ChainStep(url, chatId, pages, page, server);
      EndsStep(url, chatId, pages, page, server, fuel - |pages|);
      KeptStep(pages, page, saveChatHistory);
    }

    lemma EndsStep(url: string, chatId: string, pages: seq<seq<Message>>, page: seq<Message>, server: Server, fuel: nat)
      requires EndsWithin(url, chatId, pages, server, fuel) && page != []
      requires PageRequest(url, chatId, pages, server) == Ok(page)
      ensures fuel >= 1 && EndsWithin(url, chatId, pages + [page], server, fuel - 1)
    {
    }

    lemma ChainStep(url: string, chatId: string, pages: seq<seq<Message>>, page: seq<Message>, server: Server)
      requires Chain(url, chatId, pages, server) && page != []
      requires PageRequest(url, chatId, pages, server) == Ok(page)
      ensures Chain(url, chatId, pages + [page], server)
      ensures CursorAfter(pages + [page]) == Some(LastId(page))
    {
      assert (pages + [page])[..|pages|] == pages;
    }

    /** Every page of a chain is non-empty and is what the request after the
        pages before it yields. */
    lemma {:induction false} ChainAt(url: string, chatId: string, pages: seq<seq<Message>>, server: Server, i: nat)
      requires Chain(url, chatId, pages, server) && i < |pages|
      ensures pages[i] != [] && PageRequest(url, chatId, pages[..i], server) == Ok(pages[i])
      decreases |pages|
    {
      var n := |pages| - 1;
      if i < n {
        ChainAt(url, chatId, pages[..n], server, i);
        assert pages[..n][..i] == pages[..i];
      }
    }

    /** The parameters of request `i` of a chain: the first request has no
        `before_id`; every later one has the id of the last message of the
        page before, unless that id is the empty string. */
    lemma RequestCursor(url: string, chatId: string, pages: seq<seq<Message>>, server: Server, i: nat)
      requires Chain(url, chatId, pages, server) && i <= |pages|
      ensures var config := BuildConfig(chatId, CursorAfter(pages[..i]));
              && (i == 0 ==> "before_id" !in config)
              && (i > 0 ==> pages[i - 1] != []
                            && ("before_id" in config <==> LastId(pages[i - 1]) != "")
                            && ("before_id" in config ==> config["before_id"] == Text(LastId(pages[i - 1]))))
    {
      if i > 0 {
        ChainAt(url, chatId, pages, server, i - 1);
        assert pages[..i][i - 1] == pages[i - 1];
      }
    }
  }
}
