/**
 * Listing endpoints: the query parameters of a list call, and the optional
 * auto-pagination loop that follows cursors and concatenates the pages.
 * The client is a script of replies: `replies[j]` is what the `j`-th call of
 * `client.get` returns (a response, or the error it throws); what one `get`
 * does on the wire is the business of the HTTP client module. The source
 * loop has no bound; here it also stops, with `PagesExhausted`, when the
 * script has no reply for the next call.
 */
module Pagination {
  import opened Common
  import opened Errors
  import opened JsonModel
  import opened HttpClient

  /** What `{ cursor, limit, all, ...rest }` leaves in `rest`: none of the three names. */
  type Rest = r: Record<Option<string>> | "cursor" !in Keys(r) && "limit" !in Keys(r) && "all" !in Keys(r)
    witness Dict([], map[])

  /**
   * The options of a list call. `limit` is the integer `parseInt` reads from
   * a non-empty `--limit` text (`None`: absent or empty); `rest` holds the
   * command's extra filters, an absent value as `None`.
   */
  datatype PaginationOptions = PaginationOptions(cursor: Option<string>, limit: Option<int>, all: bool, rest: Rest)

  function ParamOf(v: Option<string>): ParamValue {
    if v.Some? then Str(v.value) else Undefined
  }

  /** `{ ...rest }` as a parameter object: same keys, same order. */
  function Spread(rest: Record<Option<string>>): (p: Record<ParamValue>)
    ensures Keys(p) == Keys(rest)
    ensures forall k :: Lookup(p, k) == if k in Keys(rest) then Some(ParamOf(Lookup(rest, k).value)) else None
  {
    Dict(rest.keys, map k | k in rest.values :: ParamOf(rest.values[k]))
  }

  /**
   * The parameters of the first request: the extra filters, then `cursor`
   * when it is truthy, then `limit` as a number when it was given.
   */
  function BuildParams(opts: PaginationOptions): Record<ParamValue> {
    var spread := Spread(opts.rest);
    var withCursor := if Truthy(opts.cursor) then Assign(spread, "cursor", Str(opts.cursor.value)) else spread;
    if opts.limit.Some? then Assign(withCursor, "limit", Num(opts.limit.value)) else withCursor
  }

  /**
   * The first request carries the filters in their order, then `cursor`
   * exactly when it is truthy, then `limit` exactly when it was given, a
   * number; each filter keeps its value, an absent one as undefined.
   */
  lemma BuildParamsContents(opts: PaginationOptions)
    ensures Keys(BuildParams(opts)) == Keys(opts.rest) + (if Truthy(opts.cursor) then ["cursor"] else [])
                                                     + (if opts.limit.Some? then ["limit"] else [])
    ensures Lookup(BuildParams(opts), "cursor") == if Truthy(opts.cursor) then Some(Str(opts.cursor.value)) else None
    ensures Lookup(BuildParams(opts), "limit") == if opts.limit.Some? then Some(Num(opts.limit.value)) else None
    ensures forall k :: k != "cursor" && k != "limit" ==>
              Lookup(BuildParams(opts), k) == if k in Keys(opts.rest) then Some(ParamOf(Lookup(opts.rest, k).value)) else None
  {
  }

  /** The items a page adds: its array's elements, or the value itself. */
  function Items(data: Json): seq<Json> {
    if data.JArr? then data.items else [data]
  }

  /** A reply after which the loop asks for another page. */
  predicate Continues(reply: Result<ApiResponse, PylonError>) {
    reply.Ok? && reply.value.hasNextPage == Some(true) && Truthy(reply.value.cursor)
  }

  /** The cursor a reply hands on (the empty string when it has none). */
  function NextCursor(reply: Result<ApiResponse, PylonError>): string {
    if reply.Ok? && reply.value.cursor.Some? then reply.value.cursor.value else ""
  }

  /**
   * The parameters of request `n` of an auto-paginated listing: those of
   * the first request, with `cursor` set to the cursor of page `n - 1`
   * (where the first request has it, it stays in its place).
   */
  function ParamsAt(opts: PaginationOptions, replies: seq<Result<ApiResponse, PylonError>>, n: nat): Record<ParamValue>
    requires n <= |replies|
  {
    if n == 0 then BuildParams(opts)
    else Assign(BuildParams(opts), "cursor", Str(NextCursor(replies[n - 1])))
  }

  /**
   * Every request after the first carries the cursor of the page before it
   * and otherwise the parameters of the first request.
   */
  lemma ParamsAtContents(opts: PaginationOptions, replies: seq<Result<ApiResponse, PylonError>>, n: nat)
    requires n <= |replies|
    ensures n == 0 ==> ParamsAt(opts, replies, n) == BuildParams(opts)
    ensures n > 0 ==> Lookup(ParamsAt(opts, replies, n), "cursor") == Some(Str(NextCursor(replies[n - 1])))
    ensures forall k :: k != "cursor" ==> Lookup(ParamsAt(opts, replies, n), k) == Lookup(BuildParams(opts), k)
  {
  }

  /**
   * The parameters object as the loop leaves it at call `n`: the first
   * call sets the given cursor again, each later call the cursor of the
   * page before.
   */
  function CallParams(opts: PaginationOptions, replies: seq<Result<ApiResponse, PylonError>>, n: nat): Record<ParamValue>
    requires n <= |replies|
  {
    if n == 0 then
      if Truthy(opts.cursor) then Assign(BuildParams(opts), "cursor", Str(opts.cursor.value)) else BuildParams(opts)
    else Assign(CallParams(opts, replies, n - 1), "cursor", Str(NextCursor(replies[n - 1])))
  }

  /**
   * Setting the cursor over and over in the one parameters object comes to
   * the first request's parameters with only the latest cursor in them.
   */
  lemma {:induction false} CallParamsClosedForm(opts: PaginationOptions, replies: seq<Result<ApiResponse, PylonError>>, n: nat)
    requires n <= |replies|
    ensures CallParams(opts, replies, n) == ParamsAt(opts, replies, n)
  {
    var first := BuildParams(opts);
    if n == 0 {
      if Truthy(opts.cursor) {
        BuildParamsContents(opts);
        AssignSame(first, "cursor", Str(opts.cursor.value));
      }
    } else {
      CallParamsClosedForm(opts, replies, n - 1);
      if n > 1 {
        AssignTwice(first, "cursor", Str(NextCursor(replies[n - 2])), Str(NextCursor(replies[n - 1])));
      }
    }
  }

  /** The items a reply adds: a page's items; a failed call adds none. */
  function PageItems(reply: Result<ApiResponse, PylonError>): seq<Json> {
    if reply.Ok? then Items(reply.value.data) else []
  }

  /** The items of the first `n` replies, in page order. */
  function Gathered(replies: seq<Result<ApiResponse, PylonError>>, n: nat): seq<Json>
    requires n <= |replies|
  {
    if n == 0 then [] else Gathered(replies, n - 1) + PageItems(replies[n - 1])
  }

  /** How many items a page contributes. */
  function ItemCount(data: Json): nat {
    if data.JArr? then |data.items| else 1
  }

  function TotalCount(replies: seq<Result<ApiResponse, PylonError>>, n: nat): nat
    requires n <= |replies|
  {
    if n == 0 then 0
    else TotalCount(replies, n - 1) + (if replies[n - 1].Ok? then ItemCount(replies[n - 1].value.data) else 0)
  }

  /** The aggregate holds exactly as many items as the pages together. */
  lemma {:induction false} GatheredLength(replies: seq<Result<ApiResponse, PylonError>>, n: nat)
    requires n <= |replies|
    ensures |Gathered(replies, n)| == TotalCount(replies, n)
  {
    if n > 0 {
      GatheredLength(replies, n - 1);
    }
  }

  /** Each further page only appends: earlier pages' items are never changed. */
  lemma {:induction false} GatheredGrows(replies: seq<Result<ApiResponse, PylonError>>, m: nat, n: nat)
    requires m <= n <= |replies|
    ensures Gathered(replies, m) <= Gathered(replies, n)
  {
    if m < n {
      GatheredGrows(replies, m, n - 1);
    }
  }

  /** What a listing ends with. */
  datatype ListOutcome =
    | Listed(response: ApiResponse)   // the response handed back to the command
    | Failed(error: PylonError)       // a `get` threw
    | PagesExhausted                  // the script had no page for the next `get`

  /** The single-page listing's outcome for the one reply. */
  function Single(reply: Result<ApiResponse, PylonError>): ListOutcome {
    match reply
    case Ok(r) => Listed(r)
    case Err(e) => Failed(e)
  }

  /**
   * The outcome of an auto-paginated listing that made `n` calls: the
   * script ran out, the last call failed, or the last page stopped the loop
   * and the response carries only the gathered items.
   */
  function Collected(replies: seq<Result<ApiResponse, PylonError>>, n: nat): ListOutcome
    requires n <= |replies|
  {
    if n == 0 || Continues(replies[n - 1]) then PagesExhausted
    else if replies[n - 1].Err? then Failed(replies[n - 1].error)
    else Listed(ApiResponse(JArr(Gathered(replies, n)), None, None, None))
  }

  /** The first `n` replies all led to a further call. */
  predicate Chained(replies: seq<Result<ApiResponse, PylonError>>, n: nat)
    requires n <= |replies|
  {
    n == 0 || (Chained(replies, n - 1) && Continues(replies[n - 1]))
  }

  /** The parameters of the first `n` calls of an auto-paginated listing. */
  function Requests(opts: PaginationOptions, replies: seq<Result<ApiResponse, PylonError>>, n: nat): (ps: seq<Record<ParamValue>>)
    requires n <= |replies|
    ensures |ps| == n
  {
    if n == 0 then [] else Requests(opts, replies, n - 1) + [CallParams(opts, replies, n - 1)]
  }

  /** Every call of the listing carried the parameters object as the loop left it then. */
  lemma {:induction false} RequestIsCallParams(opts: PaginationOptions, replies: seq<Result<ApiResponse, PylonError>>, n: nat)
    requires n <= |replies|
    ensures forall j :: 0 <= j < n ==> Requests(opts, replies, n)[j] == CallParams(opts, replies, j)
  {
    if n > 0 {
      RequestIsCallParams(opts, replies, n - 1);
      var before := Requests(opts, replies, n - 1);
      var last := CallParams(opts, replies, n - 1);
      assert Requests(opts, replies, n) == before + [last];
      forall j | 0 <= j < n
        ensures (before + [last])[j] == CallParams(opts, replies, j)
      {
        if j < n - 1 {
          assert (before + [last])[j] == before[j];
        }
      }
    }
  }

  /** Call `j` of the listing carried the parameters of `ParamsAt`. */
  lemma RequestAt(opts: PaginationOptions, replies: seq<Result<ApiResponse, PylonError>>, n: nat, j: nat)
    requires j < n <= |replies|
    ensures Requests(opts, replies, n)[j] == ParamsAt(opts, replies, j)
  {
    RequestIsCallParams(opts, replies, n);
    CallParamsClosedForm(opts, replies, j);
  }

  /** Each of the first `n` replies led to a further call. */
  lemma {:induction false} ChainedAt(replies: seq<Result<ApiResponse, PylonError>>, n: nat)
    requires n <= |replies| && Chained(replies, n)
    ensures forall j :: 0 <= j < n ==> Continues(replies[j])
  {
    if n > 0 {
      ChainedAt(replies, n - 1);
    }
  }

  /**
   * `list`. Without `all`: one `get` with the built parameters, its reply
   * handed back as it is. With `all`: `get` after `get`, each with the
   * cursor of the page before, until a page has no next page or no cursor;
   * `sent` records the parameters of every call made.
   */
  method List(opts: PaginationOptions, replies: seq<Result<ApiResponse, PylonError>>)
    returns (outcome: ListOutcome, sent: seq<Record<ParamValue>>)
    ensures !opts.all ==> |sent| == if replies == [] then 0 else 1
    ensures !opts.all && replies == [] ==> outcome == PagesExhausted
    ensures !opts.all && replies != [] ==> sent[0] == BuildParams(opts) && outcome == Single(replies[0])
    ensures opts.all ==> |sent| <= |replies| && sent == Requests(opts, replies, |sent|)
    ensures opts.all && |sent| > 0 ==> Chained(replies, |sent| - 1)
    ensures opts.all ==> outcome == Collected(replies, |sent|)
    ensures opts.all && outcome.PagesExhausted? ==> |sent| == |replies|
  {
    if !opts.all {
      if replies == [] {
        return PagesExhausted, [];
      }
      return Single(replies[0]), [BuildParams(opts)];
    }
    outcome, sent := ListAll(opts, replies);
  }

  /**
   * What an auto-paginated listing that made the calls `sent` promises:
   * it made at most one call per reply, each call carried the parameters
   * the loop had then, every call but the last led to a further one, and the
   * outcome is the one `Collected` gives for that many calls, running out of
   * replies only when every reply was used.
   */
  ghost predicate ListedBy(opts: PaginationOptions, replies: seq<Result<ApiResponse, PylonError>>,
                           outcome: ListOutcome, sent: seq<Record<ParamValue>>)
  {
    && |sent| <= |replies|
    && sent == Requests(opts, replies, |sent|)
    && (|sent| > 0 ==> Chained(replies, |sent| - 1))
    && outcome == Collected(replies, |sent|)
    && (outcome.PagesExhausted? ==> |sent| == |replies|)
  }

  /**
   * The auto-paginating loop of `list`: the calls stop at the first reply
   * that is an error or has no next page or no cursor, or when the replies
   * run out.
   */
  method ListAll(opts: PaginationOptions, replies: seq<Result<ApiResponse, PylonError>>)
    returns (outcome: ListOutcome, sent: seq<Record<ParamValue>>)
    ensures ListedBy(opts, replies, outcome, sent)
  {
    var params := BuildParams(opts);
    var allData: seq<Json> := [];
    var nextCursor := opts.cursor;
    sent := [];
    var i := 0;
    while i < |replies|
      invariant Looping(opts, replies, i, sent, allData, params, nextCursor)
      decreases |replies| - i
    {
      ghost var previous := params;
      if Truthy(nextCursor) {
        params := Assign(params, "cursor", Str(nextCursor.value));
      }
      LoopCall(opts, replies, i, sent, allData, previous, nextCursor, params);
      var result := replies[i];
      sent := sent + [params];
      if result.Err? {
        outcome := Failed(result.error);
        return;
      }
      var response := result.value;
      allData := allData + Items(response.data);
      if response.hasNextPage != Some(true) || !Truthy(response.cursor) {
        outcome := Listed(ApiResponse(JArr(allData), None, None, None));
        return;
      }
      nextCursor := response.cursor;
      i := i + 1;
    }
    LoopExhausted(opts, replies, i, sent, allData, params, nextCursor);
    outcome := PagesExhausted;
  }

  /**
   * The state of `ListAll`'s loop before call `i`: the calls made so far,
   * the items gathered, the parameters object and the cursor to send next.
   */
  ghost predicate Looping(opts: PaginationOptions, replies: seq<Result<ApiResponse, PylonError>>, i: nat,
                          sent: seq<Record<ParamValue>>, allData: seq<Json>,
                          params: Record<ParamValue>, nextCursor: Option<string>)
  {
    && i <= |replies|
    && |sent| == i
    && sent == Requests(opts, replies, i)
    && Chained(replies, i)
    && allData == Gathered(replies, i)
    && (i == 0 ==> params == BuildParams(opts) && nextCursor == opts.cursor)
    && (i > 0 ==> params == CallParams(opts, replies, i - 1) && nextCursor == Some(NextCursor(replies[i - 1])))
  }

  /** When the replies run out, every call so far led to a further one. */
  lemma LoopExhausted(opts: PaginationOptions, replies: seq<Result<ApiResponse, PylonError>>, i: nat,
                      sent: seq<Record<ParamValue>>, allData: seq<Json>,
                      params: Record<ParamValue>, nextCursor: Option<string>)
    requires i == |replies| && Looping(opts, replies, i, sent, allData, params, nextCursor)
    ensures ListedBy(opts, replies, PagesExhausted, sent)
  {
    if i > 0 {
      assert Chained(replies, i - 1) && Continues(replies[i - 1]);
    }
    assert Collected(replies, |sent|) == PagesExhausted;
  }

  /** One pass of `ListAll`'s loop: the call it makes, and the state or outcome after it. */
  lemma LoopCall(opts: PaginationOptions, replies: seq<Result<ApiResponse, PylonError>>, i: nat,
                 sent: seq<Record<ParamValue>>, allData: seq<Json>,
                 params: Record<ParamValue>, nextCursor: Option<string>, p: Record<ParamValue>)
    requires i < |replies| && Looping(opts, replies, i, sent, allData, params, nextCursor)
    requires p == if Truthy(nextCursor) then Assign(params, "cursor", Str(nextCursor.value)) else params
    ensures replies[i].Err? ==> ListedBy(opts, replies, Failed(replies[i].error), sent + [p])
    ensures replies[i].Ok? && !Continues(replies[i]) ==>
              ListedBy(opts, replies, Listed(ApiResponse(JArr(allData + Items(replies[i].value.data)), None, None, None)),
                       sent + [p])
    ensures Continues(replies[i]) ==>
              Looping(opts, replies, i + 1, sent + [p], allData + Items(replies[i].value.data), p, replies[i].value.cursor)
  {
    LoopParams(opts, replies, i, sent, allData, params, nextCursor, p);
    CallStep(opts, replies, i);
    assert |sent + [p]| == i + 1;
  }

  /** The parameters object the loop sends on call `i` is that call's `CallParams`. */
  lemma LoopParams(opts: PaginationOptions, replies: seq<Result<ApiResponse, PylonError>>, i: nat,
                   sent: seq<Record<ParamValue>>, allData: seq<Json>,
                   params: Record<ParamValue>, nextCursor: Option<string>, p: Record<ParamValue>)
    requires i < |replies| && Looping(opts, replies, i, sent, allData, params, nextCursor)
    requires p == if Truthy(nextCursor) then Assign(params, "cursor", Str(nextCursor.value)) else params
    ensures p == CallParams(opts, replies, i)
  {
    if i > 0 {
      assert Continues(replies[i - 1]);
    }
  }

  /** What call `i` adds to the listing: its parameters, its items, its link in the chain. */
  lemma CallStep(opts: PaginationOptions, replies: seq<Result<ApiResponse, PylonError>>, i: nat)
    requires i < |replies|
    ensures Requests(opts, replies, i + 1) == Requests(opts, replies, i) + [CallParams(opts, replies, i)]
    ensures Gathered(replies, i + 1) == Gathered(replies, i) + PageItems(replies[i])
    ensures Chained(replies, i + 1) == (Chained(replies, i) && Continues(replies[i]))
    ensures !Continues(replies[i]) && replies[i].Err? ==> Collected(replies, i + 1) == Failed(replies[i].error)
    ensures !Continues(replies[i]) && replies[i].Ok? ==>
              Collected(replies, i + 1) == Listed(ApiResponse(JArr(Gathered(replies, i + 1)), None, None, None))
  {
  }

  /** A listing of two pages, the first pointing at the second, gathers both pages' items in order. */
  lemma TwoPages(replies: seq<Result<ApiResponse, PylonError>>)
    requires |replies| >= 2 && Continues(replies[0])
    requires replies[1].Ok? && replies[1].value.hasNextPage != Some(true)
    ensures Collected(replies, 2) ==
              Listed(ApiResponse(JArr(Items(replies[0].value.data) + Items(replies[1].value.data)), None, None, None))
  {
    assert Gathered(replies, 1) == Items(replies[0].value.data);
    assert Gathered(replies, 2) == Gathered(replies, 1) + Items(replies[1].value.data);
  }
}
