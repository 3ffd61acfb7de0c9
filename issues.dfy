/**
 * The `issues list` command (src/commands/issues.ts): the date range is
 * checked first, then a client is created, then the issues are listed with
 * the range as extra filters, and the response is printed.
 *
 * `new Date(text).getTime()` is not modelled: each date arrives both as the
 * text the user typed and as the instant it denotes in milliseconds, `None`
 * when the text does not parse (NaN).
 */
module Issues {
  import opened Common
  import opened Errors
  import opened JsonModel
  import opened HttpClient
  import opened Pagination
  import opened Formatter

  /** Milliseconds in a day. */
  const DayMs := 1000 * 60 * 60 * 24

  /** The longest range, in days, that may be listed at once. */
  const MaxRangeDays := 30

  function InvalidStart(start: string): string {
    "Invalid start date: " + start + ". Use RFC3339 format (e.g. 2024-01-01T00:00:00Z)"
  }

  function InvalidEnd(end: string): string {
    "Invalid end date: " + end + ". Use RFC3339 format (e.g. 2024-01-31T00:00:00Z)"
  }

  const RangeTooLong := "Date range cannot exceed 30 days"

  const StartAfterEnd := "Start date must be before end date"

  /**
   * `validateDateRange`: both dates must parse, the start first, and the end
   * may lie at most 30 days after the start and not before it. The
   * comparison `diffMs / DayMs > 30` is stated on the integer `diffMs`,
   * which dividing by a positive constant leaves in the same order.
   */
  function ValidateDateRange(start: string, end: string, startMs: Option<int>, endMs: Option<int>): (o: Outcome<PylonError>)
    ensures o.Pass? <==> startMs.Some? && endMs.Some? && 0 <= endMs.value - startMs.value <= MaxRangeDays * DayMs
    ensures o.Fail? ==> o.error.ValidationError?
    ensures startMs.None? ==> o == Fail(ValidationError(InvalidStart(start)))
    ensures startMs.Some? && endMs.None? ==> o == Fail(ValidationError(InvalidEnd(end)))
    ensures startMs.Some? && endMs.Some? && endMs.value - startMs.value > MaxRangeDays * DayMs ==>
              o == Fail(ValidationError(RangeTooLong))
    ensures startMs.Some? && endMs.Some? && endMs.value < startMs.value ==>
              o == Fail(ValidationError(StartAfterEnd))
  {
    if startMs.None? then Fail(ValidationError(InvalidStart(start)))
    else if endMs.None? then Fail(ValidationError(InvalidEnd(end)))
    else
      var diffMs := endMs.value - startMs.value;
      if diffMs > MaxRangeDays * DayMs then Fail(ValidationError(RangeTooLong))
      else if diffMs < 0 then Fail(ValidationError(StartAfterEnd))
      else Pass
  }

  /** A range of exactly 30 days, and an empty range, are accepted. */
  lemma BoundaryRangesAccepted(start: string, end: string, t: int)
    ensures ValidateDateRange(start, end, Some(t), Some(t + 30 * 86400000)) == Pass
    ensures ValidateDateRange(start, end, Some(t), Some(t)) == Pass
  {
  }

  /** 2024-01-01T00:00:00Z to 2024-02-05T00:00:00Z spans 35 days and is refused. */
  lemma ThirtyFiveDaysRefused(start: string, end: string)
    ensures ValidateDateRange(start, end, Some(1704067200000), Some(1707091200000)) == Fail(ValidationError(RangeTooLong))
    ensures ValidateDateRange(end, start, Some(1707091200000), Some(1704067200000)) == Fail(ValidationError(StartAfterEnd))
  {
  }

  /** The range as the extra filters of the listing: `start_time`, then `end_time`. */
  function RangeFilters(start: string, end: string): (r: Rest)
    ensures Keys(r) == ["start_time", "end_time"]
    ensures Lookup(r, "start_time") == Some(Some(start)) && Lookup(r, "end_time") == Some(Some(end))
  {
    var withStart := Assign(Empty(), "start_time", Some(start));
    var filters := Assign(withStart, "end_time", Some(end));
    assert Keys(filters) == ["start_time", "end_time"];
    filters
  }

  /** The options `issues list` hands to `list`. */
  function IssueOptions(start: string, end: string, cursor: Option<string>, limit: Option<int>, all: bool): PaginationOptions {
    PaginationOptions(cursor, limit, all, RangeFilters(start, end))
  }

  /** How a command ends: it printed, it raised an error for the top-level handler, or the page script ran out. */
  datatype CommandResult = Shown(printed: seq<Printed>) | Raised(error: PylonError) | Unscripted

  /**
   * A listing outcome as the command reports it, printed under the given
   * options; an error thrown while printing goes to the top-level handler.
   */
  function Report(outcome: ListOutcome, format: FormatOptions): CommandResult {
    match outcome
    case Listed(response) =>
      var printed := OutputLines(response, format);
      if printed.Ok? then Shown(printed.value) else Raised(printed.error)
    case Failed(e) => Raised(e)
    case PagesExhausted => Unscripted
  }

  /**
   * The action of `issues list`. `flag`, `env` and `stored` are the key
   * sources of `createClient`; `replies` scripts the pages the listing gets.
   * `sent` records the parameters of every request made.
   */
  method ListIssues(start: string, end: string, startMs: Option<int>, endMs: Option<int>,
                    cursor: Option<string>, limit: Option<int>, all: bool,
                    flag: Option<string>, env: Option<string>, stored: Option<string>,
                    replies: seq<Result<ApiResponse, PylonError>>, format: FormatOptions)
    returns (result: CommandResult, sent: seq<Record<ParamValue>>)
    ensures ValidateDateRange(start, end, startMs, endMs).Fail? ==>
              result == Raised(ValidateDateRange(start, end, startMs, endMs).error) && sent == []
    ensures ValidateDateRange(start, end, startMs, endMs).Pass? && CreateClient(flag, env, stored).Err? ==>
              result == Raised(AuthError) && sent == []
    ensures ValidateDateRange(start, end, startMs, endMs).Pass? && CreateClient(flag, env, stored).Ok? && !all ==>
              |sent| == (if replies == [] then 0 else 1)
              && (replies == [] ==> result == Unscripted)
              && (replies != [] ==> sent[0] == BuildParams(IssueOptions(start, end, cursor, limit, all))
                                    && result == Report(Single(replies[0]), format))
    ensures ValidateDateRange(start, end, startMs, endMs).Pass? && CreateClient(flag, env, stored).Ok? && all ==>
              |sent| <= |replies|
              && sent == Requests(IssueOptions(start, end, cursor, limit, all), replies, |sent|)
              && result == Report(Collected(replies, |sent|), format)
    ensures forall j :: 0 <= j < |sent| ==>
              Lookup(sent[j], "start_time") == Some(Str(start)) && Lookup(sent[j], "end_time") == Some(Str(end))
  {
    var checked := ValidateDateRange(start, end, startMs, endMs);
    if checked.Fail? {
      return Raised(checked.error), [];
    }
    var client := CreateClient(flag, env, stored);
    if client.Err? {
      return Raised(client.error), [];
    }
    var opts := IssueOptions(start, end, cursor, limit, all);
    var outcome;
    outcome, sent := List(opts, replies);
    forall j | 0 <= j < |sent|
      ensures Lookup(sent[j], "start_time") == Some(Str(start)) && Lookup(sent[j], "end_time") == Some(Str(end))
    {
      FiltersSent(opts, start, end, replies, sent, j);
    }
    match outcome {
      case Listed(response) =>
        var printed := Output(response, format);
        result := if printed.Ok? then Shown(printed.value) else Raised(printed.error);
      case Failed(e) =>
        result := Raised(e);
      case PagesExhausted =>
        result := Unscripted;
    }
  }

  /** Every request the listing makes carries the range filters. */
  lemma FiltersSent(opts: PaginationOptions, start: string, end: string, replies: seq<Result<ApiResponse, PylonError>>,
                    sent: seq<Record<ParamValue>>, j: nat)
    requires opts.rest == RangeFilters(start, end)
    requires j < |sent| <= |replies|
    requires sent == Requests(opts, replies, |sent|) || (|sent| == 1 && sent[0] == BuildParams(opts))
    ensures Lookup(sent[j], "start_time") == Some(Str(start)) && Lookup(sent[j], "end_time") == Some(Str(end))
  {
    BuildParamsContents(opts);
    if sent == Requests(opts, replies, |sent|) {
      RequestAt(opts, replies, |sent|, j);
      ParamsAtContents(opts, replies, j);
    }
  }
}
