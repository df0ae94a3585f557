/** The control of the `do … while` pagination loop of `sync_stock_price`,
    as a function of the scripted API answers and of the external stop
    requests: which offsets are fetched and why the loop ends. Loop top `i`
    (counting from 0) fetches with answer `pages[i]`; past the end of the
    script the API gives nothing (`NoResponse`), so every run ends. A stop
    request at index `i` is an external write of `stopped` that lands just
    before loop top `i` reads the status. */
module Pagination {
  import opened Common
  import opened Api
  import opened Stock

  /** `$batch_size`, the `limit` of every products query. */
  const BatchSize: nat := 100

  /** Why the loop ended. */
  datatype Exit =
    | UserStop            // status read as `stopped` at a loop top
    | ConnectionLost      // no response
    | ApiFailure          // errors that are not a rate limit
    | RateLimitedAtStart  // rate limited before any page was read: `continue` tests an unset count
    | NothingLeft         // an empty page
    | NotFullPage         // a non-empty page whose size is not `BatchSize` (fewer or more records)

  datatype Run = Run(offsets: seq<nat>, exit: Exit)

  function Response(pages: seq<PageResponse>, i: nat): PageResponse {
    if i < |pages| then pages[i] else NoResponse
  }

  predicate StopRequested(stops: seq<bool>, i: nat) {
    i < |stops| && stops[i]
  }

  function After(prefix: seq<nat>, r: Run): Run {
    Run(prefix + r.offsets, r.exit)
  }

  /** The loop from loop top `top` on, with `offset` and the previous
      iteration's `$batch_count` (`None` before any page was read). */
  function Paginate(pages: seq<PageResponse>, stops: seq<bool>, top: nat, offset: nat, lastCount: Option<nat>): Run
    decreases |pages| - top
  {
    if StopRequested(stops, top) then Run([], UserStop)
    else
      match Response(pages, top)
      case NoResponse => Run([offset], ConnectionLost)
      case ApiErrors(json) =>
        if !IsRateLimited(json) then Run([offset], ApiFailure)
        else if lastCount == Some(BatchSize) then After([offset], Paginate(pages, stops, top + 1, offset, lastCount))
        else Run([offset], RateLimitedAtStart)
      case Page(edges) =>
        if |edges| == 0 then Run([offset], NothingLeft)
        else if |edges| == BatchSize then After([offset], Paginate(pages, stops, top + 1, offset + BatchSize, Some(|edges|)))
        else Run([offset], NotFullPage)
  }

  /** `$offset` after a fetch answered with `response`: it moves on by
      `BatchSize` only past a page that had records. */
  function OffsetAfter(response: PageResponse, offset: nat): nat {
    if response.Page? && |response.edges| > 0 then offset + BatchSize else offset
  }

  /** `$batch_count` after a fetch answered with `response`: only a page
      sets it. */
  function CountAfter(response: PageResponse, lastCount: Option<nat>): Option<nat> {
    if response.Page? then Some(|response.edges|) else lastCount
  }

  /** Whether the loop goes back to its top after a fetch answered with
      `response`: a full page, or a rate limit once a full page was read. */
  predicate GoesOn(response: PageResponse, lastCount: Option<nat>) {
    match response
    case NoResponse => false
    case ApiErrors(json) => IsRateLimited(json) && lastCount == Some(BatchSize)
    case Page(edges) => |edges| == BatchSize
  }

  /** One loop top without a stop request, in terms of the step functions. */
  lemma PaginateUnfold(pages: seq<PageResponse>, stops: seq<bool>, top: nat, offset: nat, lastCount: Option<nat>)
    requires !StopRequested(stops, top)
    ensures var response := Response(pages, top);
      var r := Paginate(pages, stops, top, offset, lastCount);
      && (GoesOn(response, lastCount) ==>
            r == After([offset], Paginate(pages, stops, top + 1, OffsetAfter(response, offset), CountAfter(response, lastCount))))
      && (!GoesOn(response, lastCount) ==> r.offsets == [offset] && r.exit != UserStop)
  {
  }

  /** The loop fetches at most once per scripted answer, plus the one fetch
      that finds nothing past the end. */
  lemma {:induction false} PaginateBounded(pages: seq<PageResponse>, stops: seq<bool>, top: nat, offset: nat, lastCount: Option<nat>)
    ensures |Paginate(pages, stops, top, offset, lastCount).offsets| <= if top < |pages| then |pages| - top + 1 else 1
    decreases |pages| - top
  {
    if !StopRequested(stops, top) && top < |pages| {
      match pages[top]
      case NoResponse =>
      case ApiErrors(json) =>
        if IsRateLimited(json) && lastCount == Some(BatchSize) {
          PaginateBounded(pages, stops, top + 1, offset, lastCount);
        }
      case Page(edges) =>
        if |edges| == BatchSize {
          PaginateBounded(pages, stops, top + 1, offset + BatchSize, Some(|edges|));
        }
    }
  }

  /** A whole run of the loop, from its first loop top. */
  function SyncLoop(pages: seq<PageResponse>, stops: seq<bool>): Run {
    Paginate(pages, stops, 0, 0, None)
  }

  /** How the loop goes from one fetch to the next: only a rate-limited
      answer (same offset again) or a full page (offset plus `BatchSize`). */
  predicate Advances(response: PageResponse, from: nat, to: nat) {
    match response
    case NoResponse => false
    case ApiErrors(json) => IsRateLimited(json) && to == from
    case Page(edges) => |edges| == BatchSize && to == from + BatchSize
  }

  /** How a loop that fetched with `response` last ends with `exit`. */
  predicate Ends(response: PageResponse, exit: Exit) {
    match exit
    case UserStop => false
    case ConnectionLost => response.NoResponse?
    case ApiFailure => response.ApiErrors? && !IsRateLimited(response.json)
    case RateLimitedAtStart => response.ApiErrors? && IsRateLimited(response.json)
    case NothingLeft => response.Page? && |response.edges| == 0
    case NotFullPage => response.Page? && |response.edges| != 0 && |response.edges| != BatchSize
  }

  /** Every fetch but the last is followed by another one at the offset the
      answer calls for, and no stop was requested at those loop tops. */
  lemma {:induction false} PaginateSteps(pages: seq<PageResponse>, stops: seq<bool>, top: nat, offset: nat, lastCount: Option<nat>)
    ensures var r := Paginate(pages, stops, top, offset, lastCount);
      && (|r.offsets| > 0 ==> r.offsets[0] == offset)
      && (forall t :: top <= t < top + |r.offsets| ==> !StopRequested(stops, t))
      && (forall i :: 0 <= i < |r.offsets| - 1 ==> Advances(Response(pages, top + i), r.offsets[i], r.offsets[i + 1]))
    decreases |pages| - top
  {
    if !StopRequested(stops, top) {
      match Response(pages, top)
      case NoResponse =>
      case ApiErrors(json) =>
        if IsRateLimited(json) && lastCount == Some(BatchSize) {
          PaginateSteps(pages, stops, top + 1, offset, lastCount);
          StepsPrepend(pages, stops, top, offset, Paginate(pages, stops, top + 1, offset, lastCount));
        }
      case Page(edges) =>
        if |edges| == BatchSize {
          PaginateSteps(pages, stops, top + 1, offset + BatchSize, Some(|edges|));
          StepsPrepend(pages, stops, top, offset, Paginate(pages, stops, top + 1, offset + BatchSize, Some(|edges|)));
        }
    }
  }

  lemma StepsPrepend(pages: seq<PageResponse>, stops: seq<bool>, top: nat, offset: nat, rest: Run)
    requires !StopRequested(stops, top)
    requires |rest.offsets| > 0 ==> Advances(Response(pages, top), offset, rest.offsets[0])
    requires forall t :: top + 1 <= t < top + 1 + |rest.offsets| ==> !StopRequested(stops, t)
    requires forall i :: 0 <= i < |rest.offsets| - 1 ==> Advances(Response(pages, top + 1 + i), rest.offsets[i], rest.offsets[i + 1])
    ensures var r := After([offset], rest);
      && r.offsets[0] == offset
      && (forall t :: top <= t < top + |r.offsets| ==> !StopRequested(stops, t))
      && (forall i :: 0 <= i < |r.offsets| - 1 ==> Advances(Response(pages, top + i), r.offsets[i], r.offsets[i + 1]))
  {
    var r := After([offset], rest);
    forall i | 0 <= i < |r.offsets| - 1
      ensures Advances(Response(pages, top + i), r.offsets[i], r.offsets[i + 1])
    {
      if i > 0 {
        assert r.offsets[i] == rest.offsets[i - 1] && r.offsets[i + 1] == rest.offsets[i];
        assert top + i == top + 1 + (i - 1);
      }
    }
  }

  /** The loop ends exactly on a stop request seen at a loop top, or on the
      last answer fetched; an early rate limit ends it only while no page
      has been read yet. */
  lemma {:induction false} PaginateEnds(pages: seq<PageResponse>, stops: seq<bool>, top: nat, offset: nat, lastCount: Option<nat>)
    ensures var r := Paginate(pages, stops, top, offset, lastCount);
      var n := |r.offsets|;
      && (r.exit == UserStop ==> StopRequested(stops, top + n))
      && (r.exit != UserStop ==> n > 0 && Ends(Response(pages, top + n - 1), r.exit))
      && (r.exit == RateLimitedAtStart ==> n == 1 && lastCount != Some(BatchSize))
    decreases |pages| - top
  {
    if !StopRequested(stops, top) {
      match Response(pages, top)
      case NoResponse =>
      case ApiErrors(json) =>
        if IsRateLimited(json) && lastCount == Some(BatchSize) {
          PaginateEnds(pages, stops, top + 1, offset, lastCount);
          var rest := Paginate(pages, stops, top + 1, offset, lastCount);
          assert rest.exit != RateLimitedAtStart;
          assert top + 1 + |rest.offsets| == top + (1 + |rest.offsets|);
        }
      case Page(edges) =>
        if |edges| == BatchSize {
          PaginateEnds(pages, stops, top + 1, offset + BatchSize, Some(|edges|));
          var rest := Paginate(pages, stops, top + 1, offset + BatchSize, Some(|edges|));
          assert top + 1 + |rest.offsets| == top + (1 + |rest.offsets|);
        }
    }
  }

  /** `$api_limit_wait`, in seconds; the log line reports it in minutes. */
  const RateLimitWaitSeconds: nat := 3600

  /** What one pass of the loop body logs after the stop check, given what
      the page's records log. */
  function FetchLog(response: PageResponse, offset: nat, recordsLog: seq<Message>): seq<Message> {
    match response
    case NoResponse => [PageConnectFailed]
    case ApiErrors(json) =>
      [PageApiError(json)] + if IsRateLimited(json) then [RateLimitWait(RateLimitWaitSeconds / 60)] else []
    case Page(edges) =>
      if |edges| == 0 then [AllProcessed] else [BatchRange(offset + 1, offset + |edges|)] + recordsLog
  }

  /** What the loop logs from loop top `top` on, where `products` is the
      store as that loop top finds it: the stop line at a loop top with a
      stop request, otherwise the lines of the pass, and then those of the
      loop tops after it while the loop goes on. */
  function RunLog(ids: map<string, ProductId>, faults: map<ProductId, string>, products: map<ProductId, Product>,
                  pages: seq<PageResponse>, stops: seq<bool>, top: nat, offset: nat, lastCount: Option<nat>): seq<Message>
    decreases |pages| - top
  {
    if StopRequested(stops, top) then [StoppedByUser]
    else
      var response := Response(pages, top);
      var b := ApplyAll(ids, faults, products, PageRecords(response));
      FetchLog(response, offset, b.logged)
        + if GoesOn(response, lastCount)
          then RunLog(ids, faults, b.products, pages, stops, top + 1, OffsetAfter(response, offset), CountAfter(response, lastCount))
          else []
  }

  /** What a whole run of the loop logs. */
  function SyncLoopLog(ids: map<string, ProductId>, faults: map<ProductId, string>, products: map<ProductId, Product>,
                       pages: seq<PageResponse>, stops: seq<bool>): seq<Message>
  {
    RunLog(ids, faults, products, pages, stops, 0, 0, None)
  }

  /** The loop logs its stop line exactly when it ends on a stop request:
      no other line of a run is that one. */
  lemma {:induction false} RunLogStops(ids: map<string, ProductId>, faults: map<ProductId, string>, products: map<ProductId, Product>,
                                       pages: seq<PageResponse>, stops: seq<bool>, top: nat, offset: nat, lastCount: Option<nat>)
    ensures StoppedByUser in RunLog(ids, faults, products, pages, stops, top, offset, lastCount)
        <==> Paginate(pages, stops, top, offset, lastCount).exit == UserStop
    decreases |pages| - top
  {
    if !StopRequested(stops, top) {
      var response := Response(pages, top);
      PassLogsNoStop(ids, faults, products, response, offset);
      PaginateUnfold(pages, stops, top, offset, lastCount);
      if GoesOn(response, lastCount) {
        GoesOnWithinScript(pages, top, lastCount);
        var b := ApplyAll(ids, faults, products, PageRecords(response));
        RunLogStops(ids, faults, b.products, pages, stops, top + 1, OffsetAfter(response, offset), CountAfter(response, lastCount));
      }
    }
  }

  /** No line of a pass of the loop body is the stop line. */
  lemma PassLogsNoStop(ids: map<string, ProductId>, faults: map<ProductId, string>, products: map<ProductId, Product>,
                       response: PageResponse, offset: nat)
    ensures StoppedByUser !in FetchLog(response, offset, ApplyAll(ids, faults, products, PageRecords(response)).logged)
  {
    ApplyAllLogsRecords(ids, faults, products, PageRecords(response));
  }

  /** The loop goes on only after an answer of the script. */
  lemma GoesOnWithinScript(pages: seq<PageResponse>, top: nat, lastCount: Option<nat>)
    requires GoesOn(Response(pages, top), lastCount)
    ensures top < |pages|
  {
  }

  /** Number of full pages among the answers to the first `n` fetches. */
  function FullPages(pages: seq<PageResponse>, n: nat): nat {
    if n == 0 then 0
    else FullPages(pages, n - 1) + (match Response(pages, n - 1) case Page(edges) => if |edges| == BatchSize then 1 else 0 case _ => 0)
  }

  /** Offsets of a whole run: fetch `i` asks for `BatchSize` times the number
      of full pages read before it, so the offset never moves past a page
      that was not read, and a rate-limited fetch is retried at the same
      offset. */
  lemma {:induction false} PaginationOffsets(pages: seq<PageResponse>, stops: seq<bool>)
    ensures var r := SyncLoop(pages, stops);
      forall i :: 0 <= i < |r.offsets| ==> r.offsets[i] == BatchSize * FullPages(pages, i)
  {
    var r := SyncLoop(pages, stops);
    PaginateSteps(pages, stops, 0, 0, None);
    forall i | 0 <= i < |r.offsets|
      ensures r.offsets[i] == BatchSize * FullPages(pages, i)
    {
      OffsetAt(pages, r.offsets, i);
    }
  }

  lemma {:induction false} OffsetAt(pages: seq<PageResponse>, offsets: seq<nat>, i: nat)
    requires i < |offsets|
    requires |offsets| > 0 ==> offsets[0] == 0
    requires forall j :: 0 <= j < |offsets| - 1 ==> Advances(Response(pages, j), offsets[j], offsets[j + 1])
    ensures offsets[i] == BatchSize * FullPages(pages, i)
  {
    if i > 0 {
      OffsetAt(pages, offsets, i - 1);
      assert Advances(Response(pages, i - 1), offsets[i - 1], offsets[i]);
    }
  }

  /** The records of the answer to one fetch (none unless it is a page). */
  function PageRecords(response: PageResponse): seq<Edge> {
    match response
    case Page(edges) => edges
    case _ => []
  }

  /** The records processed by the first `n` fetches, in order. */
  function Processed(pages: seq<PageResponse>, n: nat): seq<Edge> {
    if n == 0 then [] else Processed(pages, n - 1) + PageRecords(Response(pages, n - 1))
  }

  /** The effect on the store, the counters and the log of the pages read by
      the first `n` fetches, one `foreach` after the other. */
  function Effect(ids: map<string, ProductId>, faults: map<ProductId, string>,
                  products: map<ProductId, Product>, pages: seq<PageResponse>, n: nat): BatchResult
  {
    if n == 0 then BatchResult(products, 0, 0, [])
    else
      var prev := Effect(ids, faults, products, pages, n - 1);
      var b := ApplyAll(ids, faults, prev.products, PageRecords(Response(pages, n - 1)));
      BatchResult(b.products, prev.updated + b.updated, prev.errors + b.errors, prev.logged + b.logged)
  }
  /** Every record of every page read is counted once, as updated or as an
      error. */
  lemma {:induction false} EffectCounts(ids: map<string, ProductId>, faults: map<ProductId, string>,
                                        products: map<ProductId, Product>, pages: seq<PageResponse>, n: nat)
    ensures var r := Effect(ids, faults, products, pages, n);
      r.updated + r.errors == |Processed(pages, n)|
  {
    if n > 0 {
      EffectCounts(ids, faults, products, pages, n - 1);
      var prev := Effect(ids, faults, products, pages, n - 1);
      ApplyAllCounts(ids, faults, prev.products, PageRecords(Response(pages, n - 1)));
    }
  }


  /** A whole run processes its records as one `foreach` over every record
      read, in the order read. */
  lemma {:induction false} EffectIsOneForeach(ids: map<string, ProductId>, faults: map<ProductId, string>,
                                              products: map<ProductId, Product>, pages: seq<PageResponse>, n: nat)
    ensures Effect(ids, faults, products, pages, n) == ApplyAll(ids, faults, products, Processed(pages, n))
  {
    if n == 0 {
      assert Processed(pages, 0) == [];
    } else {
      var m: nat := n - 1;
      EffectIsOneForeach(ids, faults, products, pages, m);
      var page := PageRecords(Response(pages, m));
      EffectSnoc(ids, faults, products, pages, m);
      ProcessedSnoc(pages, m);
      NextFetch(ids, faults, products, pages, m, n);
      ApplyAllSplit(ids, faults, products, Processed(pages, m), page);
    }
  }

  /** The effect of one more fetch: its page's records are applied after
      those of the fetches before it. */
  lemma EffectSnoc(ids: map<string, ProductId>, faults: map<ProductId, string>,
                   products: map<ProductId, Product>, pages: seq<PageResponse>, m: nat)
    ensures var prev := Effect(ids, faults, products, pages, m);
      Effect(ids, faults, products, pages, m + 1) == Then(prev, ApplyAll(ids, faults, prev.products, PageRecords(Response(pages, m))))
  {
  }

  /** The records of one more fetch come after those of the fetches before
      it. */
  lemma ProcessedSnoc(pages: seq<PageResponse>, m: nat)
    ensures Processed(pages, m + 1) == Processed(pages, m) + PageRecords(Response(pages, m))
  {
  }

  /** Fetch `n` is fetch `m` + 1, for the facts stated at `m + 1`. */
  lemma NextFetch(ids: map<string, ProductId>, faults: map<ProductId, string>,
                   products: map<ProductId, Product>, pages: seq<PageResponse>, m: nat, n: nat)
    requires n == m + 1
    ensures Effect(ids, faults, products, pages, n) == Effect(ids, faults, products, pages, m + 1)
    ensures Processed(pages, n) == Processed(pages, m + 1)
  {
  }

  /** Scenario: a full page then a partial one are read at offsets 0 and
      100, and the loop stops after the second. */
  lemma FullThenPartial(e: Edge)
    ensures SyncLoop([Page(seq(100, _ => e)), Page(seq(30, _ => e))], []) == Run([0, 100], NotFullPage)
  {
    var pages := [Page(seq(100, _ => e)), Page(seq(30, _ => e))];
    assert Paginate(pages, [], 1, 100, Some(100)) == Run([100], NotFullPage);
  }

  /** Scenario: a rate limit after the first page retries offset 100. */
  lemma RateLimitRetriesSameOffset(e: Edge)
    ensures SyncLoop([Page(seq(100, _ => e)), ApiErrors("rate limit"), Page(seq(30, _ => e))], [])
         == Run([0, 100, 100], NotFullPage)
  {
    var pages := [Page(seq(100, _ => e)), ApiErrors("rate limit"), Page(seq(30, _ => e))];
    assert OccursAt("rate limit", "rate limit", 0);
    assert Paginate(pages, [], 2, 100, Some(100)) == Run([100], NotFullPage);
    assert Paginate(pages, [], 1, 100, Some(100)) == Run([100, 100], NotFullPage);
  }

  /** A rate limit on the very first fetch ends the loop, whatever follows,
      because the loop condition reads a count no page has set yet. */
  lemma RateLimitOnFirstFetchEnds(pages: seq<PageResponse>, stops: seq<bool>)
    requires |pages| > 0 && pages[0].ApiErrors? && IsRateLimited(pages[0].json)
    requires !StopRequested(stops, 0)
    ensures SyncLoop(pages, stops) == Run([0], RateLimitedAtStart)
  {
  }

  /** One fetch of the loop as the loop sees it: with the run so far
      described by `offsets`, the fetch at loop top `top` extends it, and
      ends the run exactly when the answer does not call for another loop
      top. */
  lemma LoopStep(pages: seq<PageResponse>, stops: seq<bool>, top: nat, offset: nat, lastCount: Option<nat>, offsets: seq<nat>)
    requires !StopRequested(stops, top)
    requires SyncLoop(pages, stops) == After(offsets, Paginate(pages, stops, top, offset, lastCount))
    ensures var response := Response(pages, top);
      && (GoesOn(response, lastCount) ==>
            && top < |pages|
            && SyncLoop(pages, stops)
                 == After(offsets + [offset], Paginate(pages, stops, top + 1, OffsetAfter(response, offset), CountAfter(response, lastCount))))
      && (!GoesOn(response, lastCount) ==>
            SyncLoop(pages, stops).offsets == offsets + [offset] && SyncLoop(pages, stops).exit != UserStop)
  {
    PaginateUnfold(pages, stops, top, offset, lastCount);
    var response := Response(pages, top);
    var rest := Paginate(pages, stops, top + 1, OffsetAfter(response, offset), CountAfter(response, lastCount));
    assert offsets + ([offset] + rest.offsets) == (offsets + [offset]) + rest.offsets;
  }

  /** What a whole run of the loop does, started on the store `products`:
      it fetches the offsets of `SyncLoop`, leaves the store and the two
      totals as the `Effect` of that many fetches, and logs `SyncLoopLog`. */
  ghost predicate LoopOutcome(ids: map<string, ProductId>, faults: map<ProductId, string>, products: map<ProductId, Product>,
                              pages: seq<PageResponse>, stops: seq<bool>, offsets: seq<nat>,
                              after: map<ProductId, Product>, updated: nat, errors: nat, logged: seq<Message>)
  {
    var run := SyncLoop(pages, stops);
    var effect := Effect(ids, faults, products, pages, |run.offsets|);
    && offsets == run.offsets
    && after == effect.products
    && updated == effect.updated && errors == effect.errors
    && logged == SyncLoopLog(ids, faults, products, pages, stops)
  }

  /** The loop's state at loop top `top`: `offsets` were fetched so far,
      `eff` is what their pages did and `logged` what the loop logged; the
      rest of the run goes on from `offset` and `lastCount`, on the store
      those pages left. */
  ghost predicate Between(ids: map<string, ProductId>, faults: map<ProductId, string>, products: map<ProductId, Product>,
                          pages: seq<PageResponse>, stops: seq<bool>, top: nat, offset: nat, lastCount: Option<nat>,
                          offsets: seq<nat>, eff: BatchResult, logged: seq<Message>)
  {
    && top <= |pages| && |offsets| == top
    && eff == Effect(ids, faults, products, pages, top)
    && SyncLoop(pages, stops) == After(offsets, Paginate(pages, stops, top, offset, lastCount))
    && SyncLoopLog(ids, faults, products, pages, stops)
         == logged + RunLog(ids, faults, eff.products, pages, stops, top, offset, lastCount)
  }

  /** A stop request at a loop top ends the run: the offsets, the effect and
      the log so far, followed by the stop line, are the whole run's. */
  lemma StopExit(ids: map<string, ProductId>, faults: map<ProductId, string>, products: map<ProductId, Product>,
                 pages: seq<PageResponse>, stops: seq<bool>, top: nat, offset: nat, lastCount: Option<nat>,
                 offsets: seq<nat>, eff: BatchResult, logged: seq<Message>)
    requires Between(ids, faults, products, pages, stops, top, offset, lastCount, offsets, eff, logged)
    requires StopRequested(stops, top)
    ensures SyncLoop(pages, stops).exit == UserStop
    ensures LoopOutcome(ids, faults, products, pages, stops, offsets, eff.products, eff.updated, eff.errors,
                        logged + [StoppedByUser])
  {
    assert offsets + [] == offsets;
  }

  /** One pass of the loop body that goes on: the page at `top` is read and
      applied, its lines are logged, and the loop reaches the next top. */
  lemma AdvanceOn(ids: map<string, ProductId>, faults: map<ProductId, string>, products: map<ProductId, Product>,
                  pages: seq<PageResponse>, stops: seq<bool>, top: nat, offset: nat, lastCount: Option<nat>,
                  offsets: seq<nat>, eff: BatchResult, logged: seq<Message>)
    requires Between(ids, faults, products, pages, stops, top, offset, lastCount, offsets, eff, logged)
    requires !StopRequested(stops, top)
    ensures var response := Response(pages, top);
      var b := ApplyAll(ids, faults, eff.products, PageRecords(response));
      GoesOn(response, lastCount) ==>
        && top < |pages|
        && Between(ids, faults, products, pages, stops, top + 1, OffsetAfter(response, offset),
                   CountAfter(response, lastCount), offsets + [offset], Then(eff, b),
                   logged + FetchLog(response, offset, b.logged))
  {
    LoopStep(pages, stops, top, offset, lastCount, offsets);
    EffectSnoc(ids, faults, products, pages, top);
    LogAdvance(ids, faults, products, pages, stops, top, offset, lastCount, eff.products, logged);
  }

  /** One pass of the loop body that ends the run: this offset is the last,
      its page the last one applied and its lines the last ones logged. */
  lemma AdvanceEnd(ids: map<string, ProductId>, faults: map<ProductId, string>, products: map<ProductId, Product>,
                   pages: seq<PageResponse>, stops: seq<bool>, top: nat, offset: nat, lastCount: Option<nat>,
                   offsets: seq<nat>, eff: BatchResult, logged: seq<Message>)
    requires Between(ids, faults, products, pages, stops, top, offset, lastCount, offsets, eff, logged)
    requires !StopRequested(stops, top)
    ensures var response := Response(pages, top);
      var b := ApplyAll(ids, faults, eff.products, PageRecords(response));
      var next := Then(eff, b);
      !GoesOn(response, lastCount) ==>
        && SyncLoop(pages, stops).exit != UserStop
        && LoopOutcome(ids, faults, products, pages, stops, offsets + [offset], next.products, next.updated, next.errors,
                       logged + FetchLog(response, offset, b.logged))
  {
    var response := Response(pages, top);
    if !GoesOn(response, lastCount) {
      var b := ApplyAll(ids, faults, eff.products, PageRecords(response));
      LoopStep(pages, stops, top, offset, lastCount, offsets);
      EffectSnoc(ids, faults, products, pages, top);
      LogAdvance(ids, faults, products, pages, stops, top, offset, lastCount, eff.products, logged);
      LoopExit(ids, faults, products, pages, stops, offsets + [offset], Then(eff, b),
               logged + FetchLog(response, offset, b.logged));
    }
  }

  /** Where the loop stops, the offsets, the effect and the log accumulated
      so far are those of the whole run. */
  lemma LoopExit(ids: map<string, ProductId>, faults: map<ProductId, string>, products: map<ProductId, Product>,
                 pages: seq<PageResponse>, stops: seq<bool>, offsets: seq<nat>, eff: BatchResult, logged: seq<Message>)
    requires SyncLoop(pages, stops).offsets == offsets
    requires eff == Effect(ids, faults, products, pages, |offsets|)
    requires logged == SyncLoopLog(ids, faults, products, pages, stops)
    ensures LoopOutcome(ids, faults, products, pages, stops, offsets, eff.products, eff.updated, eff.errors, logged)
  {
  }

  /** A pass of the loop body adds its lines to the log; when the loop ends
      there, they are the run's last. */
  lemma LogAdvance(ids: map<string, ProductId>, faults: map<ProductId, string>, products: map<ProductId, Product>,
                   pages: seq<PageResponse>, stops: seq<bool>, top: nat, offset: nat, lastCount: Option<nat>,
                   current: map<ProductId, Product>, logged: seq<Message>)
    requires SyncLoopLog(ids, faults, products, pages, stops)
               == logged + RunLog(ids, faults, current, pages, stops, top, offset, lastCount)
    requires !StopRequested(stops, top)
    ensures var response := Response(pages, top);
      var b := ApplyAll(ids, faults, current, PageRecords(response));
      var next := logged + FetchLog(response, offset, b.logged);
      && (GoesOn(response, lastCount) ==>
            SyncLoopLog(ids, faults, products, pages, stops)
              == next + RunLog(ids, faults, b.products, pages, stops, top + 1, OffsetAfter(response, offset),
                               CountAfter(response, lastCount)))
      && (!GoesOn(response, lastCount) ==> SyncLoopLog(ids, faults, products, pages, stops) == next)
  {
    var response := Response(pages, top);
    var b := ApplyAll(ids, faults, current, PageRecords(response));
    var pass := FetchLog(response, offset, b.logged);
    var rest := RunLog(ids, faults, b.products, pages, stops, top + 1, OffsetAfter(response, offset), CountAfter(response, lastCount));
    if GoesOn(response, lastCount) {
      ConcatAssoc(logged, pass, rest);
    } else {
      assert pass + [] == pass;
    }
  }
}
