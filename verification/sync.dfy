/** The `ZC_API_Sync` job object: its in-memory log, the options it reads and
    writes (`zc_api_debug_log`, `zc_api_sync_status`, `zc_api_secure_key`),
    the product store it updates, and the four operations of the sync job. */
module Sync {
  import opened Common
  import opened DebugLog
  import opened Api
  import opened Stock
  import opened Pagination

  /** The closing lines of a run that got a token. */
  function Summary(updated: nat, errors: nat): seq<Message> {
    [SyncFinished, TotalUpdated(updated)] + (if errors > 0 then [TotalErrors(errors)] else [])
  }

  class SyncJob {
    /** `$this->log`: starts empty in every instance. */
    var log: seq<Message>
    /** The `zc_api_debug_log` option. */
    var persistedLog: seq<Message>
    /** The `zc_api_sync_status` option. */
    var status: RunStatus
    /** The `zc_api_secure_key` option; the job never writes it. */
    const secureKey: string
    const store: ProductStore
    /** Every message this instance has logged, oldest first. */
    ghost var trail: seq<Message>

    /** The in-memory log holds the newest `MaxLogEntries` messages this
        instance has logged. */
    ghost predicate Valid()
      reads this
    {
      log == Window(trail)
    }

    /** A new instance (one per request): the options hold whatever earlier
        requests left there. */
    constructor (products: ProductStore, key: string, initial: RunStatus, saved: seq<Message>)
      ensures store == products && secureKey == key
      ensures status == initial && persistedLog == saved
      ensures log == [] && trail == []
      ensures Valid()
    {
      store := products;
      secureKey := key;
      status := initial;
      persistedLog := saved;
      log := [];
      trail := [];
    }

    /** `add_to_log`: append, keep the newest `MaxLogEntries`, persist the
        whole log. */
    method AddToLog(message: Message)
      requires Valid()
      modifies this`log, this`persistedLog, this`trail
      ensures Valid()
      ensures trail == old(trail) + [message]
      ensures log == Append(old(log), message)
      ensures persistedLog == log
    {
      var grown := log + [message];
      if |grown| > MaxLogEntries {
        grown := grown[|grown| - MaxLogEntries..];
      }
      assert grown == Append(log, message);
      AppendToWindow(trail, message);
      log := grown;
      persistedLog := log;
      trail := trail + [message];
    }

    /** `get_token`, given what the API answers to the token mutation. */
    method GetToken(response: TokenResponse) returns (token: Option<string>)
      requires Valid()
      modifies this`log, this`persistedLog, this`trail
      ensures Valid()
      ensures var attempt := TokenStep(secureKey, response);
        && token == attempt.token
        && trail == old(trail) + [attempt.message]
        && persistedLog == log
    {
      if !Truthy(secureKey) {
        AddToLog(SecureKeyMissing);
        return None;
      }
      // The mutation is sent here; `response` is what comes back.
      match response
      case TokenNoResponse =>
        AddToLog(TokenConnectFailed);
        token := None;
      case TokenErrors(json) =>
        AddToLog(TokenApiError(json));
        token := None;
      case TokenData(t) =>
        if HasToken(t) {
          AddToLog(TokenObtained);
        } else {
          AddToLog(TokenNotReturned);
        }
        token := t;
    }

    /** `update_wc_stock` for one record of a page. */
    method UpdateWcStock(record: Edge) returns (ok: bool)
      requires Valid() && persistedLog == log
      modifies this`log, this`persistedLog, this`trail, store
      ensures Valid() && persistedLog == log
      ensures var step := ApplyRecord(store.ids, store.faults, old(store.products), record);
        && ok == step.ok
        && store.products == step.products
        && trail == old(trail) + step.logged
    {
      var sku := Sku(record);
      if sku.None? || !Truthy(sku.value) {
        return false;
      }
      var availability := StockStatusFor(record.availability);
      if sku.value !in store.ids {
        return false;
      }
      var id := store.ids[sku.value];
      if id !in store.products {
        return false;
      }
      var product := store.products[id];
      var oldStatus := product.stockStatus;
      product := product.(stockStatus := availability);
      if product.manageStock {
        product := product.(quantity := if availability == InStock then InStockQuantity else 0);
      }
      var fault := store.Save(id, product);
      if fault.Some? {
        AddToLog(SkuFailed(sku.value, fault.value));
        return false;
      }
      if oldStatus != availability {
        AddToLog(SkuUpdated(sku.value, oldStatus, availability));
      }
      return true;
    }

    /** The `foreach` over one page's records, counting `true` as updated
        and `false` as an error. */
    method ApplyBatch(records: seq<Edge>) returns (updated: nat, errors: nat)
      requires Valid() && persistedLog == log
      modifies this`log, this`persistedLog, this`trail, store
      ensures Valid() && persistedLog == log
      ensures var b := ApplyAll(store.ids, store.faults, old(store.products), records);
        && store.products == b.products
        && updated == b.updated && errors == b.errors
        && trail == old(trail) + b.logged
    {
      updated, errors := 0, 0;
      ghost var b := BatchResult(store.products, 0, 0, []);
      for j := 0 to |records|
        invariant Valid() && persistedLog == log
        invariant b == ApplyAll(store.ids, store.faults, old(store.products), records[..j])
        invariant store.products == b.products && updated == b.updated && errors == b.errors
        invariant trail == old(trail) + b.logged
      {
        ghost var step := ApplyRecord(store.ids, store.faults, b.products, records[j]);
        ApplyAllSnoc(store.ids, store.faults, old(store.products), records[..j], records[j]);
        assert records[..j + 1] == records[..j] + [records[j]];
        var ok := UpdateWcStock(records[j]);
        if ok {
          updated := updated + 1;
        } else {
          errors := errors + 1;
        }
        ConcatAssoc(old(trail), b.logged, step.logged);
        b := Tally(b, step);
      }
      assert records[..|records|] == records;
    }

    /** `sync_stock_price`, given the answer to the token mutation, the
        answers to the products queries in order, and the stop requests
        that other requests write before each loop top. Sleeping is a
        no-op here. */
    method SyncStockPrice(tokenResponse: TokenResponse, pages: seq<PageResponse>, stops: seq<bool>)
      returns (ghost offsets: seq<nat>, ghost updated: nat, ghost errors: nat,
               ghost written: seq<Message>, ghost loopLog: seq<Message>)
      requires Valid()
      modifies this`log, this`persistedLog, this`trail, this`status, store
      ensures Valid() && status == Stopped && persistedLog == log
      ensures trail == old(trail) + written
      ensures old(status) == Stopped ==>
        && written == [StoppedBeforeStart]
        && offsets == []
        && store.products == old(store.products)
      ensures old(status) != Stopped && !HasToken(TokenStep(secureKey, tokenResponse).token) ==>
        && written == [SyncStarted, TokenStep(secureKey, tokenResponse).message, SyncAbortedNoToken]
        && offsets == []
        && store.products == old(store.products)
      ensures old(status) != Stopped && HasToken(TokenStep(secureKey, tokenResponse).token) ==>
        && LoopOutcome(store.ids, store.faults, old(store.products), pages, stops,
                       offsets, store.products, updated, errors, loopLog)
        && written == [SyncStarted, TokenObtained] + loopLog + Summary(updated, errors)
    {
      offsets, updated, errors, written, loopLog := [], 0, 0, [], [];
      if status == Stopped {
        written := Note(StoppedBeforeStart, old(trail), []);
        return;
      }
      status := Running;
      written := Note(SyncStarted, old(trail), []);
      var token := GetToken(tokenResponse);
      ConcatAssoc(old(trail), written, [TokenStep(secureKey, tokenResponse).message]);
      written := written + [TokenStep(secureKey, tokenResponse).message];
      if !HasToken(token) {
        written := Note(SyncAbortedNoToken, old(trail), written);
        status := Stopped;
        return;
      }
      assert written == [SyncStarted, TokenObtained];
      ghost var rest;
      offsets, updated, errors, loopLog, rest := SyncWithToken(pages, stops);
      ConcatAssoc(old(trail), written, rest);
      ConcatAssoc(written, loopLog, Summary(updated, errors));
      written := written + rest;
    }

    /** The part of `sync_stock_price` after a token was obtained: the loop,
        the closing lines, and the status set back to `stopped`. */
    method SyncWithToken(pages: seq<PageResponse>, stops: seq<bool>)
      returns (ghost offsets: seq<nat>, ghost updated: nat, ghost errors: nat,
               ghost loopLog: seq<Message>, ghost written: seq<Message>)
      requires Valid() && persistedLog == log && status == Running
      modifies this`log, this`persistedLog, this`trail, this`status, store
      ensures Valid() && status == Stopped && persistedLog == log
      ensures LoopOutcome(store.ids, store.faults, old(store.products), pages, stops,
                          offsets, store.products, updated, errors, loopLog)
      ensures written == loopLog + Summary(updated, errors) && trail == old(trail) + written
    {
      var totalUpdated, totalErrors;
      offsets, totalUpdated, totalErrors, loopLog := Loop(pages, stops);
      LogSummary(totalUpdated, totalErrors);
      ConcatAssoc(old(trail), loopLog, Summary(totalUpdated, totalErrors));
      written := loopLog + Summary(totalUpdated, totalErrors);
      updated, errors := totalUpdated, totalErrors;
      status := Stopped;
    }

    /** The closing lines of a run, after the loop. */
    method LogSummary(totalUpdated: nat, totalErrors: nat)
      requires Valid()
      modifies this`log, this`persistedLog, this`trail
      ensures Valid() && persistedLog == log
      ensures trail == old(trail) + Summary(totalUpdated, totalErrors)
    {
      ghost var written := Note(SyncFinished, old(trail), []);
      written := Note(TotalUpdated(totalUpdated), old(trail), written);
      if totalErrors > 0 {
        written := Note(TotalErrors(totalErrors), old(trail), written);
      }
      assert written == Summary(totalUpdated, totalErrors);
    }

    /** `add_to_log` inside a run that has logged `logged` on top of `base`. */
    method Note(message: Message, ghost base: seq<Message>, ghost logged: seq<Message>) returns (ghost extended: seq<Message>)
      requires Valid() && trail == base + logged
      modifies this`log, this`persistedLog, this`trail
      ensures Valid() && persistedLog == log
      ensures extended == logged + [message] && trail == base + extended
    {
      AddToLog(message);
      extended := logged + [message];
      ConcatAssoc(base, logged, [message]);
    }

    /** A non-empty page: log the range of its records, then process them. */
    method ReadBatch(edges: seq<Edge>, offset: nat) returns (pageUpdated: nat, pageErrors: nat, ghost logged: seq<Message>)
      requires Valid() && persistedLog == log
      modifies this`log, this`persistedLog, this`trail, store
      ensures Valid() && persistedLog == log
      ensures var b := ApplyAll(store.ids, store.faults, old(store.products), edges);
        && store.products == b.products && pageUpdated == b.updated && pageErrors == b.errors
        && logged == [BatchRange(offset + 1, offset + |edges|)] + b.logged
        && trail == old(trail) + logged
    {
      logged := Note(BatchRange(offset + 1, offset + |edges|), old(trail), []);
      ghost var batchLog := ApplyAll(store.ids, store.faults, store.products, edges).logged;
      pageUpdated, pageErrors := ApplyBatch(edges);
      ConcatAssoc(old(trail), logged, batchLog);
      logged := logged + batchLog;
    }

    /** One pass of the loop body after the stop check: the answer to the
        products query at `offset` is logged and its records processed;
        `goOn` is the loop condition as the body leaves it (`break` is
        false, `continue` and the end of the body test `$batch_count`). */
    method Fetch(response: PageResponse, offset: nat, batchCount: Option<nat>)
      returns (nextOffset: nat, nextCount: Option<nat>, goOn: bool, pageUpdated: nat, pageErrors: nat,
               ghost batch: BatchResult, ghost logged: seq<Message>)
      requires Valid() && persistedLog == log
      modifies this`log, this`persistedLog, this`trail, store
      ensures Valid() && persistedLog == log
      ensures batch == ApplyAll(store.ids, store.faults, old(store.products), PageRecords(response))
      ensures store.products == batch.products && pageUpdated == batch.updated && pageErrors == batch.errors
      ensures nextOffset == OffsetAfter(response, offset) && nextCount == CountAfter(response, batchCount)
      ensures goOn == GoesOn(response, batchCount)
      ensures logged == FetchLog(response, offset, batch.logged) && trail == old(trail) + logged
    {
      nextOffset, nextCount, pageUpdated, pageErrors := offset, batchCount, 0, 0;
      batch := ApplyAll(store.ids, store.faults, store.products, PageRecords(response));
      assert response.Page? || batch == BatchResult(store.products, 0, 0, []);
      var broke := false;
      match response {
        case NoResponse =>
          logged := Note(PageConnectFailed, old(trail), []);
          broke := true;
        case ApiErrors(json) =>
          logged := Note(PageApiError(json), old(trail), []);
          if IsRateLimited(json) {
            logged := Note(RateLimitWait(RateLimitWaitSeconds / 60), old(trail), logged);
          } else {
            broke := true;
          }
        case Page(edges) =>
          nextCount := Some(|edges|);
          if |edges| == 0 {
            logged := Note(AllProcessed, old(trail), []);
            broke := true;
          } else {
            pageUpdated, pageErrors, logged := ReadBatch(edges, offset);
            nextOffset := offset + BatchSize;
          }
      }
      goOn := !broke && nextCount == Some(BatchSize);
    }

    /** The `do … while` loop of `sync_stock_price`, entered with a token:
        `logged` is what it adds to the log. */
    method Loop(pages: seq<PageResponse>, stops: seq<bool>)
      returns (ghost offsets: seq<nat>, totalUpdated: nat, totalErrors: nat, ghost logged: seq<Message>)
      requires Valid() && persistedLog == log && status == Running
      modifies this`log, this`persistedLog, this`trail, this`status, store
      ensures Valid() && persistedLog == log
      ensures trail == old(trail) + logged
      ensures LoopOutcome(store.ids, store.faults, old(store.products), pages, stops,
                          offsets, store.products, totalUpdated, totalErrors, logged)
      ensures status == if SyncLoop(pages, stops).exit == UserStop then Stopped else Running
    {
      offsets, totalUpdated, totalErrors, logged := [], 0, 0, [];
      var offset: nat := 0;
      var batchCount: Option<nat> := None;  // `$batch_count`, unset before the first page
      var top: nat := 0;
      ghost var ids, faults, start := store.ids, store.faults, store.products;
      ghost var eff := BatchResult(start, 0, 0, []);
      while true
        invariant Valid() && persistedLog == log && status == Running
        invariant trail == old(trail) + logged
        invariant store.ids == ids && store.faults == faults
        invariant Between(ids, faults, start, pages, stops, top, offset, batchCount, offsets, eff, logged)
        invariant store.products == eff.products && totalUpdated == eff.updated && totalErrors == eff.errors
        decreases |pages| - top
      {
        if StopRequested(stops, top) {
          status := Stopped;
        }
        if status == Stopped {
          StopExit(ids, faults, start, pages, stops, top, offset, batchCount, offsets, eff, logged);
          logged := Note(StoppedByUser, old(trail), logged);
          break;
        }
        var response := Response(pages, top);
        AdvanceOn(ids, faults, start, pages, stops, top, offset, batchCount, offsets, eff, logged);
        AdvanceEnd(ids, faults, start, pages, stops, top, offset, batchCount, offsets, eff, logged);
        ghost var b := ApplyAll(ids, faults, eff.products, PageRecords(response));
        var fetched, goOn, pageUpdated, pageErrors := offset, false, 0, 0;
        ghost var batch, fetchLog;
        offset, batchCount, goOn, pageUpdated, pageErrors, batch, fetchLog := Fetch(response, offset, batchCount);
        assert batch == b;
        ConcatAssoc(old(trail), logged, fetchLog);
        logged := logged + fetchLog;
        totalUpdated, totalErrors := totalUpdated + pageUpdated, totalErrors + pageErrors;
        offsets := offsets + [fetched];
        top := top + 1;
        eff := Then(eff, b);
        if !goOn {
          break;
        }
      }
    }
  }

}
