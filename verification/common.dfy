/** Values shared by every part of the stock-sync job: an optional value, PHP's
    truthiness test on strings, the persisted run status and the messages the
    job writes to its debug log. */
module Common {

  datatype Option<+T> = None | Some(value: T)

  /** PHP's `if ($s)` / `!empty($s)` on a string: only "" and "0" are falsy. */
  predicate Truthy(s: string) {
    s != "" && s != "0"
  }

  /** The `zc_api_sync_status` option. `Unset` is the option's absence
      (nothing written yet, or deleted when the plugin is deactivated). */
  datatype RunStatus = Unset | Running | Stopped

  /** One line of the debug log, without its `date()` prefix. Each constructor
      is one `add_to_log` call site of the job; the ones marked ERROR are the
      lines whose text starts with "ERROR". */
  datatype Message =
    | SecureKeyMissing                                  // ERROR
    | TokenConnectFailed                                // ERROR
    | TokenApiError(errors: string)                     // ERROR
    | TokenObtained
    | TokenNotReturned                                  // ERROR
    | StoppedBeforeStart
    | SyncStarted
    | SyncAbortedNoToken                                // ERROR
    | StoppedByUser
    | PageConnectFailed                                 // ERROR
    | PageApiError(errors: string)                      // ERROR
    | RateLimitWait(minutes: int)
    | AllProcessed
    | BatchRange(first: int, last: int)
    | SkuUpdated(sku: string, from: string, to: string)
    | SkuFailed(sku: string, reason: string)            // ERROR
    | SyncFinished
    | TotalUpdated(count: nat)
    | TotalErrors(count: nat)

  /** The log lines an operator reads as errors. */
  predicate IsError(m: Message) {
    m.SecureKeyMissing? || m.TokenConnectFailed? || m.TokenApiError? || m.TokenNotReturned? ||
    m.SyncAbortedNoToken? || m.PageConnectFailed? || m.PageApiError? || m.SkuFailed?
  }

  lemma ConcatAssoc<T>(a: seq<T>, b: seq<T>, c: seq<T>)
    ensures (a + b) + c == a + (b + c)
  {
  }
}
