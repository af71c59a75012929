/** The sync service around the reconciliation pass: the run lifecycle of a
    manual sync, the settings update, the status summary and the paginated
    history. The database is replaced by an in-memory `Account` holding one
    user's record and that user's sync logs, newest first; every clock read
    is a parameter. */
module SyncService {
  import opened Outcomes
  import opened Reconciliation

  // ------------------------------------------------------------ records

  /** The `type` enum of a sync log. */
  datatype SyncKind = Manual | Automatic | Webhook

  /** The `status` enum of a sync log; `Failed` is the value 'error'. */
  datatype SyncStatus = Running | Completed | Failed

  /** A sync log document. Timestamps are integer clock values; `createdAt` is
      the time the document was first saved. */
  datatype SyncLog = SyncLog(
    kind: SyncKind,
    status: SyncStatus,
    startedAt: int,
    completedAt: Option<int>,
    itemsProcessed: nat,
    itemsUpdated: nat,
    errors: seq<string>,
    errorMessage: Option<string>,
    createdAt: int)

  /** `user.syncSettings`. */
  datatype SyncSettings = SyncSettings(autoSync: bool, syncInterval: int, lastSyncAt: Option<int>)

  /** The parts of a user record the service reads or writes. */
  datatype UserRecord = UserRecord(
    squareConnected: bool,
    shopifyConnected: bool,
    shopifyLocationId: string,
    settings: SyncSettings)

  predicate Connected(u: UserRecord) {
    u.squareConnected && u.shopifyConnected
  }

  const NotConnectedMessage := "Both Square and Shopify must be connected"

  /** A log that has left the running state. */
  predicate Terminal(l: SyncLog) {
    l.status != Running && l.completedAt.Some?
  }

  /** The shape every log written by a run has: a running log is not
      completed, a completed one carries no error message, a failed one
      carries one and no counts, and no more variants are updated or failed
      than were processed. */
  predicate WellFormed(l: SyncLog) {
    l.itemsUpdated + |l.errors| <= l.itemsProcessed &&
    (l.status == Running ==> l.completedAt.None? && l.errorMessage.None?) &&
    (l.status == Completed ==> l.completedAt.Some? && l.errorMessage.None?) &&
    (l.status == Failed ==> l.completedAt.Some? && l.errorMessage.Some? &&
                            l.itemsProcessed == 0 && l.itemsUpdated == 0 && l.errors == [])
  }

  /** The logs are ordered newest first, as every query sorts them. */
  predicate NewestFirst(logs: seq<SyncLog>) {
    forall i, j :: 0 <= i < j < |logs| ==> logs[j].createdAt <= logs[i].createdAt
  }

  // ------------------------------------------------------ run lifecycle

  /** The log `new SyncLog({ type, status: 'running', startedAt })` saves. */
  function RunningLog(kind: SyncKind, startedAt: int, createdAt: int): (l: SyncLog)
    ensures l.status == Running && WellFormed(l)
  {
    SyncLog(kind, Running, startedAt, None, 0, 0, [], None, createdAt)
  }

  /** What the guarded block of a run produces: the Square catalog is fetched
      first, then the Shopify products, then `performSync` runs; the first of
      them to throw decides the error. */
  function RunOutcome(squareFetch: Result<seq<SquareItem>>, shopifyFetch: Result<seq<ShopifyProduct>>,
                      locationId: string, countsOf: string -> CountReply, updateOf: int -> UpdateReply)
    : Result<PassState>
  {
    match squareFetch
    case Err(e) => Err(e)
    case Ok(items) =>
      match shopifyFetch
      case Err(e) => Err(e)
      case Ok(products) => SyncPass(items, products, locationId, countsOf, updateOf)
  }

  /** The single terminal write of a run: `completed` with the counts and
      error lines of the pass, or `error` with the thrown message. Either way
      `completedAt` is set and the rest of the log is kept. */
  function FinishedLog(running: SyncLog, outcome: Result<PassState>, completedAt: int): (l: SyncLog)
    ensures Terminal(l) && l.completedAt == Some(completedAt)
    ensures l.kind == running.kind && l.startedAt == running.startedAt && l.createdAt == running.createdAt
    ensures l.status == Completed <==> outcome.Ok?
    ensures l.status == Failed <==> outcome.Err?
    ensures outcome.Ok? ==>
              l.itemsProcessed == outcome.value.processed && l.itemsUpdated == outcome.value.updated &&
              l.errors == outcome.value.errors && l.errorMessage == running.errorMessage
    ensures outcome.Err? ==>
              l.errorMessage == Some(outcome.message) && l.itemsProcessed == running.itemsProcessed &&
              l.itemsUpdated == running.itemsUpdated && l.errors == running.errors
  {
    match outcome
    case Ok(st) =>
      running.(status := Completed, completedAt := Some(completedAt),
               itemsProcessed := st.processed, itemsUpdated := st.updated, errors := st.errors)
    case Err(e) =>
      running.(status := Failed, completedAt := Some(completedAt), errorMessage := Some(e))
  }

  /** A finished run leaves a well-formed log, whichever way it ended. */
  lemma FinishedRunWellFormed(kind: SyncKind, startedAt: int, createdAt: int, completedAt: int,
                              squareFetch: Result<seq<SquareItem>>, shopifyFetch: Result<seq<ShopifyProduct>>,
                              locationId: string, countsOf: string -> CountReply, updateOf: int -> UpdateReply)
    ensures WellFormed(FinishedLog(RunningLog(kind, startedAt, createdAt),
                                   RunOutcome(squareFetch, shopifyFetch, locationId, countsOf, updateOf),
                                   completedAt))
  {
    var outcome := RunOutcome(squareFetch, shopifyFetch, locationId, countsOf, updateOf);
    if outcome.Ok? {
      var items, products := squareFetch.value, shopifyFetch.value;
      var m := BuildMap(CatalogVariations(items), countsOf).value;
      assert outcome.value == Reconciled(CatalogTargets(products), m, locationId, updateOf);
    }
  }

  /** A run on catalogs with no matching variant completes with no update and
      no error line; every variant is still counted as processed. */
  lemma NoMatchRunCompletesClean(running: SyncLog, items: seq<SquareItem>, products: seq<ShopifyProduct>,
                                 locationId: string, countsOf: string -> CountReply,
                                 updateOf: int -> UpdateReply, completedAt: int)
    requires BuildMap(CatalogVariations(items), countsOf).Ok?
    requires forall t :: t in CatalogTargets(products) ==> !Matched(t, BuildMap(CatalogVariations(items), countsOf).value)
    ensures var l := FinishedLog(running, RunOutcome(Ok(items), Ok(products), locationId, countsOf, updateOf), completedAt);
            l.status == Completed && l.itemsUpdated == 0 && l.errors == [] &&
            l.itemsProcessed == VariantCount(products)
  {
    var ts := CatalogTargets(products);
    var m := BuildMap(CatalogVariations(items), countsOf).value;
    NoMatchNoCalls(ts, m, locationId, updateOf);
    TargetsCount(products);
  }

  // ------------------------------------------------------------ settings

  /** `Math.max(60, interval)`: the interval floor, one minute in seconds. */
  const MinSyncInterval := 60

  /** The settings after `updateSettings`: a provided `autoSync` is stored
      verbatim, a provided interval is raised to the floor, and a field not
      provided is left as it was. */
  function ApplySettings(s: SyncSettings, autoSync: Option<bool>, syncInterval: Option<int>): (r: SyncSettings)
    ensures r.lastSyncAt == s.lastSyncAt
    ensures r.autoSync == (if autoSync.Some? then autoSync.value else s.autoSync)
    ensures syncInterval.None? ==> r.syncInterval == s.syncInterval
    ensures syncInterval.Some? ==>
              r.syncInterval >= MinSyncInterval && r.syncInterval >= syncInterval.value &&
              (r.syncInterval == MinSyncInterval || r.syncInterval == syncInterval.value)
  {
    var auto := if autoSync.Some? then autoSync.value else s.autoSync;
    var interval :=
      if syncInterval.None? then s.syncInterval
      else if syncInterval.value < MinSyncInterval then MinSyncInterval
      else syncInterval.value;
    s.(autoSync := auto, syncInterval := interval)
  }

  /** Submitting the same settings twice stores what submitting them once did. */
  lemma ApplySettingsIdempotent(s: SyncSettings, autoSync: Option<bool>, syncInterval: Option<int>)
    ensures ApplySettings(ApplySettings(s, autoSync, syncInterval), autoSync, syncInterval) ==
            ApplySettings(s, autoSync, syncInterval)
  {
  }

  /** An interval of 10 seconds is stored as 60. */
  lemma ShortIntervalRaised(s: SyncSettings)
    ensures ApplySettings(s, None, Some(10)).syncInterval == 60
  {
  }

  // -------------------------------------------------------------- account

  /** One user's record and sync logs, as the database holds them. */
  class Account {
    var user: UserRecord
    /** This user's sync logs, newest first. */
    var logs: seq<SyncLog>

    /** Every stored log is well formed. */
    predicate Valid()
      reads this
    {
      forall l :: l in logs ==> WellFormed(l)
    }

    constructor (user: UserRecord, logs: seq<SyncLog>)
      requires forall l :: l in logs ==> WellFormed(l)
      ensures Valid()
      ensures this.user == user && this.logs == logs
    {
      this.user := user;
      this.logs := logs;
    }

    /** `triggerManualSync(userId)`. The results of the two catalog fetches,
        the platform calls of the pass and the four clock reads are given.
        `writes` lists the Shopify updates issued and `saves` the successive
        states of the run's log as they are saved. */
    method TriggerManualSync(squareFetch: Result<seq<SquareItem>>, shopifyFetch: Result<seq<ShopifyProduct>>,
                             countsOf: string -> CountReply, updateOf: int -> UpdateReply,
                             startedAt: int, createdAt: int, completedAt: int, syncedAt: int)
      returns (r: Result<SyncResult>, writes: seq<InventoryWrite>, saves: seq<SyncLog>)
      requires Valid()
      modifies this
      ensures Valid()
      ensures !Connected(old(user)) ==>
                r == Err(NotConnectedMessage) && writes == [] && saves == [] &&
                user == old(user) && logs == old(logs)
      ensures Connected(old(user)) ==>
                var running := RunningLog(Manual, startedAt, createdAt);
                var outcome := RunOutcome(squareFetch, shopifyFetch, old(user).shopifyLocationId, countsOf, updateOf);
                var final := FinishedLog(running, outcome, completedAt);
                saves == [running, final] && logs == [final] + old(logs) &&
                match outcome
                case Ok(st) =>
                  r == Ok(SyncResult(st.processed, st.updated, st.errors)) && writes == st.writes &&
                  user == old(user).(settings := old(user).settings.(lastSyncAt := Some(syncedAt)))
                case Err(e) =>
                  r == Err(e) && writes == [] && user == old(user)
      ensures NewestFirst(old(logs)) && (old(logs) == [] || old(logs)[0].createdAt <= createdAt) ==>
                NewestFirst(logs)
    {
      if !user.squareConnected || !user.shopifyConnected {
        return Err(NotConnectedMessage), [], [];
      }
      var log := RunningLog(Manual, startedAt, createdAt);
      logs := [log] + logs;
      saves := [log];

      var outcome: Result<SyncResult>;
      writes := [];
      if squareFetch.Err? {
        outcome := Err(squareFetch.message);
      } else if shopifyFetch.Err? {
        outcome := Err(shopifyFetch.message);
      } else {
        outcome, writes := PerformSync(squareFetch.value, shopifyFetch.value, user.shopifyLocationId, countsOf, updateOf);
      }
      FinishedRunWellFormed(Manual, startedAt, createdAt, completedAt, squareFetch, shopifyFetch,
                            user.shopifyLocationId, countsOf, updateOf);

      match outcome {
        case Ok(res) =>
          log := log.(status := Completed, completedAt := Some(completedAt),
                      itemsProcessed := res.processed, itemsUpdated := res.updated, errors := res.errors);
          logs := [log] + logs[1..];
          saves := saves + [log];
          user := user.(settings := user.settings.(lastSyncAt := Some(syncedAt)));
          r := Ok(res);
        case Err(e) =>
          log := log.(status := Failed, completedAt := Some(completedAt), errorMessage := Some(e));
          logs := [log] + logs[1..];
          saves := saves + [log];
          r := Err(e);
      }
      if NewestFirst(old(logs)) && (old(logs) == [] || old(logs)[0].createdAt <= createdAt) {
        PrependKeepsNewestFirst(log, old(logs));
      }
    }

    /** `updateSettings(userId, settings)`: returns the stored settings. */
    method UpdateSettings(autoSync: Option<bool>, syncInterval: Option<int>) returns (s: SyncSettings)
      modifies this
      ensures user == old(user).(settings := ApplySettings(old(user).settings, autoSync, syncInterval))
      ensures logs == old(logs)
      ensures s == user.settings
    {
      var settings := user.settings;
      if autoSync.Some? {
        settings := settings.(autoSync := autoSync.value);
      }
      if syncInterval.Some? {
        settings := settings.(syncInterval := if syncInterval.value < MinSyncInterval then MinSyncInterval
                                              else syncInterval.value);
      }
      user := user.(settings := settings);
      s := settings;
    }
  }

  /** Prepending a log created no earlier than the newest one keeps the logs
      newest first. */
  lemma PrependKeepsNewestFirst(l: SyncLog, logs: seq<SyncLog>)
    requires NewestFirst(logs) && (logs == [] || logs[0].createdAt <= l.createdAt)
    ensures NewestFirst([l] + logs)
  {
    var s := [l] + logs;
    forall i, j | 0 <= i < j < |s|
      ensures s[j].createdAt <= s[i].createdAt
    {
      if i == 0 && j > 1 {
        assert s[j] == logs[j - 1] && s[1] == logs[0];
      }
    }
  }

  // --------------------------------------------------------------- status

  /** Milliseconds in the trailing window of `getStatus`. */
  const DayMillis := 24 * 60 * 60 * 1000

  /** How many recent logs `getStatus` returns. */
  const RecentLimit := 10

  /** The object `getStatus` returns. */
  datatype StatusReport = StatusReport(
    isConnected: bool,
    lastSync: Option<int>,
    autoSync: bool,
    syncInterval: int,
    last24hSyncs: nat,
    errors: nat,
    recentLogs: seq<SyncLog>,
    totalProducts: int,
    outOfStock: int)

  /** The number of logs created at or after `cutoff`. */
  function CountSince(logs: seq<SyncLog>, cutoff: int): (n: nat)
    ensures n <= |logs|
    decreases |logs|
  {
    if logs == [] then 0
    else (if logs[0].createdAt >= cutoff then 1 else 0) + CountSince(logs[1..], cutoff)
  }

  /** The number of failed logs created at or after `cutoff`. */
  function ErrorsSince(logs: seq<SyncLog>, cutoff: int): (n: nat)
    ensures n <= CountSince(logs, cutoff)
    decreases |logs|
  {
    if logs == [] then 0
    else (if logs[0].status == Failed && logs[0].createdAt >= cutoff then 1 else 0) + ErrorsSince(logs[1..], cutoff)
  }

  function Min(a: int, b: int): int {
    if a <= b then a else b
  }

  /** `getStatus(userId)` at clock value `now`. */
  function StatusOf(user: UserRecord, logs: seq<SyncLog>, now: int): (st: StatusReport)
    ensures st.isConnected <==> user.squareConnected && user.shopifyConnected
    ensures st.lastSync == user.settings.lastSyncAt && st.autoSync == user.settings.autoSync &&
            st.syncInterval == user.settings.syncInterval
    ensures st.last24hSyncs == CountSince(logs, now - DayMillis)
    ensures st.errors == ErrorsSince(logs, now - DayMillis)
    ensures st.errors <= st.last24hSyncs <= |logs|
    ensures |st.recentLogs| == Min(RecentLimit, |logs|) && st.recentLogs == logs[..|st.recentLogs|]
    ensures st.totalProducts == 0 && st.outOfStock == 0
  {
    var cutoff := now - DayMillis;
    StatusReport(
      user.squareConnected && user.shopifyConnected,
      user.settings.lastSyncAt,
      user.settings.autoSync,
      user.settings.syncInterval,
      CountSince(logs, cutoff),
      ErrorsSince(logs, cutoff),
      logs[..Min(RecentLimit, |logs|)],
      0,
      0)
  }

  /** On newest-first logs the recent logs of the status are the newest ones:
      no log left out of them is newer than any log in them. */
  lemma RecentLogsAreNewest(user: UserRecord, logs: seq<SyncLog>, now: int)
    requires NewestFirst(logs)
    ensures var recent := StatusOf(user, logs, now).recentLogs;
            forall i, j :: 0 <= i < |recent| && |recent| <= j < |logs| ==> logs[j].createdAt <= recent[i].createdAt
  {
    var recent := StatusOf(user, logs, now).recentLogs;
    forall i, j | 0 <= i < |recent| && |recent| <= j < |logs|
      ensures logs[j].createdAt <= recent[i].createdAt
    {
      assert recent[i] == logs[i];
    }
  }

  /** On newest-first logs the trailing window is a prefix: the first
      `CountSince` logs are the ones created at or after the cutoff. */
  lemma {:induction false} WindowIsPrefix(logs: seq<SyncLog>, cutoff: int)
    requires NewestFirst(logs)
    ensures forall i :: 0 <= i < CountSince(logs, cutoff) ==> logs[i].createdAt >= cutoff
    ensures forall i :: CountSince(logs, cutoff) <= i < |logs| ==> logs[i].createdAt < cutoff
    decreases |logs|
  {
    if logs != [] {
      var rest := logs[1..];
      assert NewestFirst(rest) by {
        forall i, j | 0 <= i < j < |rest|
          ensures rest[j].createdAt <= rest[i].createdAt
        {
          assert rest[i] == logs[i + 1] && rest[j] == logs[j + 1];
        }
      }
      WindowIsPrefix(rest, cutoff);
      forall i | 1 <= i < |logs|
        ensures logs[i] == rest[i - 1]
      {
      }
    }
  }

  // -------------------------------------------------------------- history

  /** The page and page size `getSyncHistory` uses when the caller gives none. */
  const DefaultPage := 1
  const DefaultLimit := 20

  datatype Pagination = Pagination(current: int, total: nat, hasNext: bool, hasPrev: bool)

  /** The object `getSyncHistory` returns; `pagination.total` is the number
      of pages. */
  datatype HistoryPage = HistoryPage(logs: seq<SyncLog>, pagination: Pagination)

  /** `Math.ceil(count / limit)`: the least number of `limit`-long pages that
      hold `count` records. */
  function PageCount(count: nat, limit: int): (n: nat)
    requires limit >= 1
    ensures count <= n * limit
    ensures n == 0 || (n - 1) * limit < count
  {
    var q := (count + limit - 1) / limit;
    assert (count + limit - 1) == q * limit + (count + limit - 1) % limit;
    q
  }

  /** `skip = (page - 1) * limit`: the position of the page's first log. */
  function Skip(page: int, limit: int): (n: nat)
    requires page >= 1 && limit >= 1
    ensures n + limit == page * limit
  {
    MulMonotone(0, page - 1, limit);
    (page - 1) * limit
  }

  /** `getSyncHistory(userId, page, limit)` over this user's newest-first logs. */
  function SyncHistory(logs: seq<SyncLog>, page: int, limit: int): (h: HistoryPage)
    requires page >= 1 && limit >= 1
    ensures h.pagination.current == page
    ensures h.pagination.total == PageCount(|logs|, limit)
    ensures |h.logs| <= limit
    ensures forall k :: 0 <= k < |h.logs| ==> Skip(page, limit) + k < |logs| && h.logs[k] == logs[Skip(page, limit) + k]
    ensures Skip(page, limit) < |logs| ==> |h.logs| == Min(limit, |logs| - Skip(page, limit))
    ensures Skip(page, limit) >= |logs| ==> h.logs == []
    ensures h.pagination.hasPrev <==> page > 1
    ensures h.pagination.hasNext <==> Skip(page, limit) + limit < |logs|
  {
    var skip := Skip(page, limit);
    var window := if skip >= |logs| then [] else logs[skip..Min(skip + limit, |logs|)];
    HistoryPage(window, Pagination(page, PageCount(|logs|, limit), skip + |window| < |logs|, page > 1))
  }

  lemma MulMonotone(a: int, b: int, c: nat)
    requires a <= b
    ensures a * c <= b * c
  {
  }

  /** There is a next page exactly when the current page is not the last. */
  lemma HasNextIffMorePages(logs: seq<SyncLog>, page: int, limit: int)
    requires page >= 1 && limit >= 1
    ensures var h := SyncHistory(logs, page, limit);
            h.pagination.hasNext <==> page < h.pagination.total
  {
    var n := PageCount(|logs|, limit);
    if page < n {
      MulMonotone(page, n - 1, limit);
    } else {
      MulMonotone(n, page, limit);
    }
  }

  /** Every log appears on exactly the page its position puts it on: log `k`
      is entry `k % limit` of page `k / limit + 1`, and that page exists. */
  lemma PageOfRecord(logs: seq<SyncLog>, k: int, limit: int)
    requires 0 <= k < |logs| && limit >= 1
    ensures var h := SyncHistory(logs, k / limit + 1, limit);
            k % limit < |h.logs| && h.logs[k % limit] == logs[k] && k / limit + 1 <= h.pagination.total
  {
    var page := k / limit + 1;
    assert Skip(page, limit) + k % limit == k;
    var n := PageCount(|logs|, limit);
    if n < page {
      MulMonotone(n, page - 1, limit);
    }
  }

  /** With the default arguments the history is the newest 20 logs, with no
      previous page. */
  lemma DefaultHistoryIsNewest(logs: seq<SyncLog>)
    ensures var h := SyncHistory(logs, DefaultPage, DefaultLimit);
            h.logs == logs[..Min(DefaultLimit, |logs|)] && !h.pagination.hasPrev &&
            (h.pagination.hasNext <==> |logs| > DefaultLimit)
  {
    var h := SyncHistory(logs, DefaultPage, DefaultLimit);
    assert Skip(DefaultPage, DefaultLimit) == 0;
    if |logs| > 0 {
      assert h.logs == logs[..Min(DefaultLimit, |logs|)];
    }
  }

  /** 25 logs with 20 per page: the first page holds 20 and has a next page,
      the second holds the remaining 5 and has a previous one. */
  lemma TwoPageScenario(logs: seq<SyncLog>)
    requires |logs| == 25
    ensures var h := SyncHistory(logs, 1, 20);
            |h.logs| == 20 && h.pagination.hasNext && !h.pagination.hasPrev && h.pagination.total == 2
    ensures var h := SyncHistory(logs, 2, 20);
            |h.logs| == 5 && !h.pagination.hasNext && h.pagination.hasPrev && h.pagination.total == 2
  {
  }
}
