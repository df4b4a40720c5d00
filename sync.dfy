/** `src/sync.js`: reconciling the local save with the cloud copy, and the
    module's `pendingSync` flag, which records that the cloud copy may be
    behind. The backend is not modelled: whether it is configured, what a
    fetch returns and whether an upsert fails are inputs. */
module Sync {
  import opened Wrappers

  /** A save timestamp as the source sees it after `new Date(...)`: absent
      (also the empty string), a time in milliseconds, or a string that does
      not parse (`NaN`). */
  datatype Stamp = Missing | At(ms: int) | Unparseable

  /** A save: the game state (of any type `S`) and its `updatedAt`. */
  datatype Save<S> = Save(state: S, updatedAt: Stamp)

  /** A row of the `saves` table: the state and the row's `updated_at`. */
  datatype CloudRecord<S> = CloudRecord(state: S, updatedAt: Stamp)

  datatype Source = Local | Cloud

  datatype Merged<S> = Merged(save: Save<S>, source: Source)

  /** `new Date(stamp || fallback).getTime()`: `None` is `NaN`. */
  function Time(stamp: Stamp, fallback: int): Option<int> {
    match stamp
    case Missing => Some(fallback)
    case At(ms) => Some(ms)
    case Unparseable => None
  }

  /** `cloudTime > localTime`, false when either is `NaN`. */
  predicate Later(a: Option<int>, b: Option<int>) {
    a.Some? && b.Some? && a.value > b.value
  }

  /** `mergeSaves(localState, cloudRecord)` at time `now`: a local save
      without a timestamp is stamped `now`; the cloud save takes the row's
      `updated_at`; with both present the cloud wins only when strictly later,
      a missing cloud time counting as 0. The source dereferences `null` when
      both are absent. */
  function MergeSaves<S>(local: Option<Save<S>>, cloud: Option<CloudRecord<S>>, now: int): Merged<S>
    requires local.Some? || cloud.Some?
  {
    var cloudSave := if cloud.Some? then Some(Save(cloud.value.state, cloud.value.updatedAt)) else None;
    var localSave := if local.Some? then
        Some(local.value.(updatedAt := if local.value.updatedAt.Missing? then At(now) else local.value.updatedAt))
      else None;
    if cloudSave.None? then Merged(localSave.value, Local)
    else if localSave.None? then Merged(cloudSave.value, Cloud)
    else if Later(Time(cloudSave.value.updatedAt, 0), Time(localSave.value.updatedAt, 0)) then Merged(cloudSave.value, Cloud)
    else Merged(localSave.value, Local)
  }

  /** One side missing: the other is taken, with its game state unchanged. */
  lemma MergeOneSide<S>(local: Option<Save<S>>, cloud: Option<CloudRecord<S>>, now: int)
    requires local.Some? != cloud.Some?
    ensures var m := MergeSaves(local, cloud, now);
      (local.Some? ==> m.source == Local && m.save.state == local.value.state)
      && (cloud.Some? ==> m == Merged(Save(cloud.value.state, cloud.value.updatedAt), Cloud))
  {
  }

  /** Both present: the cloud wins exactly when its time is a number
      strictly greater than the local one; a tie goes to the local save. */
  lemma MergeNewestWins<S>(local: Save<S>, cloud: CloudRecord<S>, now: int)
    ensures var m := MergeSaves(Some(local), Some(cloud), now);
      var lt := if local.updatedAt.Missing? then Some(now) else Time(local.updatedAt, 0);
      var ct := Time(cloud.updatedAt, 0);
      (m.source == Cloud <==> ct.Some? && lt.Some? && ct.value > lt.value)
      && (m.source == Cloud ==> m.save == Save(cloud.state, cloud.updatedAt))
      && (m.source == Local ==> m.save.state == local.state)
  {
  }

  /** A cloud row without `updated_at` only beats a local save stamped
      before the epoch. */
  lemma MissingCloudTimeIsEpoch<S>(local: Save<S>, cloud: CloudRecord<S>, now: int)
    requires cloud.updatedAt.Missing? && local.updatedAt.At?
    ensures MergeSaves(Some(local), Some(cloud), now).source == Cloud <==> local.updatedAt.ms < 0
  {
  }

  /** The saves of the tests: local 2024-01-02, cloud 2024-01-03, a newer
      local 2024-02-01, as milliseconds since the epoch. */
  lemma MergeExamples(now: int)
    ensures MergeSaves(Some(Save(5, At(1704153600000))), Some(CloudRecord(10, At(1704240000000))), now).save.state == 10
    ensures MergeSaves(Some(Save(5, At(1704153600000))), Some(CloudRecord(10, At(1704240000000))), now).source == Cloud
    ensures MergeSaves(Some(Save(15, At(1706745600000))), Some(CloudRecord(10, At(1704240000000))), now) == Merged(Save(15, At(1706745600000)), Local)
    ensures MergeSaves(Some(Save(5, At(1704153600000))), None, now) == Merged(Save(5, At(1704153600000)), Local)
  {
  }

  /** An account: its mode and its profile id. */
  datatype Account = Account(mode: string, profileId: string)

  /** `isCloudMode(account)`: the mode is `cloud` and the profile id is a
      non-empty string. */
  predicate IsCloudMode(account: Option<Account>) {
    account.Some? && account.value.mode == "cloud" && account.value.profileId != ""
  }

  /** Whether `pushSave(state, account)` throws: only a cloud account with a
      configured backend whose upsert fails. Otherwise it returns, having
      written the save or not. */
  predicate PushThrows(account: Option<Account>, configured: bool, upsertFails: bool) {
    IsCloudMode(account) && configured && upsertFails
  }

  /** What `fetchCloudSave` gives back. */
  datatype Fetch<S> = FetchError | NoRow | Row(record: CloudRecord<S>)

  /** What `pullLatestState` resolves to: the save applied and where it came
      from, and the save pushed back, if any; or the rejection of a push
      that threw. */
  datatype Pull<S> = Pulled(applied: Source, save: Save<S>, pushed: Option<Save<S>>) | PushRejected

  /** `pullLatestState` and the flag after it. Without a cloud account the
      local save is kept; a failed fetch (also an unconfigured backend) keeps
      it and marks a sync pending; no row pushes the local save; otherwise
      the saves are merged and the merge is pushed when local won. */
  function PullResult<S>(local: Save<S>, account: Option<Account>, configured: bool, fetch: Fetch<S>,
                         upsertFails: bool, now: int, pending: bool): (Pull<S>, bool)
  {
    if !IsCloudMode(account) then (Pulled(Local, local, None), pending)
    else if !configured || fetch.FetchError? then (Pulled(Local, local, None), true)
    else if fetch.NoRow? then
      (if upsertFails then PushRejected else Pulled(Local, local, Some(local)), pending)
    else
      var m := MergeSaves(Some(local), Some(fetch.record), now);
      if m.source == Local then
        (if upsertFails then PushRejected else Pulled(Local, m.save, Some(m.save)), pending)
      else (Pulled(Cloud, m.save, None), pending)
  }

  /** Without a cloud account nothing is fetched or pushed and the flag is
      untouched. */
  lemma PullLocalMode<S>(local: Save<S>, account: Option<Account>, configured: bool, fetch: Fetch<S>,
                         upsertFails: bool, now: int, pending: bool)
    requires !IsCloudMode(account)
    ensures PullResult(local, account, configured, fetch, upsertFails, now, pending) == (Pulled(Local, local, None), pending)
  {
  }

  /** After a row was fetched, the merged save is pushed exactly when the
      merge picked the local one, and the flag is untouched. */
  lemma PullPushesOnlyLocal<S>(local: Save<S>, account: Option<Account>, record: CloudRecord<S>,
                               now: int, pending: bool)
    requires IsCloudMode(account)
    ensures var (p, after) := PullResult(local, account, true, Row(record), false, now, pending);
      var m := MergeSaves(Some(local), Some(record), now);
      after == pending && p.Pulled? && p.applied == m.source && p.save == m.save
      && (p.pushed.Some? <==> m.source == Local)
  {
  }

  /** The flag is set by a pull only when the fetch fails, and never
      cleared by one. */
  lemma PullSetsFlagOnFetchError<S>(local: Save<S>, account: Option<Account>, configured: bool, fetch: Fetch<S>,
                                    upsertFails: bool, now: int, pending: bool)
    ensures var (_, after) := PullResult(local, account, configured, fetch, upsertFails, now, pending);
      (after <==> pending || (IsCloudMode(account) && (!configured || fetch.FetchError?)))
  {
  }

  /** What `flushPendingSync` reports. */
  datatype FlushStatus = LocalOnly | Offline | Synced | SyncError

  /** `flushPendingSync` and the flag after it. */
  function FlushResult(account: Option<Account>, configured: bool, upsertFails: bool, pending: bool): (FlushStatus, bool) {
    if !IsCloudMode(account) then (LocalOnly, pending)
    else if !configured then (Offline, pending)
    else if upsertFails then (SyncError, true)
    else (Synced, false)
  }

  /** A flush that reaches the backend leaves the flag saying whether it
      failed; otherwise the flag is untouched. */
  lemma FlushOutcomes(account: Option<Account>, configured: bool, upsertFails: bool, pending: bool)
    ensures var (status, after) := FlushResult(account, configured, upsertFails, pending);
      (status == Synced ==> !after) && (status == SyncError ==> after)
      && (status in {LocalOnly, Offline} ==> after == pending)
      && (status == Synced || status == SyncError <==> IsCloudMode(account) && configured)
  {
  }

  const PendingMessage := "Cloud sync pending"
  const SyncedMessage := "All changes synced"

  /** The module-level `pendingSync` flag and the operations that read or
      change it. */
  class SyncFlag {
    var pending: bool

    /** `let pendingSync = false`. */
    constructor ()
      ensures !pending
    {
      pending := false;
    }

    /** `markPendingSync`. */
    method MarkPendingSync()
      modifies this
      ensures pending
    {
      pending := true;
    }

    /** `hasPendingSync`. */
    method HasPendingSync() returns (r: bool)
      ensures r == pending
    {
      r := pending;
    }

    /** `scheduleAutosave`: with a cloud account and a configured backend
      the flag is set until the debounced push runs. */
    method ScheduleAutosave(account: Option<Account>, configured: bool)
      modifies this
      ensures pending == (old(pending) || (IsCloudMode(account) && configured))
    {
      if !IsCloudMode(account) {
        return;
      }
      if !configured {
        return;
      }
      pending := true;
    }

    /** The debounced push of `scheduleAutosave` when it runs: the flag says
      whether the push threw. */
    method AutosaveFires(account: Option<Account>, configured: bool, upsertFails: bool)
      modifies this
      ensures pending == PushThrows(account, configured, upsertFails)
    {
      if PushThrows(account, configured, upsertFails) {
        pending := true;
      } else {
        pending := false;
      }
    }

    /** `attemptPendingSync`: nothing happens unless a sync is pending and
      the account is a cloud one; then the flag says whether the push threw. */
    method AttemptPendingSync(account: Option<Account>, configured: bool, upsertFails: bool)
      modifies this
      ensures pending == if old(pending) && IsCloudMode(account) then PushThrows(account, configured, upsertFails) else old(pending)
    {
      if !pending {
        return;
      }
      if !IsCloudMode(account) {
        return;
      }
      if PushThrows(account, configured, upsertFails) {
        pending := true;
      } else {
        pending := false;
      }
    }

    /** `flushPendingSync`. */
    method FlushPendingSync(account: Option<Account>, configured: bool, upsertFails: bool) returns (status: FlushStatus)
      modifies this
      ensures (status, pending) == FlushResult(account, configured, upsertFails, old(pending))
    {
      if !IsCloudMode(account) {
        return LocalOnly;
      }
      if !configured {
        return Offline;
      }
      if upsertFails {
        pending := true;
        status := SyncError;
      } else {
        pending := false;
        status := Synced;
      }
    }

    /** `pullLatestState` on the fetched result `fetch`. */
    method PullLatestState<S>(local: Save<S>, account: Option<Account>, configured: bool, fetch: Fetch<S>,
                              upsertFails: bool, now: int) returns (p: Pull<S>)
      modifies this
      ensures (p, pending) == PullResult(local, account, configured, fetch, upsertFails, now, old(pending))
    {
      if !IsCloudMode(account) {
        return Pulled(Local, local, None);
      }
      if !configured || fetch.FetchError? {
        pending := true;
        return Pulled(Local, local, None);
      }
      if fetch.NoRow? {
        if upsertFails {
          return PushRejected;
        }
        return Pulled(Local, local, Some(local));
      }
      var merged := MergeSaves(Some(local), Some(fetch.record), now);
      if merged.source == Local {
        if upsertFails {
          return PushRejected;
        }
        return Pulled(Local, merged.save, Some(merged.save));
      }
      p := Pulled(Cloud, merged.save, None);
    }

    /** `syncStatus`. */
    function SyncStatus(): (r: string)
      reads this
      ensures r == (if pending then PendingMessage else SyncedMessage)
    {
      if pending then PendingMessage else SyncedMessage
    }
  }

  /** The two status messages differ, so the status tells whether a sync is
      pending. */
  lemma StatusReportsPending(a: bool, b: bool)
    ensures (if a then PendingMessage else SyncedMessage) == (if b then PendingMessage else SyncedMessage) <==> a == b
  {
    assert PendingMessage[0] != SyncedMessage[0];
  }
}
