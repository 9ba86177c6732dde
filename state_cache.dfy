/**
 * The diff-gated state cache (`SpotifyStateCache`): two independent slots,
 * playback and queue, each a payload string with the time of its last
 * change. A poll tick for the default user fetches through the auto-refresh
 * wrapper and writes the slot, stamps it and broadcasts one update only when
 * the fetched payload differs from the cached one.
 *
 * The clock is the parameter `now` (milliseconds); broadcasts are appended to
 * the ghost log `broadcasts`.
 */
module StateCache {
  import opened Wrappers
  import opened Upstream
  import opened TokenStorage
  import opened SpotifyAuth
  import opened TokenManagement
  import opened SpotifyApi

  /** The user the poller acts for. */
  const DefaultUser := "default_user"

  /** A cached payload is fresh for this many milliseconds after its last change. */
  const FreshWindow := 30000

  /** A broadcast to every connected client, tagged with its message type. */
  datatype Update = PlaybackUpdate(data: string) | QueueUpdate(data: string) {
    function Type(): string {
      if PlaybackUpdate? then "playback_update" else "queue_update"
    }
  }

  /** One cache slot: the payload and the time it last changed. */
  datatype Slot = Slot(payload: string, updatedAt: int)

  /** A slot after one fetch, and the payload broadcast for it, if any. */
  datatype Tick = Tick(slot: Slot, broadcast: Option<string>)

  /**
   * The effect of one fetch on a slot: a fetched payload different from the
   * cached one replaces it, is stamped `now` and is broadcast once; an equal
   * payload, an empty completion or an error leaves the slot as it was.
   */
  function Absorb(slot: Slot, fetched: Outcome<string>, now: int): (tick: Tick)
    ensures tick.broadcast.Some? <==> fetched.Ok? && fetched.value != slot.payload
    ensures tick.broadcast.Some? ==> tick.slot == Slot(fetched.value, now) && tick.broadcast == Some(fetched.value)
    ensures tick.broadcast.None? ==> tick.slot == slot
  {
    if fetched.Ok? && fetched.value != slot.payload then Tick(Slot(fetched.value, now), Some(fetched.value))
    else Tick(slot, None)
  }

  /** Fetching the same payload twice broadcasts at most once: the second fetch changes nothing. */
  lemma AbsorbSameTwice(slot: Slot, fetched: Outcome<string>, now1: int, now2: int)
    ensures var first := Absorb(slot, fetched, now1);
            Absorb(first.slot, fetched, now2) == Tick(first.slot, None)
  {
  }

  /** A slot fed through a body operation never goes back to the empty payload once it has a value. */
  lemma NeverRevertsToEmpty(slot: Slot, call: ApiCall, reply: Outcome<string>, now: int)
    requires slot.payload != ""
    ensures Absorb(slot, Complete(call, reply), now).slot.payload != ""
  {
  }

  /** The slot after a series of fetches, with the payloads broadcast in order. */
  function AbsorbAll(slot: Slot, fetches: seq<(Outcome<string>, int)>): (r: (Slot, seq<string>))
    decreases |fetches|
  {
    if fetches == [] then (slot, [])
    else
      var tick := Absorb(slot, fetches[0].0, fetches[0].1);
      var rest := AbsorbAll(tick.slot, fetches[1..]);
      (rest.0, (if tick.broadcast.Some? then [tick.broadcast.value] else []) + rest.1)
  }

  /**
   * Over any series of fetches, no broadcast repeats the payload before it:
   * the first differs from the initial payload, each differs from the
   * previous one, and the slot ends holding the last one broadcast.
   */
  lemma {:induction false} BroadcastsAlternate(slot: Slot, fetches: seq<(Outcome<string>, int)>)
    ensures var (final, sent) := AbsorbAll(slot, fetches);
            && (|sent| > 0 ==> sent[0] != slot.payload && final.payload == sent[|sent| - 1])
            && (|sent| == 0 ==> final == slot)
            && forall i :: 0 < i < |sent| ==> sent[i] != sent[i - 1]
    decreases |fetches|
  {
    if fetches != [] {
      var tick := Absorb(slot, fetches[0].0, fetches[0].1);
      BroadcastsAlternate(tick.slot, fetches[1..]);
      var rest := AbsorbAll(tick.slot, fetches[1..]);
      if tick.broadcast.Some? {
        var sent := [tick.broadcast.value] + rest.1;
        forall i | 0 < i < |sent| ensures sent[i] != sent[i - 1] {
          if i > 1 {
            assert sent[i] == rest.1[i - 1] && sent[i - 1] == rest.1[i - 2];
          }
        }
      }
    }
  }

  /** `isCacheFresh`: the playback slot changed less than 30 s before `now`. */
  predicate Fresh(lastUpdate: int, now: int) {
    now - lastUpdate < FreshWindow
  }

  /**
   * A payload change makes the slot fresh for exactly the next 30 s; a poll
   * that finds the same payload does not renew freshness, so an unchanging
   * playback state reads as stale 30 s after its last change, however often
   * it is polled.
   */
  lemma FreshnessFollowsChanges(slot: Slot, fetched: Outcome<string>, now: int, later: int)
    requires now <= later
    ensures var tick := Absorb(slot, fetched, now);
            && (tick.broadcast.Some? ==> (Fresh(tick.slot.updatedAt, later) <==> later < now + FreshWindow))
            && (tick.broadcast.None? ==> (Fresh(tick.slot.updatedAt, later) <==> Fresh(slot.updatedAt, later)))
  {
  }

  class SpotifyStateCache {
    const api: SpotifyApiService
    var cachedPlaybackState: string
    var cachedQueueState: string
    var lastPlaybackUpdate: int
    var lastQueueUpdate: int
    ghost var broadcasts: seq<Update>

    function PlaybackSlot(): Slot
      reads this
    {
      Slot(cachedPlaybackState, lastPlaybackUpdate)
    }

    function QueueSlot(): Slot
      reads this
    {
      Slot(cachedQueueState, lastQueueUpdate)
    }

    constructor (api: SpotifyApiService)
      ensures this.api == api
      ensures PlaybackSlot() == Slot("", 0) && QueueSlot() == Slot("", 0)
      ensures broadcasts == []
    {
      this.api := api;
      cachedPlaybackState := "";
      cachedQueueState := "";
      lastPlaybackUpdate := 0;
      lastQueueUpdate := 0;
      broadcasts := [];
    }

    /**
     * `updatePlaybackCache`: skipped without a token for the default user;
     * otherwise one auto-refreshing playback fetch absorbed into the playback
     * slot. The queue slot is never touched.
     */
    method UpdatePlaybackCache(now: int, upstream: ApiRequest -> Outcome<string>, endpoint: TokenRequest -> TokenReply)
      modifies this, api.manager.storage, api.manager.auth
      ensures QueueSlot() == old(QueueSlot())
      ensures AccessOf(old(api.manager.storage.State()), DefaultUser).None? ==>
                && PlaybackSlot() == old(PlaybackSlot()) && broadcasts == old(broadcasts)
                && api.manager.storage.State() == old(api.manager.storage.State())
                && api.manager.auth.tokenCache == old(api.manager.auth.tokenCache)
      ensures AccessOf(old(api.manager.storage.State()), DefaultUser).Some? ==>
                var run := RetrySpec(old(api.manager.storage.State()), DefaultUser, RawOp(CurrentPlayback, upstream), api.manager.auth.config, endpoint);
                var tick := Absorb(old(PlaybackSlot()), run.result, now);
                && PlaybackSlot() == tick.slot
                && broadcasts == old(broadcasts) + (if tick.broadcast.Some? then [PlaybackUpdate(tick.broadcast.value)] else [])
                && api.manager.storage.State() == run.tokens
                && api.manager.auth.tokenCache == CacheAfterRetry(old(api.manager.auth.tokenCache), run)
    {
      var authenticated := api.manager.IsUserAuthenticated(DefaultUser);
      if !authenticated {
        return;
      }
      var fetched, _ := api.WithAutoRefresh(CurrentPlayback, DefaultUser, upstream, endpoint);
      if fetched.Ok? && fetched.value != cachedPlaybackState {
        cachedPlaybackState := fetched.value;
        lastPlaybackUpdate := now;
        broadcasts := broadcasts + [PlaybackUpdate(fetched.value)];
      }
    }

    /**
     * `updateQueueCache`: skipped without a token for the default user;
     * otherwise one auto-refreshing queue fetch absorbed into the queue slot.
     * The playback slot is never touched.
     */
    method UpdateQueueCache(now: int, upstream: ApiRequest -> Outcome<string>, endpoint: TokenRequest -> TokenReply)
      modifies this, api.manager.storage, api.manager.auth
      ensures PlaybackSlot() == old(PlaybackSlot())
      ensures AccessOf(old(api.manager.storage.State()), DefaultUser).None? ==>
                && QueueSlot() == old(QueueSlot()) && broadcasts == old(broadcasts)
                && api.manager.storage.State() == old(api.manager.storage.State())
                && api.manager.auth.tokenCache == old(api.manager.auth.tokenCache)
      ensures AccessOf(old(api.manager.storage.State()), DefaultUser).Some? ==>
                var run := RetrySpec(old(api.manager.storage.State()), DefaultUser, RawOp(Queue, upstream), api.manager.auth.config, endpoint);
                var tick := Absorb(old(QueueSlot()), run.result, now);
                && QueueSlot() == tick.slot
                && broadcasts == old(broadcasts) + (if tick.broadcast.Some? then [QueueUpdate(tick.broadcast.value)] else [])
                && api.manager.storage.State() == run.tokens
                && api.manager.auth.tokenCache == CacheAfterRetry(old(api.manager.auth.tokenCache), run)
    {
      var authenticated := api.manager.IsUserAuthenticated(DefaultUser);
      if !authenticated {
        return;
      }
      var fetched, _ := api.WithAutoRefresh(Queue, DefaultUser, upstream, endpoint);
      if fetched.Ok? && fetched.value != cachedQueueState {
        cachedQueueState := fetched.value;
        lastQueueUpdate := now;
        broadcasts := broadcasts + [QueueUpdate(fetched.value)];
      }
    }

    /** The getters read the slots and call nothing upstream. */
    method GetCachedPlaybackState() returns (s: string)
      ensures s == PlaybackSlot().payload
    {
      s := cachedPlaybackState;
    }

    method GetCachedQueueState() returns (s: string)
      ensures s == QueueSlot().payload
    {
      s := cachedQueueState;
    }

    method GetLastPlaybackUpdate() returns (t: int)
      ensures t == PlaybackSlot().updatedAt
    {
      t := lastPlaybackUpdate;
    }

    method GetLastQueueUpdate() returns (t: int)
      ensures t == QueueSlot().updatedAt
    {
      t := lastQueueUpdate;
    }

    /** `isCacheFresh`: decided by the playback timestamp alone. */
    method IsCacheFresh(now: int) returns (b: bool)
      ensures b <==> Fresh(PlaybackSlot().updatedAt, now)
    {
      b := (now - lastPlaybackUpdate) < 30000;
    }
  }
}
