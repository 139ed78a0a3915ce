/**
 * The back end's fixed-window rate limiter: a store from client identifier to
 * the number of requests seen in the current window and the instant the window
 * ends, the admission check, the periodic sweep of ended windows, and the
 * extraction of the client identifier from a request.
 *
 * The clock is a parameter (`now`, milliseconds); the five-minute timer that
 * runs the sweep is left to the caller.
 */
module RateLimit {
  import opened Wrappers
  import Strings

  /** A client's window: requests counted so far and the instant the window ends. */
  datatype Entry = Entry(count: int, resetAt: int)

  /** The answer to one `check` call. */
  datatype Decision = Decision(allowed: bool, remaining: int, resetAt: int)

  /** A window has ended once its end lies strictly before `now`; it is still live at `resetAt` itself. */
  predicate Expired(e: Entry, now: int) {
    e.resetAt < now
  }

  /**
   * One `check` call on `store`: the decision and the store afterwards. A
   * missing or ended window is replaced by a new one holding this request; a
   * live window that is full refuses without changing; otherwise it counts
   * this request.
   */
  function CheckStep(store: map<string, Entry>, id: string, now: int, window: int, max: int): (res: (Decision, map<string, Entry>))
    ensures forall k :: k != id ==> (k in res.1 <==> k in store) && (k in store ==> res.1[k] == store[k])
    ensures id in res.1
    ensures res.0.allowed <==> id !in store || Expired(store[id], now) || store[id].count < max
    ensures res.0.allowed ==> res.0.remaining == max - res.1[id].count && res.0.resetAt == res.1[id].resetAt
    ensures res.0.allowed && (id !in store || Expired(store[id], now)) ==> res.1[id] == Entry(1, now + window)
    ensures res.0.allowed && id in store && !Expired(store[id], now) ==> res.1[id] == Entry(store[id].count + 1, store[id].resetAt)
    ensures !res.0.allowed ==> res.0.remaining == 0 && res.1 == store
  {
    if id !in store || Expired(store[id], now) then
      (Decision(true, max - 1, now + window), store[id := Entry(1, now + window)])
    else if store[id].count >= max then
      (Decision(false, 0, store[id].resetAt), store)
    else
      var e := Entry(store[id].count + 1, store[id].resetAt);
      (Decision(true, max - e.count, e.resetAt), store[id := e])
  }

  /** Every stored window has counted at most `max` requests. */
  predicate Bounded(store: map<string, Entry>, max: int) {
    forall k :: k in store ==> store[k].count <= max
  }

  /** With `max >= 1` a check never lets a window count more than `max` requests. */
  lemma {:induction false} CheckKeepsBound(store: map<string, Entry>, id: string, now: int, window: int, max: int)
    requires max >= 1 && Bounded(store, max)
    ensures Bounded(CheckStep(store, id, now, window, max).1, max)
  {
    var after := CheckStep(store, id, now, window, max).1;
    forall k | k in after ensures after[k].count <= max {
      if k == id && id in store && !Expired(store[id], now) && store[id].count < max {
        assert after[k].count == store[id].count + 1;
      }
    }
  }

  /** The number of `check` calls for `id`, made at the instants `times`, that are admitted. */
  function CountAllowed(store: map<string, Entry>, id: string, times: seq<int>, window: int, max: int): (n: nat)
    ensures n <= |times|
    decreases |times|
  {
    if times == [] then 0
    else
      var step := CheckStep(store, id, times[0], window, max);
      (if step.0.allowed then 1 else 0) + CountAllowed(step.1, id, times[1..], window, max)
  }

  /**
   * Within a live window, calls are admitted only until the window has
   * counted `max` requests; a full window admits none.
   */
  lemma {:induction false} LiveWindowAdmits(store: map<string, Entry>, id: string, times: seq<int>, window: int, max: int)
    requires id in store
    requires forall i :: 0 <= i < |times| ==> times[i] <= store[id].resetAt
    ensures CountAllowed(store, id, times, window, max) <= if store[id].count >= max then 0 else max - store[id].count
    decreases |times|
  {
    if times != [] {
      var step := CheckStep(store, id, times[0], window, max);
      assert step.1[id].resetAt == store[id].resetAt;
      LiveWindowAdmits(step.1, id, times[1..], window, max);
    }
  }

  /**
   * A window opened by a call at `times[0]` admits at most `max` calls up to
   * its end (and only the opening call when `max` is 0 or less).
   */
  lemma {:induction false} WindowAdmitsAtMostMax(store: map<string, Entry>, id: string, times: seq<int>, window: int, max: int)
    requires |times| >= 1
    requires id !in store || Expired(store[id], times[0])
    requires forall i :: 1 <= i < |times| ==> times[i] <= times[0] + window
    ensures CountAllowed(store, id, times, window, max) <= if max >= 1 then max else 1
  {
    var step := CheckStep(store, id, times[0], window, max);
    assert step.1[id] == Entry(1, times[0] + window);
    LiveWindowAdmits(step.1, id, times[1..], window, max);
  }

  /** The store after the sweep: exactly the windows that have not ended. */
  function Live(store: map<string, Entry>, now: int): (live: map<string, Entry>)
    ensures forall k :: k in live <==> k in store && !Expired(store[k], now)
    ensures forall k :: k in live ==> live[k] == store[k]
  {
    map k | k in store && !Expired(store[k], now) :: store[k]
  }

  /** Sweeping at any instant up to a call's own clock never changes that call's decision. */
  lemma {:induction false} SweepInvisible(store: map<string, Entry>, id: string, swept: int, now: int, window: int, max: int)
    requires swept <= now
    ensures CheckStep(Live(store, swept), id, now, window, max).0 == CheckStep(store, id, now, window, max).0
  {
  }

  /** Sweeping twice at the same instant removes nothing more. */
  lemma {:induction false} SweepIdempotent(store: map<string, Entry>, now: int)
    ensures Live(Live(store, now), now) == Live(store, now)
  {
  }

  /** The limiter object: its store is the only state. */
  class RateLimiter {
    var store: map<string, Entry>

    constructor ()
      ensures store == map[]
    {
      store := map[];
    }

    /** `check(identifier, windowMs, maxRequests)` at instant `now`. */
    method Check(identifier: string, now: int, windowMs: int, maxRequests: int) returns (d: Decision)
      modifies this
      ensures (d, store) == CheckStep(old(store), identifier, now, windowMs, maxRequests)
    {
      if identifier !in store || store[identifier].resetAt < now {
        store := store[identifier := Entry(1, now + windowMs)];
        return Decision(true, maxRequests - 1, now + windowMs);
      }
      var entry := store[identifier];
      if entry.count >= maxRequests {
        return Decision(false, 0, entry.resetAt);
      }
      entry := entry.(count := entry.count + 1);
      store := store[identifier := entry];
      return Decision(true, maxRequests - entry.count, entry.resetAt);
    }

    /** The cleanup timer's body: delete every window that ended before `now`. */
    method Sweep(now: int)
      modifies this
      ensures store == Live(old(store), now)
    {
      ghost var initial := store;
      var keys := store.Keys;
      while keys != {}
        invariant keys <= initial.Keys
        invariant forall k :: k in store <==> k in initial && (k in keys || !Expired(initial[k], now))
        invariant forall k :: k in store ==> store[k] == initial[k]
        decreases keys
      {
        var key :| key in keys;
        if store[key].resetAt < now {
          store := store - {key};
        }
        keys := keys - {key};
      }
      assert store == Live(initial, now);
    }
  }

  /** A request header as Node delivers it: one value, or several for a repeated header. */
  datatype HeaderValue = One(value: string) | Many(values: seq<string>)

  /** The `x-forwarded-for` header's value, taking the first element of an array. */
  function ForwardedFor(headers: map<string, HeaderValue>): Option<string> {
    if "x-forwarded-for" !in headers then None
    else match headers["x-forwarded-for"]
      case One(v) => Some(v)
      case Many(vs) => if |vs| > 0 then Some(vs[0]) else None
  }

  /**
   * `getClientIdentifier`: the first comma-separated element of a non-empty
   * `x-forwarded-for`, untrimmed; otherwise the socket address when non-empty,
   * else "unknown".
   */
  function ClientIdentifier(headers: map<string, HeaderValue>, ip: Option<string>): (r: string)
    ensures var f := ForwardedFor(headers);
      if f.Some? && f.value != "" then
        r <= f.value && ',' !in r && (|r| < |f.value| ==> f.value[|r|] == ',')
      else if ip.Some? && ip.value != "" then r == ip.value
      else r == "unknown"
  {
    var f := ForwardedFor(headers);
    if f.Some? && f.value != "" then
      Strings.SplitFirstIsFirstField(f.value, {','});
      Strings.Split(f.value, {','})[0]
    else if ip.Some? && ip.value != "" then ip.value
    else "unknown"
  }
}
