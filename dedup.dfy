/** The webhook's best-effort duplicate filter: a process-wide map from a
    (chat, text) key to the time, in milliseconds, at which that key was last
    accepted. A key seen again within the window is a duplicate; accepting a
    key records the current time and sweeps out every entry that has aged
    past the window. */
module Dedup {

  const WINDOW_MS: int := 5000

  /** `recent.get(key) || 0`: the last acceptance time, 0 for an unknown key. */
  function LastSeen(m: map<string, int>, key: string): int {
    if key in m then m[key] else 0
  }

  /** `now - last < WINDOW_MS` */
  predicate IsDuplicate(m: map<string, int>, key: string, now: int) {
    now - LastSeen(m, key) < WINDOW_MS
  }

  /** The sweep deletes an entry accepted at `t` when `now - t > WINDOW_MS`. */
  predicate Expired(t: int, now: int) {
    now - t > WINDOW_MS
  }

  /** The map after the sweep at time `now`: the entries that are not expired,
      with their timestamps untouched. */
  function Swept(m: map<string, int>, now: int): (r: map<string, int>)
    ensures forall k :: k in r ==> now - r[k] <= WINDOW_MS
    ensures forall k :: k in m ==> (k in r <==> !Expired(m[k], now))
    ensures forall k :: k in r ==> k in m && r[k] == m[k]
  {
    map k | k in m && !Expired(m[k], now) :: m[k]
  }

  /** The map after `key` is accepted at `now`: `recent.set(key, now)`, then the sweep. */
  function Admit(m: map<string, int>, key: string, now: int): (r: map<string, int>)
    ensures key in r && r[key] == now
    ensures forall k :: k in r ==> now - r[k] <= WINDOW_MS
    ensures forall k :: k in r && k != key ==> k in m && r[k] == m[k]
    ensures forall k :: k in m && k != key && !Expired(m[k], now) ==> k in r
  {
    Swept(m[key := now], now)
  }

  /** The two comparisons disagree at the boundary: an entry exactly
      `WINDOW_MS` old survives the sweep, yet it no longer makes its key a
      duplicate. */
  lemma BoundaryEntrySurvivesButIsNotDuplicate(m: map<string, int>, key: string, now: int)
    requires key in m && now - m[key] == WINDOW_MS
    ensures key in Swept(m, now) && Swept(m, now)[key] == m[key]
    ensures !IsDuplicate(m, key, now)
  {
  }

  /** An unknown key counts as last seen at time 0, so it is a duplicate
      exactly when the clock reads less than `WINDOW_MS`. */
  lemma AbsentKeyIsDuplicateIffEarly(m: map<string, int>, key: string, now: int)
    requires key !in m
    ensures IsDuplicate(m, key, now) <==> now < WINDOW_MS
  {
  }

  /** Once `key` is accepted at `t`, the same key at a time less than
      `WINDOW_MS` later is a duplicate. */
  lemma RepeatWithinWindowIsDuplicate(m: map<string, int>, key: string, t: int, later: int)
    requires t <= later < t + WINDOW_MS
    ensures IsDuplicate(Admit(m, key, t), key, later)
  {
  }

  /** Once `key` is accepted at `t`, the same key `WINDOW_MS` or more later
      is accepted again (when no other acceptance came in between). */
  lemma RepeatAfterWindowIsAccepted(m: map<string, int>, key: string, t: int, later: int)
    requires later >= t + WINDOW_MS
    ensures !IsDuplicate(Admit(m, key, t), key, later)
  {
  }

  /** A sweep at a later time removes everything an earlier one would have:
      sweeping twice is sweeping once at the later time. */
  lemma SweepsCompose(m: map<string, int>, t1: int, t2: int)
    requires t1 <= t2
    ensures Swept(Swept(m, t1), t2) == Swept(m, t2)
  {
  }

  /** The process-wide `recent` map, updated in place. */
  class RecentCache {
    var recent: map<string, int>

    constructor ()
      ensures recent == map[]
    {
      recent := map[];
    }

    /** Looks `key` up at time `now`. A duplicate leaves the map untouched;
        otherwise the key is recorded at `now` and the map is swept. */
    method Check(key: string, now: int) returns (dup: bool)
      modifies this
      ensures dup == IsDuplicate(old(recent), key, now)
      ensures dup ==> recent == old(recent)
      ensures !dup ==> recent == Admit(old(recent), key, now)
    {
      var last := if key in recent then recent[key] else 0;
      if now - last < WINDOW_MS {
        return true;
      }
      recent := recent[key := now];
      Sweep(now);
      dup := false;
    }

    /** Deletes every entry older than the window, visiting the keys of a
        snapshot of the map one at a time. */
    method Sweep(now: int)
      modifies this
      ensures recent == Swept(old(recent), now)
    {
      var entries := recent;
      var pending := entries.Keys;
      while pending != {}
        invariant pending <= entries.Keys
        invariant recent.Keys <= entries.Keys
        invariant forall k :: k in recent ==> recent[k] == entries[k]
        invariant forall k :: k in pending ==> k in recent
        invariant forall k :: k in entries && k !in pending ==> (k in recent <==> !Expired(entries[k], now))
        decreases pending
      {
        var k :| k in pending;
        if now - entries[k] > WINDOW_MS {
          recent := recent - {k};
        }
        pending := pending - {k};
      }
      assert recent.Keys == Swept(entries, now).Keys;
    }
  }
}
