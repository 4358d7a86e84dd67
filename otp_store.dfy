/**
 * The in-memory one-time-code stores: a `Map<string, {otp, expires}>` with issue (overwrite),
 * lazy expiry, retry on mismatch and single-use deletion. The login route and the admin routes
 * each own one.
 */
module OtpStore {
  import opened Options

  /** `{ otp, expires }`, `expires` in milliseconds since the epoch. */
  datatype Entry = Entry(otp: string, expires: int)

  /** The body of a verify request; a missing field reads as `""`. */
  datatype CodeRequest = CodeRequest(email: string, otp: string)

  /** What a verify finds, in the order the routes test it. */
  datatype Check = NotFound | Expired | Mismatch | Verified

  /** The lookup, expiry and comparison steps of a verify. */
  function CheckCode(entries: map<string, Entry>, key: string, otp: string, now: int): (c: Check)
    ensures c == NotFound <==> key !in entries
    ensures c == Expired <==> key in entries && now > entries[key].expires
    ensures c == Verified <==> key in entries && now <= entries[key].expires && entries[key].otp == otp
  {
    if key !in entries then NotFound
    else if now > entries[key].expires then Expired
    else if entries[key].otp != otp then Mismatch
    else Verified
  }

  /** The store after a verify: an expired or a used entry is deleted, nothing else changes. */
  function AfterCheck(entries: map<string, Entry>, key: string, otp: string, now: int): (r: map<string, Entry>)
    ensures forall k :: k != key ==> (k in r <==> k in entries)
    ensures forall k :: k in r && k != key ==> r[k] == entries[k]
  {
    match CheckCode(entries, key, otp, now)
    case Expired => entries - {key}
    case Verified => entries - {key}
    case _ => entries
  }

  /** `store.set(key, {otp, expires: now + ttl})`. */
  function Issued(entries: map<string, Entry>, key: string, otp: string, now: int, ttl: int): map<string, Entry> {
    entries[key := Entry(otp, now + ttl)]
  }

  /** A code that matched cannot be used again. */
  lemma NoReplay(entries: map<string, Entry>, key: string, otp: string, now: int, otp2: string, later: int)
    requires CheckCode(entries, key, otp, now) == Verified
    ensures CheckCode(AfterCheck(entries, key, otp, now), key, otp2, later) == NotFound
  {
  }

  /** A wrong code keeps the entry, so the right one still works before the expiry. */
  lemma RetryAfterMismatch(entries: map<string, Entry>, key: string, wrong: string, now: int, later: int)
    requires CheckCode(entries, key, wrong, now) == Mismatch
    requires later <= entries[key].expires
    ensures AfterCheck(entries, key, wrong, now) == entries
    ensures CheckCode(AfterCheck(entries, key, wrong, now), key, entries[key].otp, later) == Verified
  {
  }

  /** Past the expiry even the right code fails, and the entry is gone afterwards. */
  lemma ExpiryConsumes(entries: map<string, Entry>, key: string, otp: string, now: int, otp2: string, later: int)
    requires key in entries && now > entries[key].expires
    ensures CheckCode(entries, key, otp, now) == Expired
    ensures CheckCode(AfterCheck(entries, key, otp, now), key, otp2, later) == NotFound
  {
  }

  /** At the expiry instant itself the code is still compared. */
  lemma ExpiryIsInclusive(entries: map<string, Entry>, key: string, otp: string)
    requires key in entries
    ensures CheckCode(entries, key, otp, entries[key].expires) != Expired
    ensures CheckCode(entries, key, otp, entries[key].expires) == Verified <==> otp == entries[key].otp
  {
  }

  /** A freshly issued code verifies exactly until `now + ttl`, replaces the earlier code for
      the key, and leaves every other key's outcome alone. */
  lemma IssueThenCheck(entries: map<string, Entry>, key: string, otp: string, now: int, ttl: int,
                       guess: string, at: int, other: string)
    requires other != key
    ensures CheckCode(Issued(entries, key, otp, now, ttl), key, guess, at) == Verified
      <==> guess == otp && at <= now + ttl
    ensures CheckCode(Issued(entries, key, otp, now, ttl), other, guess, at) == CheckCode(entries, other, guess, at)
  {
  }

  /** The store object: one map, changed in place by `set` and `delete`. */
  class Store {
    var entries: map<string, Entry>

    constructor ()
      ensures entries == map[]
    {
      entries := map[];
    }

    /** `store.get(key)`. */
    function Get(key: string): (r: Option<Entry>)
      reads this
      ensures r.Some? <==> key in entries
      ensures r.Some? ==> r.value == entries[key]
    {
      if key in entries then Some(entries[key]) else None
    }

    /** `store.set(key, entry)`. */
    method Set(key: string, entry: Entry)
      modifies this
      ensures entries == old(entries)[key := entry]
    {
      entries := entries[key := entry];
    }

    /** `store.delete(key)`. */
    method Delete(key: string)
      modifies this
      ensures entries == old(entries) - {key}
    {
      entries := entries - {key};
    }

    /**
     * The shared body of both verify routes after their input checks: get, delete when
     * expired, compare, delete when used.
     */
    method Consume(key: string, otp: string, now: int) returns (c: Check)
      modifies this
      ensures c == CheckCode(old(entries), key, otp, now)
      ensures entries == AfterCheck(old(entries), key, otp, now)
    {
      var stored := Get(key);
      if stored.None? {
        return NotFound;
      }
      if now > stored.value.expires {
        Delete(key);
        return Expired;
      }
      if stored.value.otp != otp {
        return Mismatch;
      }
      Delete(key);
      return Verified;
    }
  }
}
