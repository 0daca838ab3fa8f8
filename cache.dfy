/**
 * `CachePolicy` and `CacheManager`: an in-memory map from requests to successful
 * response bytes, gated by the policy, with expiry checked lazily on lookup.
 * Dates are integer timestamps; the caller supplies "now".
 */
module Cache {
  import Wrappers
  import opened Types
  import opened Foundation

  datatype CachePolicy = None | InMemory(duration: int)

  /** `CacheManager.Entry`. */
  datatype Entry = Entry(successfulResult: Bytes, expirationDate: int)

  type Entries = map<URLRequest, Entry>

  /** The entries after `registerEntryIfNeeded`. */
  function Registered(policy: CachePolicy, entries: Entries, data: Bytes, request: URLRequest, storageDate: int): (r: Entries)
    ensures policy.None? ==> r == entries
    ensures policy.InMemory? ==> request in r && r[request] == Entry(data, storageDate + policy.duration)
    ensures forall k :: k != request ==> (k in r <==> k in entries)
    ensures forall k :: k != request && k in r ==> r[k] == entries[k]
  {
    match policy
    case None => entries
    case InMemory(duration) => entries[request := Entry(data, storageDate + duration)]
  }

  /** What `findNonExpiredEntry` returns, and the entries it leaves behind. */
  datatype Lookup = Lookup(found: Wrappers.Option<Bytes>, entries: Entries)

  predicate Expired(e: Entry, comparisonDate: int)
  {
    e.expirationDate <= comparisonDate
  }

  function Looked(policy: CachePolicy, entries: Entries, request: URLRequest, comparisonDate: int): (l: Lookup)
    ensures l.found.Some? <==> policy.InMemory? && request in entries && !Expired(entries[request], comparisonDate)
    ensures l.found.Some? ==> l.found.value == entries[request].successfulResult
    ensures policy.InMemory? && request in entries && Expired(entries[request], comparisonDate)
            ==> l.entries == entries - {request}
    ensures !(policy.InMemory? && request in entries && Expired(entries[request], comparisonDate))
            ==> l.entries == entries
  {
    if policy.None? then Lookup(Wrappers.None, entries)
    else if request !in entries then Lookup(Wrappers.None, entries)
    else if !(entries[request].expirationDate > comparisonDate) then Lookup(Wrappers.None, entries - {request})
    else Lookup(Wrappers.Some(entries[request].successfulResult), entries)
  }

  /**
   * Round trip: what was registered at `storageDate` is found at `comparisonDate` exactly
   * when the policy caches and `comparisonDate` is strictly before the expiration date;
   * the boundary itself counts as expired.
   */
  lemma RegisterThenFind(policy: CachePolicy, entries: Entries, data: Bytes, request: URLRequest,
                         storageDate: int, comparisonDate: int)
    ensures var l := Looked(policy, Registered(policy, entries, data, request, storageDate), request, comparisonDate);
            policy.InMemory? ==>
              (l.found == Wrappers.Some(data) <==> comparisonDate < storageDate + policy.duration)
    ensures policy.None? ==>
              Looked(policy, Registered(policy, entries, data, request, storageDate), request, comparisonDate).found.None?
  {
  }

  /** A lookup never leaves an expired entry for the key it looked up. */
  lemma LookupLeavesNoExpiredEntry(policy: CachePolicy, entries: Entries, request: URLRequest, comparisonDate: int)
    requires policy.InMemory?
    ensures var l := Looked(policy, entries, request, comparisonDate);
            request in l.entries ==> !Expired(l.entries[request], comparisonDate)
  {
  }

  /** A lookup touches no key but the one it looked up. */
  lemma LookupKeepsOtherKeys(policy: CachePolicy, entries: Entries, request: URLRequest, comparisonDate: int, k: URLRequest)
    requires k != request
    ensures var l := Looked(policy, entries, request, comparisonDate);
            (k in l.entries <==> k in entries) && (k in entries ==> l.entries[k] == entries[k])
  {
  }

  /** A second lookup at the same date finds the same thing and changes nothing more. */
  lemma LookupIdempotent(policy: CachePolicy, entries: Entries, request: URLRequest, comparisonDate: int)
    ensures var l := Looked(policy, entries, request, comparisonDate);
            Looked(policy, l.entries, request, comparisonDate) == l
  {
  }

  class CacheManager {
    var policy: CachePolicy
    var entries: Entries

    /** `init(policy:)`: no entries yet. */
    constructor (policy: CachePolicy)
      ensures this.policy == policy && entries == map[]
    {
      this.policy := policy;
      entries := map[];
    }

    method RegisterEntryIfNeeded(dataEntry: Bytes, request: URLRequest, storageDate: int)
      modifies this`entries
      ensures entries == Registered(policy, old(entries), dataEntry, request, storageDate)
      ensures policy.None? ==> entries == old(entries)
      ensures policy.InMemory? ==> entries == old(entries)[request := Entry(dataEntry, storageDate + policy.duration)]
    {
      if !policy.InMemory? {
        return;
      }
      var expirationDate := storageDate + policy.duration;
      entries := entries[request := Entry(dataEntry, expirationDate)];
    }

    method FindNonExpiredEntry(request: URLRequest, comparisonDate: int) returns (r: Wrappers.Option<Bytes>)
      modifies this`entries
      ensures Lookup(r, entries) == Looked(policy, old(entries), request, comparisonDate)
      ensures policy.None? ==> r.None? && entries == old(entries)
      ensures request !in old(entries) ==> r.None? && entries == old(entries)
      ensures policy.InMemory? && request in old(entries) && old(entries)[request].expirationDate <= comparisonDate
              ==> r.None? && entries == old(entries) - {request}
      ensures policy.InMemory? && request in old(entries) && old(entries)[request].expirationDate > comparisonDate
              ==> r == Wrappers.Some(old(entries)[request].successfulResult) && entries == old(entries)
    {
      if policy == None {
        return Wrappers.None;
      }
      if request !in entries {
        return Wrappers.None;
      }
      var expectedEntry := entries[request];
      if !(expectedEntry.expirationDate > comparisonDate) {
        entries := entries - {request};
        return Wrappers.None;
      }
      return Wrappers.Some(expectedEntry.successfulResult);
    }
  }
}
