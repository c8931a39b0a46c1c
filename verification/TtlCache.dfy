/**
 The expiring cache of pkg/providers/instance/instance.go; the vswitch and instancetype
 providers repeat its code. A read that meets an expired entry gives up the read lock, takes
 the write lock and looks again before deleting, so anything may happen in between.
 */
module TtlCaches {
  import opened Wrappers

  datatype Entry<V> = Entry(value: V, expiresAt: int)

  predicate IsExpired<V>(e: Entry<V>, now: int) {
    now > e.expiresAt
  }

  datatype ReadResult<V> = Miss | Hit(value: V) | SawExpired

  function ReadEntry<V>(entries: map<string, Entry<V>>, id: string, now: int): ReadResult<V> {
    if id !in entries then Miss
    else if IsExpired(entries[id], now) then SawExpired
    else Hit(entries[id].value)
  }

  function Unexpired<V>(entries: map<string, Entry<V>>, now: int): map<string, Entry<V>> {
    map id | id in entries && !IsExpired(entries[id], now) :: entries[id]
  }

  function DeleteIfExpired<V>(entries: map<string, Entry<V>>, id: string, now: int): map<string, Entry<V>> {
    if id in entries && IsExpired(entries[id], now) then entries - {id} else entries
  }

  class Cache<V> {
    var entries: map<string, Entry<V>>
    var ttl: nat

    constructor (ttl: nat)
      ensures entries == map[] && this.ttl == ttl
    {
      entries, this.ttl := map[], ttl;
    }

    /** getCachedInstance up to giving up the read lock. */
    method ReadPhase(id: string, now: int) returns (r: ReadResult<V>)
      ensures r == ReadEntry(entries, id, now)
    {
      if id !in entries {
        return Miss;
      }
      var entry := entries[id];
      if now > entry.expiresAt {
        return SawExpired;
      }
      return Hit(entry.value);
    }

    /** The rest of getCachedInstance, under the write lock, at a possibly later time. */
    method ExpirePhase(id: string, now: int)
      modifies this
      ensures entries == DeleteIfExpired(old(entries), id, now) && ttl == old(ttl)
      ensures entries == if id in old(entries) && old(entries)[id].expiresAt < now then old(entries) - {id}
                         else old(entries)
    {
      if id in entries && now > entries[id].expiresAt {
        entries := entries - {id};
      }
    }

    /** getCachedInstance without interference. */
    method Get(id: string, now: int) returns (r: Option<V>)
      modifies this
      ensures r == if id in old(entries) && now <= old(entries)[id].expiresAt then Some(old(entries)[id].value)
                   else None
      ensures r == if ReadEntry(old(entries), id, now).Hit? then Some(ReadEntry(old(entries), id, now).value) else None
      ensures entries == DeleteIfExpired(old(entries), id, now) && ttl == old(ttl)
      ensures entries == if id in old(entries) && old(entries)[id].expiresAt < now then old(entries) - {id}
                         else old(entries)
    {
      var read := ReadPhase(id, now);
      if read.Hit? {
        return Some(read.value);
      }
      if read.SawExpired? {
        ExpirePhase(id, now);
      }
      return None;
    }

    method Set(id: string, value: V, now: int)
      modifies this
      ensures entries == old(entries)[id := Entry(value, now + ttl)] && ttl == old(ttl)
    {
      entries := entries[id := Entry(value, now + ttl)];
    }

    method Delete(id: string)
      modifies this
      ensures entries == old(entries) - {id} && ttl == old(ttl)
    {
      entries := entries - {id};
    }

    /** deleteExpiredCacheEntries: Go may delete from a map while ranging over it. */
    method DeleteExpired(now: int)
      modifies this
      ensures entries == Unexpired(old(entries), now) && ttl == old(ttl)
      ensures entries == map id | id in old(entries) && now <= old(entries)[id].expiresAt :: old(entries)[id]
    {
      ghost var was := entries;
      var rest := entries.Keys;
      while rest != {}
        invariant rest <= was.Keys && ttl == old(ttl)
        invariant entries == map id | id in was && (id in rest || !IsExpired(was[id], now)) :: was[id]
        decreases rest
      {
        var id :| id in rest;
        if now > entries[id].expiresAt {
          entries := entries - {id};
        }
        rest := rest - {id};
      }
    }
  }

  // ----- every interleaving of readers, writers and purges

  datatype Event<V> =
    | Sets(id: string, value: V)
    | Deletes(id: string)
    | ExpirePhases(id: string)
    | Purges
    | SetsTTL(ttl: nat)
    | Passes(dt: nat)

  datatype Clocked<V> = Clocked(entries: map<string, Entry<V>>, ttl: nat, now: int)

  function Apply<V>(s: Clocked<V>, e: Event<V>): Clocked<V> {
    match e
    case Sets(id, value) => s.(entries := s.entries[id := Entry(value, s.now + s.ttl)])
    case Deletes(id) => s.(entries := s.entries - {id})
    case ExpirePhases(id) => s.(entries := DeleteIfExpired(s.entries, id, s.now))
    case Purges => s.(entries := Unexpired(s.entries, s.now))
    case SetsTTL(ttl) => s.(ttl := ttl)
    case Passes(dt) => s.(now := s.now + dt)
  }

  function Run<V>(start: Clocked<V>, events: seq<Event<V>>): Clocked<V> {
    if events == [] then start else Apply(Run(start, events[..|events| - 1]), events[|events| - 1])
  }

  /** What was last stored under an id and not deleted since, and how long it may be served. */
  datatype Stored<V> = Stored(value: V, storedAt: int, ttl: nat)

  /** Read off the events alone: the newest Sets of the id that no Deletes follows. */
  function LastStored<V>(start: Clocked<V>, events: seq<Event<V>>, id: string): Option<Stored<V>> {
    if events == [] then None
    else
      var before, e := events[..|events| - 1], events[|events| - 1];
      if e.Sets? && e.id == id then Some(Stored(e.value, Run(start, before).now, Run(start, before).ttl))
      else if e.Deletes? && e.id == id then None
      else LastStored(start, before, id)
  }

  /** The cache holds nothing but last stored values, and all of them that are still alive. */
  ghost predicate Refines<V>(start: Clocked<V>, events: seq<Event<V>>, id: string) {
    var s, last := Run(start, events), LastStored(start, events, id);
    && (id in s.entries ==>
          last.Some? && s.entries[id] == Entry(last.value.value, last.value.storedAt + last.value.ttl))
    && (last.Some? ==> last.value.storedAt <= s.now)
    && (last.Some? && s.now <= last.value.storedAt + last.value.ttl ==> id in s.entries)
  }

  lemma {:induction false} EveryRunRefines<V>(start: Clocked<V>, events: seq<Event<V>>, id: string)
    requires start.entries == map[]
    ensures Refines(start, events, id)
    decreases |events|
  {
    if events != [] {
      EveryRunRefines(start, events[..|events| - 1], id);
    }
  }

  /**
   Whatever readers' deletions, purges and other writers come before it, a read hits exactly
   when a value was stored at most its TTL ago and not deleted since, and then returns the
   latest one: the cache answers like a map that never purges.
   */
  lemma ReadsAnswerLikeAMap<V>(start: Clocked<V>, events: seq<Event<V>>, id: string)
    requires start.entries == map[]
    ensures var s, last := Run(start, events), LastStored(start, events, id);
            var alive := last.Some? && s.now <= last.value.storedAt + last.value.ttl;
            && (ReadEntry(s.entries, id, s.now).Hit? <==> alive)
            && (alive ==> ReadEntry(s.entries, id, s.now) == Hit(last.value.value))
  {
    EveryRunRefines(start, events, id);
  }

  /** No unexpired entry is ever removed by a reader's second look or by a purge. */
  lemma ExpiryRemovesOnlyExpired<V>(s: Clocked<V>, e: Event<V>, id: string)
    requires e.ExpirePhases? || e.Purges?
    ensures Unexpired(Apply(s, e).entries, s.now) == Unexpired(s.entries, s.now)
    ensures id in s.entries && id !in Apply(s, e).entries ==> IsExpired(s.entries[id], s.now)
  {
  }
}
