/**
 * The tenant handle cache of `MongoRepo`: tenant name -> shared database handle.
 *
 * A handle is an object; two handles are the same `Arc<Database>` exactly when
 * they are the same Dafny object.  The cache is moka's with a time-to-idle of
 * 15 minutes: an entry not read or written for that long is no longer returned
 * and is eventually dropped in the background.  Wall-clock time is the
 * parameter `now` (seconds), which never goes back: the ghost field `clock`
 * records the latest time seen.  Background eviction is the explicit steps
 * `Evict` and `EvictExpired`.
 */
module TenantCache {

  /** `time_to_idle(Duration::from_secs(15 * 60))`. */
  const IdleWindowSeconds: nat := 15 * 60

  /** A database handle, bound for its whole life to one tenant name. */
  class Database {
    const name: string

    constructor (name: string)
      ensures this.name == name
    {
      this.name := name;
    }
  }

  class MongoRepo {
    /** The moka cache: its entries and the time each was last touched. */
    var cache: map<string, Database>
    var lastAccess: map<string, nat>
    /** How many handles `GetDb` has built so far (`client.database(..)` calls). */
    var created: nat
    /** The latest time the cache has been used at. */
    ghost var clock: nat

    /** Every entry has a last-access time, and every cached handle is bound to its own key. */
    ghost predicate Valid()
      reads this
    {
      && cache.Keys == lastAccess.Keys
      && (forall t :: t in cache ==> cache[t].name == t)
      && (forall t :: t in lastAccess ==> lastAccess[t] <= clock)
    }

    /** The entry for `t` is present and has not been idle for the whole window. */
    predicate Live(t: string, now: nat)
      reads this
    {
      t in cache && t in lastAccess && now < lastAccess[t] + IdleWindowSeconds
    }

    constructor ()
      ensures Valid()
      ensures cache == map[] && lastAccess == map[] && created == 0 && clock == 0
    {
      cache := map[];
      lastAccess := map[];
      created := 0;
      clock := 0;
    }

    /**
     * `get_db`: the cached handle on a hit; on a miss, a new handle bound to
     * `dbName`, stored under that name and returned.  It never fails, and
     * every other tenant's entry is left as it was.
     */
    method GetDb(dbName: string, now: nat) returns (db: Database)
      requires Valid() && clock <= now
      modifies this
      ensures Valid() && GotDb(this, dbName, now)
      ensures db == cache[dbName]
    {
      clock := now;
      if Live(dbName, now) {
        db := cache[dbName];
        lastAccess := lastAccess[dbName := now];
      } else {
        db := new Database(dbName);
        created := created + 1;
        cache := cache[dbName := db];
        lastAccess := lastAccess[dbName := now];
      }
    }

    /** Background removal of one entry; nothing else changes. */
    method Evict(t: string)
      requires Valid()
      modifies this
      ensures Valid()
      ensures cache == old(cache) - {t}
      ensures lastAccess == old(lastAccess) - {t}
      ensures created == old(created) && clock == old(clock)
    {
      cache := cache - {t};
      lastAccess := lastAccess - {t};
    }

    /** Background removal of every entry idle for the whole window at time `now`. */
    method EvictExpired(now: nat)
      requires Valid() && clock <= now
      modifies this
      ensures Valid() && clock == now
      ensures forall t :: t in cache <==> old(Live(t, now))
      ensures forall t :: t in cache ==> t in old(cache) && cache[t] == old(cache[t]) && lastAccess[t] == old(lastAccess[t])
      ensures created == old(created)
    {
      clock := now;
      cache := map t | t in cache && Live(t, now) :: cache[t];
      lastAccess := map t | t in lastAccess && t in cache :: lastAccess[t];
    }
  }

  /**
   * The effect of one `get_db(dbName)` at time `now`: afterwards `dbName` maps
   * to a handle bound to it, every other entry is as before, and the entry's
   * idle clock restarts.  A live entry keeps its handle and nothing is built;
   * otherwise exactly one new handle is built.
   */
  twostate predicate GotDb(repo: MongoRepo, dbName: string, now: nat)
    reads repo
  {
    && dbName in repo.cache
    && repo.cache[dbName].name == dbName
    && repo.cache == old(repo.cache)[dbName := repo.cache[dbName]]
    && repo.lastAccess == old(repo.lastAccess)[dbName := now]
    && repo.clock == now
    && (old(repo.Live(dbName, now)) ==>
          dbName in old(repo.cache) && repo.cache[dbName] == old(repo.cache[dbName]) && repo.created == old(repo.created))
    && (!old(repo.Live(dbName, now)) ==> fresh(repo.cache[dbName]) && repo.created == old(repo.created) + 1)
  }

  /** Distinct tenants are never served the same handle. */
  lemma DistinctTenantsDistinctHandles(repo: MongoRepo, t1: string, t2: string)
    requires repo.Valid() && t1 in repo.cache && t2 in repo.cache && t1 != t2
    ensures repo.cache[t1] != repo.cache[t2]
  {
    assert repo.cache[t1].name == t1;
  }

  /** Two calls for one tenant within the idle window share a handle; at most one is built. */
  method RepeatedGetDb(repo: MongoRepo, t: string, now1: nat, now2: nat)
    returns (first: Database, second: Database)
    requires repo.Valid()
    requires repo.clock <= now1 <= now2 < now1 + IdleWindowSeconds
    modifies repo
    ensures repo.Valid()
    ensures first == second && first.name == t
    ensures repo.created <= old(repo.created) + 1
  {
    first := repo.GetDb(t, now1);
    second := repo.GetDb(t, now2);
  }

  /** After an entry is evicted the next call builds a new handle. */
  method GetDbAfterEvict(repo: MongoRepo, t: string, now1: nat, now2: nat)
    returns (before: Database, after: Database)
    requires repo.Valid()
    requires repo.clock <= now1 <= now2
    modifies repo
    ensures repo.Valid()
    ensures fresh(after) && before != after && after.name == t
    ensures repo.created == old(repo.created) + (if old(repo.Live(t, now1)) then 1 else 2)
  {
    before := repo.GetDb(t, now1);
    repo.Evict(t);
    after := repo.GetDb(t, now2);
  }
}
