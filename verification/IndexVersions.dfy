/** The index-version counters in Redis: query-service reads them, the ingestion
    worker increments them. */
module IndexVersions {
  import opened Common

  type Versions = map<TenantId, nat>

  /** A counter nobody has incremented reads as zero. */
  function VersionOf(versions: Versions, t: TenantId): nat { if t in versions then versions[t] else 0 }

  function Bumped(versions: Versions, t: TenantId): Versions { versions[t := VersionOf(versions, t) + 1] }

  /** A bump raises its tenant's counter by one and no other. */
  lemma BumpMeaning(versions: Versions, t: TenantId)
    ensures forall u :: VersionOf(Bumped(versions, t), u) == if u == t then VersionOf(versions, u) + 1 else VersionOf(versions, u)
  {
  }

  /** The Redis server as the two services share it, while it answers. */
  class RedisCounters {
    var versions: Versions

    constructor ()
      ensures versions == map[]
    {
      versions := map[];
    }

    method Increment(t: TenantId)
      modifies this
      ensures forall u :: VersionOf(versions, u) == if u == t then VersionOf(old(versions), u) + 1 else VersionOf(old(versions), u)
      ensures versions == Bumped(old(versions), t)
    {
      BumpMeaning(versions, t);
      if t in versions {
        versions := versions[t := versions[t] + 1];
      } else {
        versions := versions[t := 1];
      }
    }
  }
}
