/**
 * `addRegistriesSeedV1`: add the default registry once, recording that the
 * seed was applied in the `seeds` table, inside one transaction.
 */
module RegistrySeed {
  import opened Wrappers
  import opened DbSchema

  const SeedNameV1: string := "registery_seed_v1"

  /** The seeded registries: Docker Hub, marked as the default. */
  const Registries: seq<RegistryInsert> := [RegistryInsert(None, "Docker", "docker.io", Some(true), None)]

  /** `findFirst` by name: the first seed row carrying `name`. */
  function FindFirst(seeds: seq<SeedRow>, name: string): (r: Option<SeedRow>)
    ensures r.Some? ==> r.value in seeds && r.value.name == name
    ensures r.None? <==> !Taken(seeds, SeedName, name)
  {
    if seeds == [] then None
    else if seeds[0].name == name then Some(seeds[0])
    else
      var r := FindFirst(seeds[1..], name);
      assert Taken(seeds, SeedName, name) <==> Taken(seeds[1..], SeedName, name) by {
        if Taken(seeds, SeedName, name) {
          var i :| 0 <= i < |seeds| && SeedName(seeds[i]) == name;
          assert seeds[1..][i - 1] == seeds[i];
        }
        if Taken(seeds[1..], SeedName, name) {
          var i :| 0 <= i < |seeds| - 1 && SeedName(seeds[1..][i]) == name;
          assert seeds[i + 1] == seeds[1..][i];
        }
      }
      r
  }

  /** The guard: the seed row exists and says it was applied. */
  predicate AlreadyApplied(t: Tables) {
    match FindFirst(t.seeds, SeedNameV1)
    case None => false
    case Some(s) => s.applied
  }

  function DockerRow(registryId: string): RegistryRow {
    FillRegistry(Registries[0], registryId)
  }

  function AppliedSeed(seedId: string): SeedRow {
    FillSeed(SeedInsert(None, SeedNameV1, Some(true)), seedId)
  }

  /**
   * The intended effect: nothing when already applied; otherwise insert the
   * registries and the applied seed row atomically, or fail and change nothing.
   * `registryId` and `seedId` are the generated UUIDs.
   */
  function SeedEffect(t: Tables, registryId: string, seedId: string): Result<Tables, Violation> {
    if AlreadyApplied(t) then Ok(t)
    else match InsertRegistry(t.registry, [DockerRow(registryId)])
      case Err(v) => Err(v)
      case Ok(registry) =>
        match InsertSeeds(t.seeds, [AppliedSeed(seedId)])
        case Err(v) => Err(v)
        case Ok(seeds) => Ok(Tables(registry, seeds))
  }

  /**
   * The effect as written: the transaction callback starts both inserts but
   * awaits neither, and a drizzle insert only reaches the database when it is
   * awaited, so the transaction commits with nothing in it.
   */
  function SeedEffectAsWritten(t: Tables, registryId: string, seedId: string): Tables {
    t
  }

  /**
   * As written, a seed that has not been applied never takes effect: the
   * tables come back as they were, the seed is still not applied, and a run
   * the intended effect completes would have added the Docker registry.
   */
  lemma {:induction false} SeedAsWrittenNeverApplies(t: Tables, registryId: string, seedId: string)
    requires Valid(t) && !AlreadyApplied(t)
    ensures !AlreadyApplied(SeedEffectAsWritten(t, registryId, seedId))
    ensures SeedEffect(t, registryId, seedId).Ok? ==>
      |SeedEffect(t, registryId, seedId).value.registry| == |SeedEffectAsWritten(t, registryId, seedId).registry| + 1
  {
    SeedWrites(t, registryId, seedId);
  }

  /** The database the seed runs against. */
  class Database {
    var registry: seq<RegistryRow>
    var seeds: seq<SeedRow>

    constructor (t: Tables)
      ensures registry == t.registry && seeds == t.seeds
    {
      registry := t.registry;
      seeds := t.seeds;
    }

    function State(): Tables
      reads this
    {
      Tables(registry, seeds)
    }

    /**
     * `addRegistriesSeedV1`: look the seed up; return if it was applied; else
     * run both inserts in one transaction, rolled back when either fails.
     */
    method AddRegistriesSeedV1(registryId: string, seedId: string) returns (result: Result<(), Violation>)
      modifies this
      ensures result.Ok? <==> SeedEffect(old(State()), registryId, seedId).Ok?
      ensures result.Ok? ==> State() == SeedEffect(old(State()), registryId, seedId).value
      ensures result.Err? ==> State() == old(State()) && result.error == SeedEffect(old(State()), registryId, seedId).error
    {
      var seed := FindFirst(seeds, SeedNameV1);
      if seed.Some? && seed.value.applied {
        return Ok(());
      }
      var newRegistry := InsertRegistry(registry, [DockerRow(registryId)]);
      if newRegistry.Err? {
        return Err(newRegistry.error);
      }
      var newSeeds := InsertSeeds(seeds, [AppliedSeed(seedId)]);
      if newSeeds.Err? {
        return Err(newSeeds.error);
      }
      registry := newRegistry.value;
      seeds := newSeeds.value;
      result := Ok(());
    }
  }

  /**
   * When the seed has not been applied, a successful run adds exactly the
   * Docker registry (the default) and the applied seed row.
   */
  lemma {:induction false} SeedWrites(t: Tables, registryId: string, seedId: string)
    requires Valid(t) && !AlreadyApplied(t)
    ensures SeedEffect(t, registryId, seedId).Ok? ==>
      SeedEffect(t, registryId, seedId).value
        == Tables(t.registry + [RegistryRow(registryId, "Docker", "docker.io", true, false)],
                  t.seeds + [SeedRow(seedId, SeedNameV1, true)])
  {
    InsertRowsKeepsUnique(t.registry, [DockerRow(registryId)], RegistryId, RegistryUrl, "registry.id", "registry.url");
    InsertRowsKeepsUnique(t.seeds, [AppliedSeed(seedId)], SeedId, SeedName, "seeds.id", "seeds.name");
  }

  /** The seed keeps both tables within their constraints. */
  lemma {:induction false} SeedKeepsValid(t: Tables, registryId: string, seedId: string)
    requires Valid(t)
    ensures SeedEffect(t, registryId, seedId).Ok? ==> Valid(SeedEffect(t, registryId, seedId).value)
  {
    InsertRowsKeepsUnique(t.registry, [DockerRow(registryId)], RegistryId, RegistryUrl, "registry.id", "registry.url");
    InsertRowsKeepsUnique(t.seeds, [AppliedSeed(seedId)], SeedId, SeedName, "seeds.id", "seeds.name");
  }

  /** A first successful run leaves the seed applied, so a second run, with any ids, changes nothing. */
  lemma {:induction false} SeedIdempotent(t: Tables, registryId: string, seedId: string, registryId2: string, seedId2: string)
    requires Valid(t)
    requires SeedEffect(t, registryId, seedId).Ok?
    ensures AlreadyApplied(SeedEffect(t, registryId, seedId).value)
    ensures SeedEffect(SeedEffect(t, registryId, seedId).value, registryId2, seedId2)
         == SeedEffect(t, registryId, seedId)
  {
    if !AlreadyApplied(t) {
      SeedWrites(t, registryId, seedId);
      var s := t.seeds + [SeedRow(seedId, SeedNameV1, true)];
      // The name was free before (else the unique insert had failed), so the new row is the first match.
      assert !Taken(t.seeds, SeedName, SeedNameV1) by {
        InsertRowsKeepsUnique(t.seeds, [AppliedSeed(seedId)], SeedId, SeedName, "seeds.id", "seeds.name");
        forall i | 0 <= i < |t.seeds| ensures SeedName(t.seeds[i]) != SeedNameV1 {
          assert s[i] == t.seeds[i] && s[|t.seeds|] == SeedRow(seedId, SeedNameV1, true);
        }
      }
      FindFirstAfterAbsent(t.seeds, SeedRow(seedId, SeedNameV1, true));
    }
  }

  lemma {:induction false} FindFirstAfterAbsent(seeds: seq<SeedRow>, row: SeedRow)
    requires !Taken(seeds, SeedName, row.name)
    ensures FindFirst(seeds + [row], row.name) == Some(row)
  {
    if seeds != [] {
      assert (seeds + [row])[1..] == seeds[1..] + [row];
      assert seeds[0].name != row.name by { assert SeedName(seeds[0]) != row.name; }
      assert !Taken(seeds[1..], SeedName, row.name) by {
        forall i | 0 <= i < |seeds| - 1 ensures SeedName(seeds[1..][i]) != row.name {
          assert seeds[i + 1] == seeds[1..][i];
        }
      }
      FindFirstAfterAbsent(seeds[1..], row);
    }
  }

  /**
   * A seed row left with `applied` false does not let the seed proceed: the
   * guard passes, but the insert of the seed name clashes with the existing
   * row, so the transaction fails and nothing is written.
   */
  lemma {:induction false} UnappliedSeedRowBlocks(t: Tables, registryId: string, seedId: string)
    requires Valid(t)
    requires FindFirst(t.seeds, SeedNameV1).Some? && !FindFirst(t.seeds, SeedNameV1).value.applied
    ensures SeedEffect(t, registryId, seedId).Err?
  {
    var s := FindFirst(t.seeds, SeedNameV1).value;
    var i :| 0 <= i < |t.seeds| && t.seeds[i] == s;
    assert Taken(t.seeds, SeedName, SeedNameV1) by { assert SeedName(t.seeds[i]) == SeedNameV1; }
  }
}
