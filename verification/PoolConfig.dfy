/**
  The config-hash skip of syncConfig. A stored hash promises that the tables already agree with
  the configuration it was computed from; every transaction keeps that promise, so skipping the
  sync is the same as running it.
 */
module PoolConfig {
  import opened Prelude
  import opened Sorting
  import opened PoolModel
  import opened PoolInvariants

  ghost predicate MatchesConfig(db: Db, c: ModelConfig) {
    && db.meta.globalLimit == Some(c.globalMaxConcurrent)
    && db.meta.threshold == Some(c.offlineFailureThreshold)
    && (forall a | a in c.apis :: a.apiId in db.apis && db.apis[a.apiId].endpoint == EndpointOf(a))
    && (forall id | id in db.apis && id !in ConfiguredIds(c.apis) :: !db.apis[id].endpoint.enabled)
  }

  ghost predicate HashFaithful(db: Db) {
    db.meta.configHash.Some? ==> MatchesConfig(db, db.meta.configHash.value)
  }

  lemma ConfigBeforeIsStrictOrder()
    ensures StrictOrder(ConfigBefore)
  {
    StrLessIsStrictOrder();
  }

  lemma DistinctIdsTotal(apis: seq<ApiConfig>)
    requires DistinctIds(apis)
    ensures TotalOn(ConfigBefore, apis)
  {
    StrLessIsStrictOrder();
  }

  /** Listing the same APIs in another order gives the same hash. */
  lemma ReorderKeepsDigest(c: ModelConfig, c': ModelConfig)
    requires DistinctIds(c.apis)
    requires c' == c.(apis := c'.apis) && multiset(c'.apis) == multiset(c.apis)
    ensures Digest(c) == Digest(c')
  {
    ConfigBeforeIsStrictOrder();
    DistinctIdsTotal(c.apis);
    SortPermutation(ConfigBefore, c.apis, c'.apis);
  }

  lemma DigestMembers(c: ModelConfig)
    ensures forall a :: a in Digest(c).apis <==> a in c.apis
    ensures ConfiguredIds(Digest(c).apis) == ConfiguredIds(c.apis)
  {
    var d := Digest(c);
    MembersAgree(d.apis, c.apis);
    forall id ensures id in ConfiguredIds(d.apis) <==> id in ConfiguredIds(c.apis) {
      if id in ConfiguredIds(d.apis) {
        var i :| 0 <= i < |d.apis| && d.apis[i].apiId == id;
        assert d.apis[i] in c.apis;
      }
      if id in ConfiguredIds(c.apis) {
        var i :| 0 <= i < |c.apis| && c.apis[i].apiId == id;
        assert c.apis[i] in d.apis;
      }
    }
  }

  /** Only the members of the API list matter, not their order. */
  lemma MatchesDigest(db: Db, c: ModelConfig)
    ensures MatchesConfig(db, Digest(c)) <==> MatchesConfig(db, c)
  {
    DigestMembers(c);
  }

  lemma {:induction false} UpsertAllEndpoints(apis: map<Id, ApiRow>, configs: seq<ApiConfig>, threshold: int)
    ensures var r := UpsertAll(apis, configs, threshold);
      forall id | id in r && id in ConfiguredIds(configs) ::
        exists i :: 0 <= i < |configs| && configs[i].apiId == id && r[id].endpoint == EndpointOf(configs[i])
  {
    if configs != [] {
      var n := |configs| - 1;
      var r := UpsertAll(apis, configs, threshold);
      UpsertAllEndpoints(apis, configs[..n], threshold);
      UpsertAllRows(apis, configs[..n], threshold);
      forall id | id in r && id in ConfiguredIds(configs)
        ensures exists i :: 0 <= i < |configs| && configs[i].apiId == id && r[id].endpoint == EndpointOf(configs[i])
      {
        if id == configs[n].apiId {
          assert r[id].endpoint == EndpointOf(configs[n]);
        } else {
          var k :| 0 <= k < |configs| && configs[k].apiId == id;
          assert configs[..n][k].apiId == id;
          var i :| 0 <= i < n && configs[..n][i].apiId == id && UpsertAll(apis, configs[..n], threshold)[id].endpoint == EndpointOf(configs[..n][i]);
          assert configs[i].apiId == id;
        }
      }
    }
  }

  /** A full sync makes the tables match the configuration. */
  lemma FullSyncMatches(db: Db, c: ModelConfig)
    requires DistinctIds(c.apis)
    ensures MatchesConfig(FullSync(db, c), c)
  {
    var r := UpsertAll(db.apis, c.apis, c.offlineFailureThreshold);
    UpsertAllRows(db.apis, c.apis, c.offlineFailureThreshold);
    UpsertAllEndpoints(db.apis, c.apis, c.offlineFailureThreshold);
    forall a | a in c.apis ensures a.apiId in r && r[a.apiId].endpoint == EndpointOf(a) {
      var j :| 0 <= j < |c.apis| && c.apis[j] == a;
      assert a.apiId in ConfiguredIds(c.apis);
      var i :| 0 <= i < |c.apis| && c.apis[i].apiId == a.apiId && r[a.apiId].endpoint == EndpointOf(c.apis[i]);
      assert i == j;
    }
    forall a | a in c.apis ensures a.apiId in ConfiguredIds(c.apis) {
      var j :| 0 <= j < |c.apis| && c.apis[j] == a;
    }
  }

  lemma SyncKeepsHashFaithful(db: Db, c: ModelConfig)
    requires DistinctIds(c.apis) && HashFaithful(db)
    ensures HashFaithful(SyncConfig(db, c))
    ensures MatchesConfig(SyncConfig(db, c), c)
    ensures SyncConfig(db, c).meta.configHash == Some(Digest(c))
  {
    FullSyncMatches(db, c);
    MatchesDigest(FullSync(db, c), c);
    MatchesDigest(db, c);
  }

  /** Transactions other than sync write neither endpoints nor meta. */
  ghost predicate EndpointsKept(db: Db, db': Db) {
    && db'.meta == db.meta
    && db'.apis.Keys == db.apis.Keys
    && forall id | id in db.apis :: db'.apis[id].endpoint == db.apis[id].endpoint
  }

  lemma EndpointsKeptIsEnough(db: Db, db': Db)
    requires HashFaithful(db) && EndpointsKept(db, db')
    ensures HashFaithful(db')
  {
  }

  lemma ReserveKeepsEndpoints(db: Db, request: Request, api: Id, invocation: Id, attempt: Id)
    requires api in db.apis
    ensures EndpointsKept(db, ReserveOn(db, request, api, invocation, attempt))
  {
  }

  lemma CompletionsKeepEndpoints(db: Db, r: Reservation, output: Option<string>, e: GatewayError, invocation: Id, now: int)
    ensures var s := CompleteSuccess(db, r, output, now); s.Ok? ==> EndpointsKept(db, s.value)
    ensures var f := CompleteAttemptFailure(db, r, e, now); f.Ok? ==> EndpointsKept(db, f.value)
    ensures var g := CompleteInvocationFailure(db, invocation, e, now); g.Ok? ==> EndpointsKept(db, g.value)
  {
  }

  lemma SkippedEndpoint(db: Db, c: ModelConfig, id: Id)
    requires MatchesConfig(db, c) && DistinctIds(c.apis) && id in FullSync(db, c).apis
    ensures id in db.apis && FullSync(db, c).apis[id].endpoint == db.apis[id].endpoint
  {
    FullSyncRows(db, c);
    if id in ConfiguredIds(c.apis) {
      FullSyncMatches(db, c);
      var i :| 0 <= i < |c.apis| && c.apis[i].apiId == id;
      assert c.apis[i] in c.apis;
    } else {
      UpsertAllRows(db.apis, c.apis, c.offlineFailureThreshold);
    }
  }

  lemma ConfiguredIdsPresent(db: Db, c: ModelConfig)
    requires MatchesConfig(db, c)
    ensures ConfiguredIds(c.apis) <= db.apis.Keys
  {
    forall id | id in ConfiguredIds(c.apis) ensures id in db.apis {
      var i :| 0 <= i < |c.apis| && c.apis[i].apiId == id;
      assert c.apis[i] in c.apis;
    }
  }

  /** When the stored hash matches, the full sync would change no row and no meta value. */
  lemma SkipIsFullSync(db: Db, c: ModelConfig)
    requires Coherent(db) && HashFaithful(db) && DistinctIds(c.apis)
    requires db.meta.configHash == Some(Digest(c))
    ensures FullSync(db, c) == db
  {
    MatchesDigest(db, c);
    var db' := FullSync(db, c);
    FullSyncRows(db, c);
    ConfiguredIdsPresent(db, c);
    forall id | id in db'.apis ensures db'.apis[id] == db.apis[id] {
      SkippedEndpoint(db, c, id);
      assert CarriedOver(db.apis, db'.apis[id], id);
    }
    assert db'.apis == db.apis;
  }
}
