/**
 * `InMemoryCache`: repositories and reports kept in two dictionaries keyed by id. The
 * concurrent dictionaries are modelled as sequential maps; their enumeration order is not
 * specified, so the queries that enumerate them pick the ids in an arbitrary order.
 */
module Persistence {
  import opened Wrappers
  import opened Collections
  import opened Domain

  function GeneratedAt(r: AnalysisReport): int
  {
    r.generatedAt
  }

  /** The reports stored under `ids` whose `RepositoryId` is `repositoryId`, in the order of `ids`. */
  function ReportsOf(reports: map<string, AnalysisReport>, ids: seq<string>, repositoryId: string): seq<AnalysisReport>
  {
    if ids == [] then []
    else
      var id := ids[|ids| - 1];
      ReportsOf(reports, ids[..|ids| - 1], repositoryId)
      + (if id in reports && reports[id].repositoryId == repositoryId then [reports[id]] else [])
  }

  lemma ReportsOfSnoc(reports: map<string, AnalysisReport>, ids: seq<string>, id: string, repositoryId: string)
    ensures ReportsOf(reports, ids + [id], repositoryId) == ReportsOf(reports, ids, repositoryId)
      + (if id in reports && reports[id].repositoryId == repositoryId then [reports[id]] else [])
  {
    assert (ids + [id])[..|ids|] == ids;
  }

  /** `ids` enumerates the keys of a dictionary once each. */
  ghost predicate Enumerates<V>(ids: seq<string>, m: map<string, V>)
  {
    Distinct(ids) && (forall id :: id in ids <==> id in m)
  }

  lemma {:induction false} ReportsOfMembers(reports: map<string, AnalysisReport>, ids: seq<string>, repositoryId: string)
    ensures forall x :: x in ReportsOf(reports, ids, repositoryId) <==>
      exists id :: id in ids && id in reports && reports[id] == x && x.repositoryId == repositoryId
  {
    if ids != [] {
      var init := ids[..|ids| - 1];
      ReportsOfMembers(reports, init, repositoryId);
      assert ids == init + [ids[|ids| - 1]];
    }
  }

  class InMemoryCache {
    var repositories: map<string, Repository>
    var reports: map<string, AnalysisReport>

    constructor ()
      ensures repositories == map[] && reports == map[]
    {
      repositories := map[];
      reports := map[];
    }

    /** `_repositories[repository.Id] = repository`: an upsert that leaves the reports alone. */
    method AddRepository(repository: Repository)
      modifies this
      ensures repositories == old(repositories)[repository.id := repository]
      ensures reports == old(reports)
    {
      repositories := repositories[repository.id := repository];
    }

    /** `TryGetValue`: the repository stored under `id`, or `None` (null) when there is none. */
    method GetRepository(id: string) returns (r: Option<Repository>)
      ensures r.Some? <==> id in repositories
      ensures r.Some? ==> r.value == repositories[id] && r.value in repositories.Values
    {
      if id in repositories {
        r := Some(repositories[id]);
      } else {
        r := None;
      }
    }

    /** `_reports[report.Id] = report`: an upsert that leaves the repositories alone. */
    method AddReport(report: AnalysisReport)
      modifies this
      ensures reports == old(reports)[report.id := report]
      ensures repositories == old(repositories)
    {
      reports := reports[report.id := report];
    }

    /** `TryGetValue`: the report stored under `id`, or `None` (null) when there is none. */
    method GetReport(id: string) returns (r: Option<AnalysisReport>)
      ensures r.Some? <==> id in reports
      ensures r.Some? ==> r.value == reports[id] && r.value in reports.Values
    {
      if id in reports {
        r := Some(reports[id]);
      } else {
        r := None;
      }
    }

    /** `_repositories.Values.ToList()`: one entry per stored id, in an unspecified id order. */
    method GetAllRepositories() returns (all: seq<Repository>, ghost ids: seq<string>)
      ensures Enumerates(ids, repositories)
      ensures |all| == |ids| == |repositories|
      ensures forall i :: 0 <= i < |ids| ==> ids[i] in repositories && all[i] == repositories[ids[i]]
    {
      all, ids := [], [];
      var rest := repositories.Keys;
      while rest != {}
        invariant rest <= repositories.Keys
        invariant Distinct(ids) && |all| == |ids|
        invariant forall id :: id in ids <==> id in repositories && id !in rest
        invariant forall i :: 0 <= i < |ids| ==> ids[i] in repositories && all[i] == repositories[ids[i]]
        decreases |rest|
      {
        var id :| id in rest;
        all, ids := all + [repositories[id]], ids + [id];
        rest := rest - {id};
      }
      DistinctKeysCount(ids, repositories);
    }

    /**
     * `GetReportsByRepositoryId`: the stored reports whose `RepositoryId` matches, once per id,
     * newest first.
     */
    method GetReportsByRepositoryId(repositoryId: string) returns (result: seq<AnalysisReport>, ghost ids: seq<string>)
      ensures Enumerates(ids, reports)
      ensures NonIncreasingBy(result, GeneratedAt)
      ensures multiset(result) == multiset(ReportsOf(reports, ids, repositoryId))
      ensures forall x :: x in result <==>
        x in reports.Values && x.repositoryId == repositoryId
    {
      result, ids := [], [];
      var rest := reports.Keys;
      while rest != {}
        invariant rest <= reports.Keys
        invariant Distinct(ids)
        invariant forall id :: id in ids <==> id in reports && id !in rest
        invariant NonIncreasingBy(result, GeneratedAt)
        invariant multiset(result) == multiset(ReportsOf(reports, ids, repositoryId))
        decreases |rest|
      {
        var id :| id in rest;
        ReportsOfSnoc(reports, ids, id, repositoryId);
        var report := reports[id];
        if report.repositoryId == repositoryId {
          result := InsertDescending(result, report, GeneratedAt);
        }
        ids := ids + [id];
        rest := rest - {id};
      }
      ReportsOfMembers(reports, ids, repositoryId);
      forall x ensures x in result <==> x in reports.Values && x.repositoryId == repositoryId {
        assert x in result <==> x in multiset(result);
        assert x in ReportsOf(reports, ids, repositoryId) <==> x in multiset(ReportsOf(reports, ids, repositoryId));
      }
    }
  }

  /** A duplicate-free enumeration of a map's keys has as many entries as the map. */
  lemma DistinctKeysCount<V>(ids: seq<string>, m: map<string, V>)
    requires Distinct(ids)
    requires forall id :: id in ids <==> id in m
    ensures |ids| == |m|
  {
    DistinctCard(ids);
    assert (set id | id in ids) == m.Keys;
  }
}
