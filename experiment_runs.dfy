/** `ExperimentRun.query` (`faculty/experiment.py` and its lazy twin in
    `faculty/experiments.py`): follow the `next` page of each response until
    there is none, converting every run of every page. The service is the
    sequence of responses it gives to the successive calls; resolving the
    session and the project is not part of this model. */
module ExperimentRuns {
  import opened Wrappers
  import opened ExperimentModels
  import opened ExperimentSchemas
  import ExperimentClient

  /** The user-facing `ExperimentRun`, with the client model's fields. */
  datatype ExperimentRun = ExperimentRun(
    id: string, runNumber: int, experimentId: int, name: string, parentRunId: Option<string>,
    artifactLocation: string, status: ExperimentRunStatus, startedAt: string, endedAt: Option<string>,
    deletedAt: Option<string>, tags: seq<Tag>, params: seq<Param>, metrics: seq<Metric>)

  /** `_from_client_model`: `cls(**client_object._asdict())`. */
  function FromClientModel(c: ClientRun): (r: ExperimentRun)
    ensures r.id == c.id && r.runNumber == c.runNumber && r.experimentId == c.experimentId && r.name == c.name
    ensures r.parentRunId == c.parentRunId && r.artifactLocation == c.artifactLocation && r.status == c.status
    ensures r.startedAt == c.startedAt && r.endedAt == c.endedAt && r.deletedAt == c.deletedAt
    ensures r.tags == c.tags && r.params == c.params && r.metrics == c.metrics
  {
    ExperimentRun(c.id, c.runNumber, c.experimentId, c.name, c.parentRunId, c.artifactLocation, c.status,
                  c.startedAt, c.endedAt, c.deletedAt, c.tags, c.params, c.metrics)
  }

  /** The conversion loses nothing: distinct client runs stay distinct. */
  lemma FromClientModelInjective(a: ClientRun, b: ClientRun)
    requires FromClientModel(a) == FromClientModel(b)
    ensures a == b
  {
  }

  /** `map(cls._from_client_model, runs)`. */
  function ConvertAll(runs: seq<ClientRun>): (r: seq<ExperimentRun>)
    ensures |r| == |runs| && forall i | 0 <= i < |runs| :: r[i] == FromClientModel(runs[i])
  {
    seq(|runs|, i requires 0 <= i < |runs| => FromClientModel(runs[i]))
  }

  /** Reference definition: the converted runs of `pages`, page after page. */
  function AllRuns(pages: seq<ListExperimentRunsResponse>): seq<ExperimentRun>
    decreases |pages|
  {
    if |pages| == 0 then [] else AllRuns(pages[..|pages| - 1]) + ConvertAll(pages[|pages| - 1].runs)
  }

  /** Every run of every page appears in the result, in page order: the
      run `j` of page `p` sits after all runs of the earlier pages. */
  lemma {:induction false} AllRunsContains(pages: seq<ListExperimentRunsResponse>, p: nat, j: nat)
    requires p < |pages| && j < |pages[p].runs|
    ensures |AllRuns(pages[..p])| + j < |AllRuns(pages)|
    ensures AllRuns(pages)[|AllRuns(pages[..p])| + j] == FromClientModel(pages[p].runs[j])
    decreases |pages|
  {
    var last := |pages| - 1;
    assert pages[..last] == pages[..|pages| - 1];
    if p == last {
      assert pages[..p] == pages[..|pages| - 1];
    } else {
      assert pages[..last][..p] == pages[..p];
      AllRunsContains(pages[..last], p, j);
    }
  }

  /** The start and limit of the `i`-th call: none on the first, then the
      previous response's `next` page. */
  function PagingOf(pages: seq<ListExperimentRunsResponse>, i: nat): (r: (Option<int>, Option<int>))
    requires i < |pages| && (i > 0 ==> pages[i - 1].pagination.next.Some?)
  {
    if i == 0 then (None, None)
    else (Some(pages[i - 1].pagination.next.value.start), Some(pages[i - 1].pagination.next.value.limit))
  }

  /** Appending a page appends its converted runs. */
  lemma AllRunsSnoc(pages: seq<ListExperimentRunsResponse>, i: nat)
    requires i < |pages|
    ensures AllRuns(pages[..i + 1]) == AllRuns(pages[..i]) + ConvertAll(pages[i].runs)
  {
    assert pages[..i + 1][..i] == pages[..i];
  }

  /** The `while response.pagination.next is not None` loop, from the first
      answer on: `pages[i]` is the answer to the `i`-th call and `paging`
      the start and limit each call passes. */
  method FollowPages(pages: seq<ListExperimentRunsResponse>)
    returns (runs: seq<ExperimentRun>, paging: seq<(Option<int>, Option<int>)>)
    requires exists k :: 0 <= k < |pages| && pages[k].pagination.next.None?
    ensures 1 <= |paging| <= |pages|
    ensures pages[|paging| - 1].pagination.next.None?
    ensures forall i | 0 <= i < |paging| - 1 :: pages[i].pagination.next.Some?
    ensures forall i | 0 <= i < |paging| :: paging[i] == PagingOf(pages, i)
    ensures runs == AllRuns(pages[..|paging|])
  {
    var response := pages[0];
    runs := ConvertAll(response.runs);
    paging := [(None, None)];
    AllRunsSnoc(pages, 0);
    var i := 0;
    while response.pagination.next.Some?
      invariant 0 <= i < |pages| && response == pages[i] && |paging| == i + 1
      invariant forall j | 0 <= j < i :: pages[j].pagination.next.Some?
      invariant forall j | 0 <= j <= i :: paging[j] == PagingOf(pages, j)
      invariant runs == AllRuns(pages[..i + 1])
      decreases |pages| - i
    {
      var k :| 0 <= k < |pages| && pages[k].pagination.next.None?;
      assert k > i;
      var next := response.pagination.next.value;
      i := i + 1;
      response := pages[i];
      paging := paging + [(Some(next.start), Some(next.limit))];
      AllRunsSnoc(pages, i);
      runs := runs + ConvertAll(response.runs);
    }
  }

  /** `query(project_id, filter, sort)`: the pages are followed as
      `FollowPages` does, each call being `query_runs(project_id, filter,
      sort, start, limit)` with the listed start and limit. A filter that
      does not serialise fails the first call. */
  method Query(projectId: string, filter: Option<Filter>, sort: Option<seq<Sort>>, pages: seq<ListExperimentRunsResponse>)
    returns (runs: Result<seq<ExperimentRun>, string>, paging: seq<(Option<int>, Option<int>)>)
    requires exists k :: 0 <= k < |pages| && pages[k].pagination.next.None?
    ensures runs.Err? <==> filter.Some? && !Serialisable(filter.value)
    ensures runs.Err? ==> paging == [(None, None)]
    ensures runs.Ok? ==>
      1 <= |paging| <= |pages|
      && pages[|paging| - 1].pagination.next.None?
      && (forall i | 0 <= i < |paging| - 1 :: pages[i].pagination.next.Some?)
      && (forall i | 0 <= i < |paging| :: paging[i] == PagingOf(pages, i))
      && runs.value == AllRuns(pages[..|paging|])
  {
    var first := ExperimentClient.QueryRuns(projectId, filter, sort, None, None);
    if first.Invalid? {
      return Err(first.message), [(None, None)];
    }
    var all;
    all, paging := FollowPages(pages);
    runs := Ok(all);
  }
}
