/**
 * The pledge progress page (src/modules/pledge/PledgeProgressPage.tsx): a map from pledge id
 * to completion, fetched from and written back to the server one pledge at a time, and the
 * counts and rates shown per category and overall.
 *
 * The pledge categories come from a data file that is not part of this model; they are a
 * parameter. `Math.round((c / t) * 100)` is computed here in integers, rounding halves up.
 */
module PledgeProgress {
  import opened Wrappers
  import ApiClient

  const NOT_FOUND: int := 404

  /** A category of `pledgeCategories`: its id and the ids of its pledges. */
  datatype PledgeCategory = PledgeCategory(id: string, pledges: seq<string>)

  /** `progress[id] === true`: a missing entry is not completed. */
  function GetCompleted(progress: map<string, bool>, id: string): (done: bool)
    ensures done <==> id in progress && progress[id]
  {
    id in progress && progress[id] == true
  }

  /** `pledges.filter((p) => getCompleted(p.id)).length` */
  function CountCompleted(progress: map<string, bool>, pledges: seq<string>): (n: nat)
    ensures n <= |pledges|
    decreases |pledges|
  {
    if pledges == [] then 0
    else CountCompleted(progress, pledges[..|pledges| - 1])
         + (if GetCompleted(progress, pledges[|pledges| - 1]) then 1 else 0)
  }

  /** `totalPledges`: the pledges of every category. */
  function TotalPledges(categories: seq<PledgeCategory>): nat
    decreases |categories|
  {
    if categories == [] then 0
    else TotalPledges(categories[..|categories| - 1]) + |categories[|categories| - 1].pledges|
  }

  /** `completedCount`: the completed pledges of every category. */
  function CompletedCount(progress: map<string, bool>, categories: seq<PledgeCategory>): nat
    decreases |categories|
  {
    if categories == [] then 0
    else CompletedCount(progress, categories[..|categories| - 1])
         + CountCompleted(progress, categories[|categories| - 1].pledges)
  }

  /** No more pledges are completed than there are. */
  lemma {:induction false} CompletedAtMostTotal(progress: map<string, bool>, categories: seq<PledgeCategory>)
    ensures CompletedCount(progress, categories) <= TotalPledges(categories)
    decreases |categories|
  {
    if categories != [] {
      CompletedAtMostTotal(progress, categories[..|categories| - 1]);
    }
  }

  /** A list where no pledge is completed counts 0; one where every pledge is counts them all. */
  lemma {:induction false} CountEndpoints(progress: map<string, bool>, pledges: seq<string>)
    ensures (forall k :: 0 <= k < |pledges| ==> !GetCompleted(progress, pledges[k])) ==>
              CountCompleted(progress, pledges) == 0
    ensures (forall k :: 0 <= k < |pledges| ==> GetCompleted(progress, pledges[k])) ==>
              CountCompleted(progress, pledges) == |pledges|
    decreases |pledges|
  {
    if pledges != [] {
      CountEndpoints(progress, pledges[..|pledges| - 1]);
    }
  }

  /**
   * `Math.round((completed / total) * 100)`, or 0 without pledges: the percentage, rounded
   * to the nearest integer with halves rounded up.
   */
  function Rate(completed: nat, total: nat): (r: nat)
    requires completed <= total
    ensures total == 0 ==> r == 0
  {
    if total > 0 then (200 * completed + total) / (2 * total) else 0
  }

  /** `k * a <= k * b` for `a <= b`. */
  lemma {:induction false} MulMonotone(k: nat, a: nat, b: nat)
    requires a <= b
    ensures k * a <= k * b
    decreases k
  {
    if k > 0 {
      MulMonotone(k - 1, a, b);
      assert k * a == (k - 1) * a + a && k * b == (k - 1) * b + b;
    }
  }

  /**
   * The rate is the nearest whole percentage: within half a percent of the exact ratio, never
   * above 100, 0 when nothing is completed and 100 when everything is.
   */
  lemma RateBounds(completed: nat, total: nat)
    requires completed <= total
    ensures Rate(completed, total) <= 100
    ensures completed == 0 ==> Rate(completed, total) == 0
    ensures total > 0 && completed == total ==> Rate(completed, total) == 100
    ensures total > 0 ==> 2 * total * Rate(completed, total) <= 200 * completed + total
                          < 2 * total * (Rate(completed, total) + 1)
  {
    if total > 0 {
      var n := 200 * completed + total;
      var d := 2 * total;
      var r := n / d;
      assert r == Rate(completed, total);
      assert d * r <= n < d * (r + 1) by {
        assert n == d * r + n % d && 0 <= n % d < d;
        assert d * (r + 1) == d * r + d;
      }
      if r > 100 {
        MulMonotone(d, 101, r);
        assert false;
      }
      if completed == 0 {
        assert n < d;
        if r > 0 {
          MulMonotone(d, 1, r);
        }
      }
      if completed == total {
        assert n == d * 100 + total;
        if r < 100 {
          MulMonotone(d, r + 1, 100);
        }
      }
      assert 2 * total * r == d * r && 2 * total * (r + 1) == d * (r + 1);
    }
  }

  /** A completed pledge counts once more than the same list without it. */
  lemma {:induction false} CountAfterChange(progress: map<string, bool>, pledges: seq<string>, id: string, done: bool)
    requires forall k :: 0 <= k < |pledges| ==> pledges[k] != id
    ensures CountCompleted(progress[id := done], pledges) == CountCompleted(progress, pledges)
    decreases |pledges|
  {
    if pledges != [] {
      CountAfterChange(progress, pledges[..|pledges| - 1], id, done);
    }
  }

  /** What a toggle asks the server for: `updateProgress(id, completed)`. */
  datatype ProgressUpdate = ProgressUpdate(id: string, completed: bool)

  /** The server's answer: `res.progress`, `None` when the body has none. */
  datatype ProgressResponse = ProgressResponse(progress: Option<map<string, bool>>)

  /** `error.response?.status` for a rejection that carries a response. */
  function StatusOf(e: ApiClient.RequestError): Option<int> {
    if e.AxiosError? && e.response.Some? then Some(e.response.value.status) else None
  }

  /**
   * If the server applies the requested update, the toggled pledge flips and every other
   * pledge keeps its completion.
   */
  lemma ToggleFlipsOnlyThatPledge(progress: map<string, bool>, id: string, other: string)
    requires other != id
    ensures GetCompleted(progress[id := !GetCompleted(progress, id)], id) == !GetCompleted(progress, id)
    ensures GetCompleted(progress[id := !GetCompleted(progress, id)], other) == GetCompleted(progress, other)
  {
  }

  class PledgeProgressPage {
    var progress: map<string, bool>
    var loading: bool
    var error: Option<string>
    /** The pledge whose toggle is in flight. */
    var updatingId: Option<string>

    constructor ()
      ensures progress == map[] && loading && error.None? && updatingId.None?
    {
      progress := map[];
      loading := true;
      error := None;
      updatingId := None;
    }

    /**
     * `fetchProgress()` once `getProgress()` settles: the server's map (or `{}`) is shown; a
     * 404 shows an empty map without an error; any other failure sets the error message and
     * keeps the map. Loading ends either way.
     */
    method FetchProgress(result: Result<ProgressResponse, ApiClient.RequestError>)
      modifies this
      ensures !loading && updatingId == old(updatingId)
      ensures result.Success? ==> progress == result.value.progress.GetOr(map[]) && error.None?
      ensures result.Failure? && StatusOf(result.error) == Some(NOT_FOUND) ==>
                progress == map[] && error.None?
      ensures result.Failure? && StatusOf(result.error) != Some(NOT_FOUND) ==>
                progress == old(progress) && error == Some(ApiClient.GetErrorMessage(result.error))
    {
      loading := true;
      error := None;
      match result {
        case Success(res) =>
          progress := if res.progress.Some? then res.progress.value else map[];
        case Failure(e) =>
          var status := StatusOf(e);
          if status == Some(NOT_FOUND) {
            progress := map[];
          } else {
            error := Some(ApiClient.GetErrorMessage(e));
          }
      }
      loading := false;
    }

    /**
     * `handleToggle(id)`: asks for the opposite of the pledge's current completion. On
     * success the whole map is replaced by the server's (or `{}`); on failure the map is kept
     * and the error is set. `updatingId` is cleared either way.
     */
    method HandleToggle(id: string, result: Result<ProgressResponse, ApiClient.RequestError>)
      returns (request: ProgressUpdate)
      modifies this
      ensures request == ProgressUpdate(id, !GetCompleted(old(progress), id))
      ensures result.Success? ==> progress == result.value.progress.GetOr(map[]) && error.None?
      ensures result.Failure? ==>
                progress == old(progress) && error == Some(ApiClient.GetErrorMessage(result.error))
      ensures updatingId.None? && loading == old(loading)
    {
      var next := !GetCompleted(progress, id);
      updatingId := Some(id);
      error := None;
      request := ProgressUpdate(id, next);
      match result {
        case Success(res) =>
          progress := if res.progress.Some? then res.progress.value else map[];
        case Failure(e) =>
          error := Some(ApiClient.GetErrorMessage(e));
      }
      updatingId := None;
    }
  }

  /**
   * Toggling a pledge that appears once, when the server applies the update, moves the
   * overall completed count by one in the requested direction.
   */
  lemma ToggleMovesCount(progress: map<string, bool>, before: seq<string>, id: string, after: seq<string>)
    requires forall k :: 0 <= k < |before| ==> before[k] != id
    requires forall k :: 0 <= k < |after| ==> after[k] != id
    ensures var next := !GetCompleted(progress, id);
      var pledges := before + [id] + after;
      CountCompleted(progress[id := next], pledges) ==
        CountCompleted(progress, pledges) + (if next then 1 else 0) - (if next then 0 else 1)
  {
    var next := !GetCompleted(progress, id);
    CountSplit(progress, before + [id], after);
    CountSplit(progress[id := next], before + [id], after);
    CountAfterChange(progress, before, id, next);
    CountAfterChange(progress, after, id, next);
    assert (before + [id])[..|before|] == before;
  }

  /** Counting over two lists adds up. */
  lemma {:induction false} CountSplit(progress: map<string, bool>, a: seq<string>, b: seq<string>)
    ensures CountCompleted(progress, a + b) == CountCompleted(progress, a) + CountCompleted(progress, b)
    decreases |b|
  {
    if b != [] {
      CountSplit(progress, a, b[..|b| - 1]);
      assert (a + b)[..|a + b| - 1] == a + b[..|b| - 1];
    } else {
      assert a + b == a;
    }
  }
}
