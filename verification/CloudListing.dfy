/**
 * The bounded, cycle-free listing behind a reconciliation: the row checks of `decode_cloud_list`
 * (cloud.rs) and the page loop of `reconcile_unknown` (cloud_runner.rs).
 */
module CloudListing {
  import opened CloudTypes

  const MAX_TASKS := 20
  const MAX_PAGES := 5
  const MAX_RECONCILIATION_TASKS := 100

  type Cursor = string

  /** A list row after field validation; `Malformed` stands for any row a field check refuses. */
  datatype Row = Task(id: TaskId) | Malformed

  datatype Page = Page(tasks: seq<TaskId>, cursor: Option<Cursor>)

  /** One provider answer: a command that failed, or rows and a cursor. */
  datatype Answer = CommandFailed | Rows(rows: seq<Row>, cursor: Option<Cursor>)

  function Ids(rows: seq<Row>): (ids: seq<TaskId>)
    requires forall i :: 0 <= i < |rows| ==> rows[i].Task?
    ensures |ids| == |rows| && forall i :: 0 <= i < |rows| ==> ids[i] == rows[i].id
  {
    seq(|rows|, i requires 0 <= i < |rows| => rows[i].id)
  }

  predicate Decodable(rows: seq<Row>) {
    && |rows| <= MAX_TASKS
    && (forall i :: 0 <= i < |rows| ==> rows[i].Task?)
    && Distinct(Ids(rows))
  }

  /** A page decodes exactly when it is within the limit, every row is valid and no ID repeats. */
  method DecodeList(rows: seq<Row>, cursor: Option<Cursor>) returns (page: Option<Page>)
    ensures page.Some? <==> Decodable(rows)
    ensures page.Some? <==>
              && |rows| <= 20 && (forall i :: 0 <= i < |rows| ==> rows[i].Task?)
              && (forall i, j :: 0 <= i < j < |rows| ==> rows[i].id != rows[j].id)
    ensures page.Some? ==> page.value == Page(Ids(rows), cursor)
  {
    if |rows| > MAX_TASKS {
      return None;
    }
    var seen: set<TaskId> := {};
    var tasks: seq<TaskId> := [];
    for i := 0 to |rows|
      invariant forall k :: 0 <= k < i ==> rows[k].Task?
      invariant |tasks| == i && forall k :: 0 <= k < i ==> tasks[k] == rows[k].id
      invariant Distinct(tasks)
      invariant seen == set k | 0 <= k < i :: tasks[k]
    {
      if rows[i].Malformed? || rows[i].id in seen {
        return None;
      }
      seen := seen + {rows[i].id};
      tasks := tasks + [rows[i].id];
    }
    assert tasks == Ids(rows);
    page := Some(Page(tasks, cursor));
  }

  function PageAt(provider: nat -> Answer, n: nat): Page
    requires provider(n).Rows? && Decodable(provider(n).rows)
  {
    Page(Ids(provider(n).rows), provider(n).cursor)
  }

  predicate AnswersDecode(provider: nat -> Answer, calls: nat) {
    forall k: nat :: k < calls ==> provider(k).Rows? && Decodable(provider(k).rows)
  }

  /** The first `calls` pages one after another. */
  function Listed(provider: nat -> Answer, calls: nat): seq<TaskId>
    requires AnswersDecode(provider, calls)
  {
    if calls == 0 then [] else Listed(provider, calls - 1) + PageAt(provider, calls - 1).tasks
  }

  /** The cursors of the first `calls` answers. */
  function Cursors(provider: nat -> Answer, calls: nat): seq<Option<Cursor>> {
    if calls == 0 then []
    else Cursors(provider, calls - 1) + [if provider(calls - 1).Rows? then provider(calls - 1).cursor else None]
  }

  function Elements<T>(s: seq<T>): set<T> { set x | x in s }

  lemma ElementsSnoc<T>(s: seq<T>, x: T)
    ensures Elements(s + [x]) == Elements(s) + {x} && (x in Elements(s) <==> x in s)
    ensures Elements<T>([]) == {}
  {
  }

  /** The first `calls` answers make one listing: each decodes, and no task and no cursor repeats. */
  predicate Lists(provider: nat -> Answer, calls: nat) {
    AnswersDecode(provider, calls) && Distinct(Listed(provider, calls)) && Distinct(Cursors(provider, calls))
  }

  /**
   * When the listing stops: every page but the last names the next one, no call is made after the
   * deadline, and the last page ends the list, or the limit or the deadline cuts it off.
   */
  predicate StopsAt(provider: nat -> Answer, late: nat -> bool, calls: nat, complete: bool) {
    && calls <= MAX_PAGES
    && (forall k: nat :: k < calls ==> !late(k))
    && (forall k: nat :: k + 1 < calls ==> provider(k).Rows? && provider(k).cursor.Some?)
    && (complete <==> calls > 0 && provider(calls - 1).Rows? && provider(calls - 1).cursor.None?)
    && (!complete ==> calls == MAX_PAGES || late(calls))
  }

  /** Every answer so far came in time and named a next page. */
  predicate GoesOn(provider: nat -> Answer, late: nat -> bool, calls: nat) {
    forall k: nat :: k < calls ==> !late(k) && provider(k).Rows? && provider(k).cursor.Some?
  }

  lemma OneMoreCall(provider: nat -> Answer, late: nat -> bool, n: nat)
    requires GoesOn(provider, late, n) && !late(n) && provider(n).Rows? && n < MAX_PAGES
    ensures provider(n).cursor.Some? ==> GoesOn(provider, late, n + 1)
    ensures provider(n).cursor.None? ==> StopsAt(provider, late, n + 1, true)
  {
  }

  lemma CutOff(provider: nat -> Answer, late: nat -> bool, n: nat)
    requires GoesOn(provider, late, n) && n <= MAX_PAGES && (n == MAX_PAGES || late(n))
    ensures StopsAt(provider, late, n, false)
  {
  }

  /** The first answer that cannot be taken says why a listing is refused. */
  function Refusal(provider: nat -> Answer, calls: nat): Category {
    if calls == 0 || provider(calls - 1).CommandFailed? then Process
    else if !Decodable(provider(calls - 1).rows) then ProviderOutput
    else ReconciliationCycle
  }

  /** The inner loop: adds a page to the list unless one of its tasks was listed before. */
  method AddPage(listed: seq<TaskId>, seen: set<TaskId>, page: seq<TaskId>)
    returns (added: bool, tasks: seq<TaskId>, seen': set<TaskId>)
    requires Distinct(listed) && Distinct(page) && seen == Elements(listed)
    ensures added <==> Distinct(listed + page)
    ensures added ==> tasks == listed + page && seen' == Elements(tasks)
  {
    tasks, seen' := listed, seen;
    for i := 0 to |page|
      invariant tasks == listed + page[..i]
      invariant Distinct(tasks)
      invariant seen' == Elements(tasks)
    {
      if page[i] in seen' {
        RepeatedTask(listed, page, i);
        return false, tasks, seen';
      }
      seen' := seen' + {page[i]};
      tasks := tasks + [page[i]];
      assert listed + page[..i + 1] == listed + page[..i] + [page[i]];
    }
    assert page[..|page|] == page;
    added := true;
  }

  lemma DistinctSnoc<T>(s: seq<T>, x: T)
    ensures Distinct(s + [x]) <==> Distinct(s) && x !in s
  {
    if Distinct(s + [x]) {
      assert forall i :: 0 <= i < |s| ==> s[i] == (s + [x])[i] && (s + [x])[|s|] == x;
    }
  }

  /** What one more answer does to the pages read. */
  lemma OneMorePage(provider: nat -> Answer, n: nat)
    requires AnswersDecode(provider, n)
    ensures AnswersDecode(provider, n + 1) <==> provider(n).Rows? && Decodable(provider(n).rows)
    ensures AnswersDecode(provider, n + 1) ==> Listed(provider, n + 1) == Listed(provider, n) + Ids(provider(n).rows)
    ensures provider(n).Rows? ==> Cursors(provider, n + 1) == Cursors(provider, n) + [provider(n).cursor]
  {
    hide Decodable;
  }

  lemma RepeatedTask(before: seq<TaskId>, page: seq<TaskId>, i: nat)
    requires i < |page| && page[i] in before + page[..i]
    ensures !Distinct(before + page)
  {
    var all := before + page;
    var k :| 0 <= k < |before + page[..i]| && (before + page[..i])[k] == page[i];
    assert all[k] == page[i] && all[|before| + i] == page[i] && k < |before| + i;
  }

  lemma ListingStarts(provider: nat -> Answer, late: nat -> bool)
    ensures Lists(provider, 0) && Listed(provider, 0) == [] && Cursors(provider, 0) == [] && GoesOn(provider, late, 0)
    ensures Elements<TaskId>([]) == {} && Elements<Option<Cursor>>([]) == {}
  {
  }

  /**
   * The listing against any provider and any clock (`late(n)`: the deadline passed before call
   * `n`): at most five calls and 100 pairwise distinct tasks, equal to the pages read one after
   * another, complete exactly when the last page read had no cursor, and refused exactly when an
   * answer does not decode, a task appears twice, or a cursor does.
   */
  method ListCandidates(provider: nat -> Answer, late: nat -> bool)
    returns (listing: Result<(seq<TaskId>, bool), Category>, calls: nat)
    ensures calls <= MAX_PAGES
    ensures listing.Ok? <==> Lists(provider, calls)
    ensures listing.Ok? ==>
              && listing.value.0 == Listed(provider, calls) && Distinct(listing.value.0)
              && |listing.value.0| <= MAX_RECONCILIATION_TASKS
              && StopsAt(provider, late, calls, listing.value.1)
    ensures listing.Err? ==> calls > 0 && Lists(provider, calls - 1) && listing.error == Refusal(provider, calls)
  {
    hide Distinct, Ids, AnswersDecode, Listed, Cursors, Elements, GoesOn, StopsAt;
    ListingStarts(provider, late);
    var tasks: seq<TaskId> := [];
    var seenTasks: set<TaskId> := {};
    var seenCursors: set<Option<Cursor>> := {};
    calls := 0;
    while calls < MAX_PAGES
      invariant calls <= MAX_PAGES
      invariant AnswersDecode(provider, calls)
      invariant tasks == Listed(provider, calls) && Distinct(tasks)
      invariant seenTasks == Elements(tasks)
      invariant seenCursors == Elements(Cursors(provider, calls))
      invariant None !in seenCursors && |Cursors(provider, calls)| == calls
      invariant Distinct(Cursors(provider, calls))
      invariant GoesOn(provider, late, calls)
      invariant |tasks| <= calls * MAX_TASKS
    {
      if late(calls) {
        break;
      }
      var answer := provider(calls);
      OneMorePage(provider, calls);
      calls := calls + 1;
      if answer.CommandFailed? {
        return Err(Process), calls;
      }
      var page := DecodeList(answer.rows, answer.cursor);
      if page.None? {
        return Err(ProviderOutput), calls;
      }
      OneMoreCall(provider, late, calls - 1);
      DistinctSnoc(Cursors(provider, calls - 1), answer.cursor);
      ElementsSnoc(Cursors(provider, calls - 1), answer.cursor);
      var added: bool;
      added, tasks, seenTasks := AddPage(tasks, seenTasks, page.value.tasks);
      if !added {
        return Err(ReconciliationCycle), calls;
      }
      if answer.cursor.None? {
        return Ok((tasks, true)), calls;
      }
      if answer.cursor in seenCursors {
        return Err(ReconciliationCycle), calls;
      }
      seenCursors := seenCursors + {answer.cursor};
      if |tasks| >= MAX_RECONCILIATION_TASKS {
        break;
      }
    }
    CutOff(provider, late, calls);
    listing := Ok((tasks, false));
  }
}
