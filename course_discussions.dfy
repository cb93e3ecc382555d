/** The discussions tab of a course (components/courses/course-discussions.tsx):
    the fetched threads with their reply counts, and the search over them. */
module CourseDiscussions {
  import opened Common
  import opened Backend

  /** A row of the discussions table. `createdAt` is the creation time as a
      number, so the query's ordering is a comparison. */
  datatype DiscussionRow = DiscussionRow(id: string, title: string, content: string, isPinned: bool, createdAt: int)

  /** A row with its `reply_count`. */
  datatype Discussion = Discussion(row: DiscussionRow, replyCount: nat)

  /** The `{ data, error }` answer of the discussions query. */
  datatype FetchAnswer = FetchAnswer(data: Option<seq<DiscussionRow>>, error: Option<BackendError>)

  /** The query's order: pinned first, then newest first. */
  predicate FetchOrder(a: Discussion, b: Discussion) {
    (a.row.isPinned && !b.row.isPinned)
    || (a.row.isPinned == b.row.isPinned && a.row.createdAt >= b.row.createdAt)
  }

  /** `count || 0`: the exact count of replies, 0 when the count is null. */
  function ReplyCount(counts: map<string, nat>, id: string): (n: nat)
    ensures id in counts ==> n == counts[id]
    ensures id !in counts ==> n == 0
  {
    if id in counts then counts[id] else 0
  }

  /** Each fetched row with its reply count, in fetched order. */
  function WithReplyCounts(rows: seq<DiscussionRow>, counts: map<string, nat>): (r: seq<Discussion>)
    ensures |r| == |rows|
    ensures forall i :: 0 <= i < |r| ==> r[i].row == rows[i] && r[i].replyCount == ReplyCount(counts, rows[i].id)
  {
    if rows == [] then []
    else WithReplyCounts(rows[..|rows| - 1], counts) + [Discussion(rows[|rows| - 1], ReplyCount(counts, rows[|rows| - 1].id))]
  }

  /** The list the fetch effect stores: empty when the query errs or a call
      throws, otherwise `data || []` with reply counts. */
  function LoadedDiscussions(answer: Call<FetchAnswer>, counts: map<string, nat>): (r: seq<Discussion>)
    ensures answer.Threw? || answer.value.error.Some? || answer.value.data.None? ==> r == []
    ensures answer.Returned? && answer.value.error.None? && answer.value.data.Some? ==>
      |r| == |answer.value.data.value|
      && forall i :: 0 <= i < |r| ==>
           r[i].row == answer.value.data.value[i]
           && r[i].replyCount == ReplyCount(counts, answer.value.data.value[i].id)
  {
    match answer
    case Threw(_) => []
    case Returned(FetchAnswer(data, error)) =>
      if error.Some? then []
      else WithReplyCounts(if data.Some? then data.value else [], counts)
  }

  /** Case-insensitive search over title and content. */
  predicate MatchesSearch(d: Discussion, searchTerm: string) {
    Includes(ToLower(d.row.title), ToLower(searchTerm)) || Includes(ToLower(d.row.content), ToLower(searchTerm))
  }

  function Matches(searchTerm: string): Discussion -> bool {
    (d: Discussion) => MatchesSearch(d, searchTerm)
  }

  /** `filteredDiscussions`: exactly the threads matching the search, in
      their fetched order. */
  function FilteredDiscussions(discussions: seq<Discussion>, searchTerm: string): (r: seq<Discussion>)
    ensures forall k :: 0 <= k < |r| ==> MatchesSearch(r[k], searchTerm)
    ensures forall k :: 0 <= k < |discussions| && MatchesSearch(discussions[k], searchTerm) ==> discussions[k] in r
    ensures IsSubsequence(r, discussions)
  {
    FilterIsSubsequence(discussions, Matches(searchTerm));
    Filter(discussions, Matches(searchTerm))
  }

  /** An empty search keeps every thread. */
  lemma EmptySearchKeepsAll(discussions: seq<Discussion>)
    ensures FilteredDiscussions(discussions, "") == discussions
  {
    forall k | 0 <= k < |discussions| ensures Matches("")(discussions[k]) {
      IncludesEmpty(ToLower(discussions[k].row.title));
    }
    FilterAll(discussions, Matches(""));
  }

  /** Adding reply counts keeps the query's order, and so does the search:
      pinned threads stay first and newer threads stay ahead of older ones. */
  lemma FetchOrderSurvives(rows: seq<DiscussionRow>, counts: map<string, nat>, searchTerm: string)
    requires forall i, j :: 0 <= i < j < |rows| ==>
      (rows[i].isPinned && !rows[j].isPinned)
      || (rows[i].isPinned == rows[j].isPinned && rows[i].createdAt >= rows[j].createdAt)
    ensures Ordered(FilteredDiscussions(WithReplyCounts(rows, counts), searchTerm), FetchOrder)
  {
    var withCounts := WithReplyCounts(rows, counts);
    assert Ordered(withCounts, FetchOrder);
    FilterKeepsOrder(withCounts, Matches(searchTerm), FetchOrder);
  }
}
