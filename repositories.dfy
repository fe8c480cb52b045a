/**
 * The repositories page: the case-insensitive search over the loaded
 * repositories, the repository statistics, and the state updates of
 * `fetchRepositories`.
 *
 * The search and the statistics are expressions the page recomputes on every
 * render, so they are functions; the loaded list and the loading flag are
 * state the page updates, so they are fields of a class.
 */
module Repositories {

  import opened Wrappers
  import opened Text

  /** A row of the `repositories` table, with the fields the page computes with. */
  datatype Repository = Repository(id: string, name: string, fullName: string, scanStatus: string)

  /** The search test: the lower-cased name or full name contains the lower-cased query. */
  predicate Matches(repo: Repository, query: string)
  {
    Includes(LowerStr(repo.name), LowerStr(query)) || Includes(LowerStr(repo.fullName), LowerStr(query))
  }

  /** `s` is `t` with some elements left out, the rest in their order. */
  predicate Subsequence<T(==)>(s: seq<T>, t: seq<T>)
    decreases |t|
  {
    if s == [] then true
    else if t == [] then false
    else if s[0] == t[0] then Subsequence(s[1..], t[1..])
    else Subsequence(s, t[1..])
  }

  /** `filteredRepositories`: the rows the search keeps, in the loaded order. */
  function Filter(rows: seq<Repository>, query: string): (r: seq<Repository>)
    ensures |r| <= |rows|
    ensures forall x :: x in r <==> x in rows && Matches(x, query)
  {
    if rows == [] then []
    else
      var rest := Filter(rows[1..], query);
      assert forall x :: x in rows <==> x == rows[0] || x in rows[1..];
      if Matches(rows[0], query) then [rows[0]] + rest else rest
  }

  /** The filtered list keeps the loaded order: it is a subsequence of the loaded list. */
  lemma {:induction false} FilterIsSubsequence(rows: seq<Repository>, query: string)
    ensures Subsequence(Filter(rows, query), rows)
  {
    if rows != [] {
      FilterIsSubsequence(rows[1..], query);
      var rest := Filter(rows[1..], query);
      if Matches(rows[0], query) {
        assert ([rows[0]] + rest)[1..] == rest;
      } else {
        SubsequenceOfTail(rest, rows);
      }
    }
  }

  lemma {:induction false} SubsequenceOfTail<T>(s: seq<T>, t: seq<T>)
    requires t != []
    requires Subsequence(s, t[1..])
    ensures Subsequence(s, t)
    decreases |s| + |t|
  {
    if s != [] && s[0] == t[0] {
      SubsequenceDropHead(s, t[1..]);
    }
  }

  /** Dropping the first element of a subsequence leaves a subsequence. */
  lemma {:induction false} SubsequenceDropHead<T>(s: seq<T>, t: seq<T>)
    requires s != []
    requires Subsequence(s, t)
    ensures Subsequence(s[1..], t)
    decreases |s| + |t|
  {
    assert t != [];
    if s[0] == t[0] {
      SubsequenceOfTail(s[1..], t);
    } else {
      SubsequenceDropHead(s, t[1..]);
      SubsequenceOfTail(s[1..], t);
    }
  }

  /** Every string contains the empty string, at its start. */
  lemma IncludesEmpty(s: string)
    ensures Includes(s, "")
  {
    assert OccursAt(s, "", 0);
  }

  /** An empty query keeps every row. */
  lemma {:induction false} EmptyQueryKeepsAll(rows: seq<Repository>)
    ensures Filter(rows, "") == rows
  {
    if rows != [] {
      IncludesEmpty(LowerStr(rows[0].name));
      assert LowerStr("") == "";
      EmptyQueryKeepsAll(rows[1..]);
    }
  }

  /** The search ignores case: queries that differ only in letter case keep the same rows. */
  lemma {:induction false} FilterIgnoresCase(rows: seq<Repository>, q1: string, q2: string)
    requires LowerStr(q1) == LowerStr(q2)
    ensures Filter(rows, q1) == Filter(rows, q2)
  {
    if rows != [] {
      FilterIgnoresCase(rows[1..], q1, q2);
    }
  }

  /** The number of rows with the given scan status: `repositories.filter(r => r.scan_status === status).length`. */
  function Count(rows: seq<Repository>, status: string): (n: nat)
    ensures n <= |rows|
  {
    if rows == [] then 0
    else (if rows[0].scanStatus == status then 1 else 0) + Count(rows[1..], status)
  }

  /** Counting splits over a concatenation. */
  lemma {:induction false} CountAppend(a: seq<Repository>, b: seq<Repository>, status: string)
    ensures Count(a + b, status) == Count(a, status) + Count(b, status)
  {
    if a != [] {
      assert (a + b)[0] == a[0] && (a + b)[1..] == a[1..] + b;
      CountAppend(a[1..], b, status);
    } else {
      assert a + b == b;
    }
  }

  /** Two different statuses never count the same row: together they are at most the total. */
  lemma {:induction false} CountsDisjoint(rows: seq<Repository>, s1: string, s2: string)
    requires s1 != s2
    ensures Count(rows, s1) + Count(rows, s2) <= |rows|
  {
    if rows != [] {
      CountsDisjoint(rows[1..], s1, s2);
    }
  }

  /** A status counts every row exactly when every row has it. */
  lemma {:induction false} CountAll(rows: seq<Repository>, status: string)
    ensures Count(rows, status) == |rows| <==> forall i :: 0 <= i < |rows| ==> rows[i].scanStatus == status
  {
    if rows != [] {
      CountAll(rows[1..], status);
      assert forall i :: 1 <= i < |rows| ==> rows[i] == rows[1..][i - 1];
    }
  }

  /** The three figures of the statistics card. */
  datatype Stats = Stats(total: nat, scanned: nat, pending: nat)

  /** Total, Scanned (`completed`) and Pending (`pending`): neither exceeds the total, nor does their sum. */
  function StatsOf(rows: seq<Repository>): (r: Stats)
    ensures r.total == |rows|
    ensures r.scanned <= r.total && r.pending <= r.total
    ensures r.scanned + r.pending <= r.total
  {
    CountsDisjoint(rows, "completed", "pending");
    Stats(|rows|, Count(rows, "completed"), Count(rows, "pending"))
  }

  /** What the repositories query answered: an error, or its data, which may be null. */
  datatype QueryResult = QueryFailed(message: string) | Loaded(data: Option<seq<Repository>>)

  /** The toast shown when loading fails. */
  datatype Toast = Toast(title: string, description: string, destructive: bool)

  const FetchFailed := Toast("Error fetching repositories", "Failed to load your repositories. Please try again.", true)

  /** The page's state: the loaded rows, the loading flag, the search box and the toasts shown. */
  datatype Page = Page(repositories: seq<Repository>, isLoading: bool, searchQuery: string, toasts: seq<Toast>)

  /** `fetchRepositories` with the query's answer: data (or none) replaces the rows; a failure only adds a toast; loading ends either way. */
  function AfterFetch(p: Page, answer: QueryResult): Page
  {
    match answer
    case QueryFailed(_) => p.(isLoading := false, toasts := p.toasts + [FetchFailed])
    case Loaded(None) => p.(repositories := [], isLoading := false)
    case Loaded(Some(rows)) => p.(repositories := rows, isLoading := false)
  }

  /** Loading always ends; a failure keeps the rows and shows one toast; a success shows the answer and no toast. */
  lemma FetchOutcome(p: Page, answer: QueryResult)
    ensures !AfterFetch(p, answer).isLoading
    ensures AfterFetch(p, answer).searchQuery == p.searchQuery
    ensures answer.QueryFailed? <==> |AfterFetch(p, answer).toasts| == |p.toasts| + 1
    ensures answer.QueryFailed? ==> AfterFetch(p, answer).repositories == p.repositories
    ensures answer.Loaded? ==> AfterFetch(p, answer).toasts == p.toasts
    ensures answer.Loaded? ==>
      AfterFetch(p, answer).repositories == (if answer.data.Some? then answer.data.value else [])
  {
  }

  /** A failed reload keeps what the search shows and what the statistics count. */
  lemma FailedFetchKeepsView(p: Page, message: string)
    ensures Filter(AfterFetch(p, QueryFailed(message)).repositories, p.searchQuery) == Filter(p.repositories, p.searchQuery)
    ensures StatsOf(AfterFetch(p, QueryFailed(message)).repositories) == StatsOf(p.repositories)
  {
  }

  /** The page component's state, as its `useState` hooks hold it. */
  class RepositoriesPage {
    var repositories: seq<Repository>
    var isLoading: bool
    var searchQuery: string
    var toasts: seq<Toast>

    function State(): Page
      reads this
    {
      Page(repositories, isLoading, searchQuery, toasts)
    }

    /** No rows, loading, and an empty search box. */
    constructor ()
      ensures State() == Page([], true, "", [])
    {
      repositories := [];
      isLoading := true;
      searchQuery := "";
      toasts := [];
    }

    /** The search box's change handler. */
    method SetSearchQuery(query: string)
      modifies this
      ensures State() == old(State()).(searchQuery := query)
    {
      searchQuery := query;
    }

    /** `fetchRepositories`, given what the query answered. */
    method FetchRepositories(answer: QueryResult)
      modifies this
      ensures State() == AfterFetch(old(State()), answer)
    {
      match answer {
        case QueryFailed(_) =>
          toasts := toasts + [FetchFailed];
        case Loaded(data) =>
          repositories := if data.Some? then data.value else [];
      }
      isLoading := false;
    }
  }
}
