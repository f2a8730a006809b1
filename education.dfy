/**
 * The continuing-education list: courses pass when the selected chip is
 * "전체" or names their type or format, and when the query is empty or
 * occurs in their title, ignoring case.
 */
module Education {

  import opened JsStrings
  import opened Seqs

  /** A course row; `kind` is the `type` column ("정규과정" or "보수교육"), `format` "온라인" or "오프라인". */
  datatype Course = Course(id: string, title: string, kind: string, format: string)

  const AllFilter := "전체"

  /** The chips offered. */
  const Filters := ["전체", "정규과정", "보수교육", "온라인", "오프라인"]

  predicate MatchesFilter(c: Course, filter: string) {
    filter == AllFilter || c.kind == filter || c.format == filter
  }

  predicate MatchesQuery(c: Course, query: string) {
    query == "" || ContainsIgnoreCase(c.title, query)
  }

  /** `filteredCourses`. */
  function FilteredCourses(courses: seq<Course>, filter: string, query: string): (r: seq<Course>)
    ensures IsSubsequence(r, courses)
    ensures forall c :: c in r <==> c in courses && MatchesFilter(c, filter) && MatchesQuery(c, query)
    ensures forall c ::
      multiset(r)[c] == if MatchesFilter(c, filter) && MatchesQuery(c, query) then multiset(courses)[c] else 0
  {
    Filter(courses, c => MatchesFilter(c, filter) && MatchesQuery(c, query))
  }

  /** The initial state, chip "전체" and no query, lists every course in order. */
  lemma AllWithEmptyQueryListsAll(courses: seq<Course>)
    ensures FilteredCourses(courses, AllFilter, "") == courses
  {
    FilterKeepsAll(courses, c => MatchesFilter(c, AllFilter) && MatchesQuery(c, ""));
  }

  /** The "온라인" chip leaves out every course whose type and format are both something else. */
  lemma OnlineChipExcludes(courses: seq<Course>, query: string)
    ensures forall c :: c in FilteredCourses(courses, "온라인", query) ==> c.kind == "온라인" || c.format == "온라인"
  {
  }

  /** Choosing a chip never adds courses: each chip's list is part of the "전체" list. */
  lemma ChipNarrows(courses: seq<Course>, filter: string, query: string)
    ensures forall c :: c in FilteredCourses(courses, filter, query) ==> c in FilteredCourses(courses, AllFilter, query)
  {
  }

  /** The `query === ""` test adds nothing: an empty query is contained in every title. */
  lemma EmptyQueryTestRedundant(c: Course, query: string)
    ensures MatchesQuery(c, query) == ContainsIgnoreCase(c.title, query)
  {
    if query == "" {
      EmptyQueryMatches(c.title);
    }
  }

  /** Queries that agree once lower-cased list the same courses. */
  lemma QueryIgnoresCase(courses: seq<Course>, filter: string, q1: string, q2: string)
    requires Lower(q1) == Lower(q2)
    ensures FilteredCourses(courses, filter, q1) == FilteredCourses(courses, filter, q2)
  {
    forall c | c in courses
      ensures MatchesQuery(c, q1) == MatchesQuery(c, q2)
    {
      EmptyQueryTestRedundant(c, q1);
      EmptyQueryTestRedundant(c, q2);
    }
    FilterAgree(courses, c => MatchesFilter(c, filter) && MatchesQuery(c, q1),
                         c => MatchesFilter(c, filter) && MatchesQuery(c, q2));
  }
}
