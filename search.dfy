/** The header's live search: once the query has two characters, the first
    three students and the first three buses that mention it, case-insensitively. */
module Search {
  import opened Text
  import opened Seqs
  import opened Types

  const MinQueryLength := 2
  const ResultCap := 3

  datatype Results = Results(students: seq<Student>, routes: seq<BusRoute>)

  /** A student mentions the (lower-cased) query in its name, id or school. */
  predicate StudentMatches(s: Student, q: string) {
    Contains(Lower(s.name), q) || Contains(Lower(s.id), q) || Contains(Lower(s.school), q)
  }

  /** A bus mentions the (lower-cased) query in its route name, bus number or driver. */
  predicate RouteMatches(r: BusRoute, q: string) {
    Contains(Lower(r.name), q) || Contains(Lower(r.busNumber), q) || Contains(Lower(r.driver), q)
  }

  /** The filter callbacks for a lower-cased query. */
  function StudentQuery(q: string): Student -> bool {
    (s: Student) => StudentMatches(s, q)
  }

  function RouteQuery(q: string): BusRoute -> bool {
    (b: BusRoute) => RouteMatches(b, q)
  }

  /** The search effect's result for one query. */
  function SearchResults(query: string, students: seq<Student>, routes: seq<BusRoute>): (r: Results)
    ensures |query| < MinQueryLength ==> r == Results([], [])
    ensures |r.students| <= ResultCap && |r.routes| <= ResultCap
    // Results keep input order and only hold matches ...
    ensures IsSubsequence(r.students, students) && IsSubsequence(r.routes, routes)
    ensures forall s :: s in r.students ==> StudentMatches(s, Lower(query))
    ensures forall b :: b in r.routes ==> RouteMatches(b, Lower(query))
    // ... and a list that is not full holds every match.
    ensures |query| >= MinQueryLength && |r.students| < ResultCap ==>
              forall s :: s in students && StudentMatches(s, Lower(query)) ==> s in r.students
    ensures |query| >= MinQueryLength && |r.routes| < ResultCap ==>
              forall b :: b in routes && RouteMatches(b, Lower(query)) ==> b in r.routes
    // The results are the FIRST matches: those among any prefix of the input,
    // while there are at most three, begin the list.
    ensures |query| >= MinQueryLength ==>
              forall k :: 0 <= k <= |students| && |Filter(students[..k], StudentQuery(Lower(query)))| <= ResultCap ==>
                Filter(students[..k], StudentQuery(Lower(query))) <= r.students
    ensures |query| >= MinQueryLength ==>
              forall k :: 0 <= k <= |routes| && |Filter(routes[..k], RouteQuery(Lower(query)))| <= ResultCap ==>
                Filter(routes[..k], RouteQuery(Lower(query))) <= r.routes
  {
    if |query| < MinQueryLength then Results([], [])
    else
      var q := Lower(query);
      var sp := StudentQuery(q);
      var rp := RouteQuery(q);
      TakeFilter(students, sp, ResultCap);
      TakeFilter(routes, rp, ResultCap);
      Results(Take(Filter(students, sp), ResultCap), Take(Filter(routes, rp), ResultCap))
  }

  /** The query's letter case does not matter. */
  lemma CaseInsensitive(query: string, students: seq<Student>, routes: seq<BusRoute>)
    ensures SearchResults(Lower(query), students, routes) == SearchResults(query, students, routes)
  {
    LowerIdempotent(query);
  }

  /** Typing more only narrows: whatever matches the longer query matches the shorter one. */
  lemma NarrowingQuery(query: string, more: string, s: Student, b: BusRoute)
    ensures StudentMatches(s, Lower(query + more)) ==> StudentMatches(s, Lower(query))
    ensures RouteMatches(b, Lower(query + more)) ==> RouteMatches(b, Lower(query))
  {
    LowerAppend(query, more);
    var q, m := Lower(query), Lower(more);
    forall h | Contains(h, q + m) ensures Contains(h, q) {
      ContainsNeedlePrefix(h, q, m);
    }
  }
}
