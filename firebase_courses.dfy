/**
 * The Firestore course hook: every fetched document becomes a course
 * record carrying the document id, and a course is kept when each filter
 * field is strictly equal to the course's field. The fetch is a parameter.
 */
module FirebaseCourses {
  import Seqs

  /** A field value. Objects and arrays are compared by identity, as `===` does. */
  datatype Value = Str(s: string) | Num(n: real) | Bool(b: bool) | Null | Undefined | Ref(identity: nat)

  /** A course record: field names to values. */
  type Record = map<string, Value>

  datatype Doc = Doc(id: string, data: Record)

  /** How `getDocs` ended: the documents in query order, or a thrown error. */
  datatype FetchResult = Fetched(docs: seq<Doc>) | FetchFailed

  /** `c[key]`: a missing field reads as `undefined`. */
  function Field(c: Record, key: string): Value {
    if key in c then c[key] else Undefined
  }

  /** `{ ...doc.data(), id: doc.id }`: the document id replaces any stored `id` field. */
  function MergeId(doc: Doc): (c: Record)
    ensures Field(c, "id") == Str(doc.id)
    ensures forall key :: key != "id" ==> Field(c, key) == Field(doc.data, key)
  {
    doc.data["id" := Str(doc.id)]
  }

  /** `Object.entries(filters).every(([key, value]) => c[key] === value)`. */
  predicate MatchesFilters(filters: Record, c: Record) {
    forall key :: key in filters ==> Field(c, key) == filters[key]
  }

  /** The list the hook stores after a successful fetch. */
  function FilteredCourses(docs: seq<Doc>, filters: Record): (r: seq<Record>)
    ensures |r| <= |docs|
    ensures forall k :: 0 <= k < |r| ==> MatchesFilters(filters, r[k])
  {
    Seqs.Filter(Seqs.Map(docs, MergeId), c => MatchesFilters(filters, c))
  }

  /** An empty filter object keeps every fetched course, in fetch order. */
  lemma {:induction false} EmptyFiltersKeepAll(docs: seq<Doc>)
    ensures FilteredCourses(docs, map[]) == Seqs.Map(docs, MergeId)
  {
    Seqs.FilterAll(Seqs.Map(docs, MergeId), c => MatchesFilters(map[], c));
  }

  /**
   * The kept courses keep fetch order; a fetched course is kept exactly
   * when every filter field equals the course's field; filtering on `id`
   * compares against the document id. (How often a kept course appears is
   * `FilteredCoursesCount`.)
   */
  lemma {:induction false} FilteredCoursesSpec(docs: seq<Doc>, filters: Record)
    ensures Seqs.IsSubsequence(FilteredCourses(docs, filters), Seqs.Map(docs, MergeId))
    ensures forall k :: 0 <= k < |docs| ==>
      (MergeId(docs[k]) in FilteredCourses(docs, filters) <==> MatchesFilters(filters, MergeId(docs[k])))
    ensures forall k :: 0 <= k < |docs| && "id" in filters && filters["id"] != Str(docs[k].id) ==>
      MergeId(docs[k]) !in FilteredCourses(docs, filters)
  {
    var all := Seqs.Map(docs, MergeId);
    Seqs.FilterIsSubsequence(all, c => MatchesFilters(filters, c));
    assert forall k :: 0 <= k < |docs| ==> all[k] == MergeId(docs[k]);
  }

  /** A kept course appears as often as among the fetched ones. */
  lemma {:induction false} FilteredCoursesCount(docs: seq<Doc>, filters: Record)
    ensures forall c :: MatchesFilters(filters, c) ==>
      multiset(FilteredCourses(docs, filters))[c] == multiset(Seqs.Map(docs, MergeId))[c]
  {
    Seqs.FilterCount(Seqs.Map(docs, MergeId), c => MatchesFilters(filters, c));
  }

  /** The state of the hook: the course list and the loading flag. */
  class CoursesHook {
    var courses: seq<Record>
    var loading: bool

    constructor()
      ensures courses == [] && loading
    {
      courses := [];
      loading := true;
    }

    /**
     * `fetchCourses()`: on success the filtered courses, on failure the
     * empty list; loading is over after either outcome.
     */
    method FetchCourses(filters: Record, result: FetchResult)
      modifies this
      ensures result.Fetched? ==> courses == FilteredCourses(result.docs, filters)
      ensures result.FetchFailed? ==> courses == []
      ensures !loading
    {
      loading := true;
      match result {
        case Fetched(docs) =>
          var coursesData := Seqs.Map(docs, MergeId);
          coursesData := Seqs.Filter(coursesData, c => MatchesFilters(filters, c));
          courses := coursesData;
        case FetchFailed =>
          courses := [];
      }
      loading := false;
    }
  }
}
