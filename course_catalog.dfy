/**
 * The course catalog hook: filtering the built-in catalog by category,
 * level, price bounds and a search term, and looking a course up by id.
 */
module CourseCatalog {
  import opened Wrappers
  import Seqs
  import opened Text

  datatype Level = Beginner | Intermediate | Advanced

  /** The fields of a catalog course the filters read (the others are not part of this model). */
  datatype Course = Course(id: string, title: string, instructor: string, description: string,
                           price: real, level: Level, category: string)

  /** The optional filters; an absent field is `undefined`. */
  datatype Filters = Filters(category: Option<string>, level: Option<Level>,
                             minPrice: Option<real>, maxPrice: Option<real>, search: Option<string>)

  const NoFilters := Filters(None, None, None, None, None)

  /** A JavaScript truthiness test for an optional string: present and non-empty. */
  predicate Truthy(s: Option<string>) { s.Some? && s.value != "" }

  /** The filter callback of `useCourses`, as its chain of early returns. */
  predicate KeepCourse(filters: Filters, course: Course) {
    if Truthy(filters.category) && course.category != filters.category.value then false
    else if filters.level.Some? && course.level != filters.level.value then false
    else if filters.minPrice.Some? && course.price < filters.minPrice.value then false
    else if filters.maxPrice.Some? && course.price > filters.maxPrice.value then false
    else if Truthy(filters.search) then
      var searchTerm := ToLower(filters.search.value);
      Contains(ToLower(course.title), searchTerm) ||
      Contains(ToLower(course.instructor), searchTerm) ||
      Contains(ToLower(course.description), searchTerm)
    else true
  }

  // The filters one at a time: each holds when its filter is absent (or empty) or the course meets it.

  predicate CategoryOk(filters: Filters, course: Course) {
    !Truthy(filters.category) || course.category == filters.category.value
  }

  predicate LevelOk(filters: Filters, course: Course) {
    filters.level.None? || course.level == filters.level.value
  }

  /** Price bounds are inclusive and apply whenever defined, a bound of 0 included. */
  predicate PriceOk(filters: Filters, course: Course) {
    (filters.minPrice.None? || filters.minPrice.value <= course.price) &&
    (filters.maxPrice.None? || course.price <= filters.maxPrice.value)
  }

  predicate SearchOk(filters: Filters, course: Course) {
    !Truthy(filters.search) ||
    exists field :: field in {course.title, course.instructor, course.description} &&
                    Contains(ToLower(field), ToLower(filters.search.value))
  }

  /** The early-return chain keeps a course exactly when it satisfies every filter. */
  lemma {:induction false} KeepIsConjunction(filters: Filters, course: Course)
    ensures KeepCourse(filters, course) <==>
      CategoryOk(filters, course) && LevelOk(filters, course) && PriceOk(filters, course) && SearchOk(filters, course)
  {
    if Truthy(filters.search) && Contains(ToLower(course.title), ToLower(filters.search.value)) {
      assert course.title in {course.title, course.instructor, course.description};
    }
  }

  /** The `courses` the hook returns. */
  function FilterCourses(catalog: seq<Course>, filters: Filters): (r: seq<Course>)
    ensures forall k :: 0 <= k < |r| ==> r[k] in catalog && KeepCourse(filters, r[k])
  {
    Seqs.Filter(catalog, c => KeepCourse(filters, c))
  }

  /**
   * The result keeps catalog order, a catalog course is in it exactly when
   * it passes the filters, and a kept course appears as often as in the
   * catalog.
   */
  lemma {:induction false} FilterCoursesSpec(catalog: seq<Course>, filters: Filters)
    ensures Seqs.IsSubsequence(FilterCourses(catalog, filters), catalog)
    ensures forall k :: 0 <= k < |catalog| ==>
      (catalog[k] in FilterCourses(catalog, filters) <==> KeepCourse(filters, catalog[k]))
    ensures forall c :: KeepCourse(filters, c) ==> multiset(FilterCourses(catalog, filters))[c] == multiset(catalog)[c]
  {
    Seqs.FilterIsSubsequence(catalog, c => KeepCourse(filters, c));
    Seqs.FilterCount(catalog, c => KeepCourse(filters, c));
  }

  /** With no filters (or only empty-string ones) the whole catalog comes back, in catalog order. */
  lemma {:induction false} NoFiltersKeepAll(catalog: seq<Course>, filters: Filters)
    requires !Truthy(filters.category) && filters.level.None? && filters.minPrice.None?
    requires filters.maxPrice.None? && !Truthy(filters.search)
    ensures FilterCourses(catalog, filters) == catalog
  {
    Seqs.FilterAll(catalog, c => KeepCourse(filters, c));
  }

  /** The position of the first course with that id, or the catalog length when there is none. */
  function FindIndex(catalog: seq<Course>, id: string): (i: nat)
    ensures i <= |catalog|
    ensures forall j :: 0 <= j < i ==> catalog[j].id != id
    ensures i < |catalog| ==> catalog[i].id == id
  {
    if catalog == [] || catalog[0].id == id then 0
    else 1 + FindIndex(catalog[1..], id)
  }

  /** `getCourseById(id)`: the first catalog course with that id, or `undefined`. */
  function GetCourseById(catalog: seq<Course>, id: string): (r: Option<Course>)
    ensures r.None? <==> forall i :: 0 <= i < |catalog| ==> catalog[i].id != id
    ensures r.Some? ==>
      exists i :: 0 <= i < |catalog| && catalog[i] == r.value && r.value.id == id &&
                  (forall j :: 0 <= j < i ==> catalog[j].id != id)
  {
    var i := FindIndex(catalog, id);
    if i < |catalog| then Some(catalog[i]) else None
  }
}
