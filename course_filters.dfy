/**
 * The catalog's filter panel: its search, category, level and price-range
 * state, the handlers that update one of them and emit the filter object,
 * the price select's value and parse, and the clear button.
 *
 * Each handler emits its filters from the state as it was when the event
 * arrived: React state setters take effect only after the handler returns,
 * so `applyFilters` reads the values from before the change.
 */
module CourseFilters {
  import opened Wrappers
  import Seqs
  import opened Text
  import CourseCatalog

  type Level = CourseCatalog.Level
  type Filters = CourseCatalog.Filters

  /** The panel's filter state; a price bound is a whole number of dollars. */
  datatype PanelState = PanelState(search: string, category: Option<string>, level: Option<Level>,
                                   minPrice: Option<nat>, maxPrice: Option<nat>)

  const InitialState := PanelState("", None, None, None, None)

  /** The argument of `applyFilters`: only the fields a handler passes, `undefined` (`None`) elsewhere. */
  datatype FilterUpdate = FilterUpdate(category: Option<string>, level: Option<Level>,
                                       minPrice: Option<nat>, maxPrice: Option<nat>, search: Option<string>)

  /** What the user changed. */
  datatype Change = SearchChange(text: string) | CategoryChange(category: Option<string>)
                  | LevelChange(level: Option<Level>) | PriceChange(min: Option<nat>, max: Option<nat>)

  /** The update object each handler passes to `applyFilters`. */
  function UpdateOf(change: Change): FilterUpdate {
    match change
    case SearchChange(text) => FilterUpdate(None, None, None, None, Some(text))
    case CategoryChange(c) => FilterUpdate(c, None, None, None, None)
    case LevelChange(l) => FilterUpdate(None, l, None, None, None)
    case PriceChange(min, max) => FilterUpdate(None, None, min, max, None)
  }

  /** The state after a handler's setter. */
  function Apply(state: PanelState, change: Change): PanelState {
    match change
    case SearchChange(text) => state.(search := text)
    case CategoryChange(c) => state.(category := c)
    case LevelChange(l) => state.(level := l)
    case PriceChange(min, max) => state.(minPrice := min, maxPrice := max)
  }

  function AsPrice(p: Option<nat>): Option<real> {
    if p.Some? then Some(p.value as real) else None
  }

  /** The filter object that describes a state. */
  function FiltersOf(state: PanelState): Filters {
    CourseCatalog.Filters(state.category, state.level, AsPrice(state.minPrice), AsPrice(state.maxPrice), Some(state.search))
  }

  /**
   * `applyFilters(newFilters)`: each emitted field is the update's value
   * when it is defined and the current state's value otherwise.
   */
  function Merge(state: PanelState, update: FilterUpdate): (f: Filters)
    ensures f.category == if update.category.Some? then update.category else state.category
    ensures f.level == if update.level.Some? then update.level else state.level
    ensures f.minPrice == AsPrice(if update.minPrice.Some? then update.minPrice else state.minPrice)
    ensures f.maxPrice == AsPrice(if update.maxPrice.Some? then update.maxPrice else state.maxPrice)
    ensures f.search == if update.search.Some? then update.search else Some(state.search)
  {
    CourseCatalog.Filters(
      if update.category.Some? then update.category else state.category,
      if update.level.Some? then update.level else state.level,
      if update.minPrice.Some? then AsPrice(update.minPrice) else AsPrice(state.minPrice),
      if update.maxPrice.Some? then AsPrice(update.maxPrice) else AsPrice(state.maxPrice),
      if update.search.Some? then update.search else Some(state.search))
  }

  /** Defined values always win: a change to a defined value is emitted exactly as the new state describes it. */
  lemma {:induction false} DefinedChangeIsCurrent(state: PanelState, change: Change)
    requires change.CategoryChange? ==> change.category.Some?
    requires change.LevelChange? ==> change.level.Some?
    requires change.PriceChange? ==> change.min.Some? && change.max.Some?
    ensures Merge(state, UpdateOf(change)) == FiltersOf(Apply(state, change))
  {
  }

  /**
   * Choosing "All Categories" or "All Levels" passes `undefined`, which the
   * merge replaces with the previous selection: the emitted filters keep
   * the old category (level) while the panel shows none.
   */
  lemma {:induction false} AllOptionReemitsPrevious(state: PanelState)
    ensures Merge(state, UpdateOf(CategoryChange(None))).category == state.category
    ensures Apply(state, CategoryChange(None)).category == None
    ensures Merge(state, UpdateOf(LevelChange(None))).level == state.level
    ensures Apply(state, LevelChange(None)).level == None
  {
  }

  /**
   * The merge the panel evidently intends: a field the handler passes is
   * taken as passed, even when it is `undefined` (a test for the key's
   * presence rather than for `undefined`).
   */
  function IntendedFilters(state: PanelState, change: Change): (f: Filters)
    ensures f == FiltersOf(Apply(state, change))
  {
    var current := FiltersOf(state);
    match change
    case SearchChange(text) => current.(search := Some(text))
    case CategoryChange(c) => current.(category := c)
    case LevelChange(l) => current.(level := l)
    case PriceChange(min, max) => current.(minPrice := AsPrice(min), maxPrice := AsPrice(max))
  }

  /** The intended merge differs from the written one only where the change passes `undefined`. */
  lemma {:induction false} IntendedAgreesOnDefined(state: PanelState, change: Change)
    requires change.CategoryChange? ==> change.category.Some?
    requires change.LevelChange? ==> change.level.Some?
    requires change.PriceChange? ==> change.min.Some? && change.max.Some?
    ensures IntendedFilters(state, change) == Merge(state, UpdateOf(change))
  {
    DefinedChangeIsCurrent(state, change);
  }

  /**
   * After a category (level) was chosen, choosing "All Categories" ("All
   * Levels") emits filters that differ from what the panel then shows.
   */
  lemma {:induction false} StaleSelectionEmitted(state: PanelState)
    ensures state.category.Some? ==>
      Merge(state, UpdateOf(CategoryChange(None))) != IntendedFilters(state, CategoryChange(None))
    ensures state.level.Some? ==>
      Merge(state, UpdateOf(LevelChange(None))) != IntendedFilters(state, LevelChange(None))
  {
    AllOptionReemitsPrevious(state);
  }

  // ------------------------------------------------------------ price select

  /** `${min || 0}-${max || ''}`: a missing or zero minimum shows as 0, a missing or zero maximum as nothing. */
  function PriceSelectValue(min: Option<nat>, max: Option<nat>): (v: string)
    ensures v == NatToString(min.GetOr(0)) + "-" + (if max.Some? && max.value != 0 then NatToString(max.value) else "")
  {
    var low := if min.Some? && min.value != 0 then min.value else 0;
    var high := if max.Some? && max.value != 0 then NatToString(max.value) else "";
    NatToString(low) + "-" + high
  }

  /** A select option value: every piece between dashes is a run of decimal digits. */
  predicate IsPriceOption(value: string) {
    forall k :: 0 <= k < |Split(value, '-')| ==> AllDigits(Split(value, '-')[k])
  }

  /** `v ? Number(v) : undefined` for a digit string. */
  function ParseBound(v: string): (b: Option<nat>)
    requires AllDigits(v)
    ensures b.None? <==> v == ""
  {
    if v == "" then None else Some(DigitsValue(v))
  }

  /** `const [min, max] = value.split('-').map(...)`: a missing second piece is `undefined`. */
  function ParsePriceOption(value: string): (bounds: (Option<nat>, Option<nat>))
    requires IsPriceOption(value)
    ensures bounds.0.None? <==> Split(value, '-')[0] == ""
    ensures bounds.1.Some? ==> |Split(value, '-')| >= 2 && Split(value, '-')[1] != ""
  {
    var parts := Split(value, '-');
    (ParseBound(parts[0]), if |parts| >= 2 then ParseBound(parts[1]) else None)
  }

  /** The option text for the bounds `a` and `b` (no upper bound when `b` is absent). */
  function OptionText(a: nat, b: Option<nat>): string {
    NatToString(a) + "-" + (if b.Some? then NatToString(b.value) else "")
  }

  lemma {:induction false} OptionTextSplit(a: nat, b: Option<nat>)
    ensures Split(OptionText(a, b), '-') == [NatToString(a), if b.Some? then NatToString(b.value) else ""]
  {
    var x := NatToString(a);
    var y := if b.Some? then NatToString(b.value) else "";
    assert '-' !in x && '-' !in y by {
      assert forall i :: 0 <= i < |x| ==> IsDigit(x[i]);
      assert forall i :: 0 <= i < |y| ==> IsDigit(y[i]);
    }
    assert Join([x, y], ['-']) == OptionText(a, b);
    JoinSplit([x, y], '-');
  }

  /**
   * Every option of the price select ("0-", "0-25", "25-50", "50-100",
   * "100-") parses to its bounds, and the select shows those bounds as the
   * same option again.
   */
  lemma {:induction false} PriceOptionRoundTrip(a: nat, b: Option<nat>)
    requires b.None? || b.value > 0
    ensures IsPriceOption(OptionText(a, b))
    ensures ParsePriceOption(OptionText(a, b)) == (Some(a), b)
    ensures PriceSelectValue(Some(a), b) == OptionText(a, b)
  {
    OptionTextSplit(a, b);
    NatToStringValue(a);
    if b.Some? {
      NatToStringValue(b.value);
    }
  }

  /** With no price range the select shows "0-", the "All Prices" option, which parses to a minimum of 0. */
  lemma {:induction false} NoRangeShowsAllPrices()
    ensures PriceSelectValue(None, None) == OptionText(0, None)
    ensures IsPriceOption(OptionText(0, None)) && ParsePriceOption(OptionText(0, None)) == (Some(0), None)
  {
    PriceOptionRoundTrip(0, None);
  }

  /**
   * Choosing "All Prices" after a range with an upper bound emits a minimum
   * of 0 and keeps the old maximum, as the parsed maximum is `undefined`.
   */
  lemma {:induction false} AllPricesKeepsMaximum(state: PanelState)
    requires state.maxPrice.Some?
    ensures var f := Merge(state, UpdateOf(PriceChange(Some(0), None)));
      f.minPrice == Some(0.0) && f.maxPrice == AsPrice(state.maxPrice)
    ensures Merge(state, UpdateOf(PriceChange(Some(0), None))) != IntendedFilters(state, PriceChange(Some(0), None))
  {
    assert IntendedFilters(state, PriceChange(Some(0), None)).maxPrice == None;
  }

  // ------------------------------------------------------------ clear button

  /** The clear button shows when the search, category or level is set, or a price bound is non-zero. */
  predicate ShowClearButton(state: PanelState) {
    state.search != "" || CourseCatalog.Truthy(state.category) || state.level.Some? ||
    (state.minPrice.Some? && state.minPrice.value != 0) || (state.maxPrice.Some? && state.maxPrice.value != 0)
  }

  /**
   * With the clear button hidden, the panel's filters keep every course of
   * non-negative price, unless the maximum is 0: that range hides the
   * button yet still drops every paid course.
   */
  lemma {:induction false} HiddenClearKeepsAll(state: PanelState, course: CourseCatalog.Course)
    ensures !ShowClearButton(state) && state.maxPrice != Some(0) && course.price >= 0.0 ==>
      CourseCatalog.KeepCourse(FiltersOf(state), course)
    ensures !ShowClearButton(state) && state.maxPrice == Some(0) && course.price > 0.0 ==>
      !CourseCatalog.KeepCourse(FiltersOf(state), course)
  {
  }

  /** After "All Prices" alone, the minimum of 0 does not show the clear button. */
  lemma {:induction false} ZeroMinimumHidesClear()
    ensures !ShowClearButton(Apply(InitialState, PriceChange(Some(0), None)))
    ensures ShowClearButton(Apply(InitialState, PriceChange(Some(0), Some(25))))
  {
  }

  /** The filter object `clearAllFilters` emits, `{}`, keeps every catalog course. */
  lemma {:induction false} ClearedFiltersKeepAll(catalog: seq<CourseCatalog.Course>)
    ensures CourseCatalog.FilterCourses(catalog, CourseCatalog.NoFilters) == catalog
  {
    CourseCatalog.NoFiltersKeepAll(catalog, CourseCatalog.NoFilters);
  }

  // ---------------------------------------------------------------- panel

  class FilterPanel {
    var search: string
    var category: Option<string>
    var level: Option<Level>
    var minPrice: Option<nat>
    var maxPrice: Option<nat>

    function State(): PanelState
      reads this
    {
      PanelState(search, category, level, minPrice, maxPrice)
    }

    constructor()
      ensures State() == InitialState && !ShowClearButton(State())
    {
      search := "";
      category := None;
      level := None;
      minPrice := None;
      maxPrice := None;
    }

    /** The handlers: the state takes the change, and the emitted filters merge the change into the old state. */
    method Handle(change: Change) returns (emitted: Filters)
      modifies this
      ensures State() == Apply(old(State()), change)
      ensures emitted == Merge(old(State()), UpdateOf(change))
    {
      emitted := Merge(State(), UpdateOf(change));
      match change {
        case SearchChange(text) => search := text;
        case CategoryChange(c) => category := c;
        case LevelChange(l) => level := l;
        case PriceChange(min, max) => minPrice, maxPrice := min, max;
      }
    }

    /** A handler with the intended merge: what it emits always describes the panel's new state. */
    method HandleIntended(change: Change) returns (emitted: Filters)
      modifies this
      ensures State() == Apply(old(State()), change)
      ensures emitted == FiltersOf(State())
    {
      emitted := IntendedFilters(State(), change);
      match change {
        case SearchChange(text) => search := text;
        case CategoryChange(c) => category := c;
        case LevelChange(l) => level := l;
        case PriceChange(min, max) => minPrice, maxPrice := min, max;
      }
    }

    /** `handleSearchChange`. */
    method HandleSearchChange(value: string) returns (emitted: Filters)
      modifies this
      ensures State() == old(State()).(search := value)
      ensures emitted == FiltersOf(old(State())).(search := Some(value))
    {
      emitted := Handle(SearchChange(value));
    }

    /** `handleCategoryChange`, with the select's value, `undefined` for "All Categories". */
    method HandleCategoryChange(value: Option<string>) returns (emitted: Filters)
      modifies this
      ensures State() == old(State()).(category := value)
      ensures emitted == FiltersOf(old(State())).(category := if value.Some? then value else old(category))
    {
      emitted := Handle(CategoryChange(value));
    }

    /** `handleLevelChange`, with the select's value, `undefined` for "All Levels". */
    method HandleLevelChange(value: Option<Level>) returns (emitted: Filters)
      modifies this
      ensures State() == old(State()).(level := value)
      ensures emitted == FiltersOf(old(State())).(level := if value.Some? then value else old(level))
    {
      emitted := Handle(LevelChange(value));
    }

    /** The price select's `onChange`: the option is parsed into bounds and handed to `handlePriceChange`. */
    method HandlePriceSelect(value: string) returns (emitted: Filters)
      requires IsPriceOption(value)
      modifies this
      ensures (minPrice, maxPrice) == ParsePriceOption(value)
      ensures search == old(search) && category == old(category) && level == old(level)
      ensures emitted == Merge(old(State()), UpdateOf(PriceChange(minPrice, maxPrice)))
    {
      var bounds := ParsePriceOption(value);
      emitted := Handle(PriceChange(bounds.0, bounds.1));
    }

    /** `clearAllFilters`: every filter is reset and the empty filter object is emitted. */
    method ClearAllFilters() returns (emitted: Filters)
      modifies this
      ensures State() == InitialState && !ShowClearButton(State())
      ensures emitted == CourseCatalog.NoFilters
    {
      search := "";
      category := None;
      level := None;
      minPrice := None;
      maxPrice := None;
      emitted := CourseCatalog.NoFilters;
    }
  }
}
