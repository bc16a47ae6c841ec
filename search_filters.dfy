/** The filter bar of the medicine search results
    (app/screens/Search/SearchMedicineResults.js): four categories of
    selected values (color, shape, size, split line), a temporary copy edited
    in the filter modal, and the button text that summarises a selection. */
module SearchFilters {
  import JsText

  /** The four filter categories; the source keys them 'color', 'shape',
      'size' and 'split'. */
  datatype Category = Color | Shape | Size | Split

  function CategoryKey(category: Category): string {
    match category
    case Color => "color"
    case Shape => "shape"
    case Size => "size"
    case Split => "split"
  }

  /** The category a type string names, if any. */
  function CategoryOf(filterType: string): (category: JsText.Option<Category>)
    ensures category.Some? ==> CategoryKey(category.value) == filterType
    ensures forall c :: CategoryKey(c) == filterType ==> category == JsText.Some(c)
  {
    if filterType == "color" then JsText.Some(Color)
    else if filterType == "shape" then JsText.Some(Shape)
    else if filterType == "size" then JsText.Some(Size)
    else if filterType == "split" then JsText.Some(Split)
    else JsText.None
  }

  /** The `tempFilters` record: one list of selected values per category. */
  datatype Filters = Filters(color: seq<string>, shape: seq<string>, size: seq<string>, split: seq<string>) {

    /** `filters[type]`. */
    function Get(category: Category): seq<string> {
      match category
      case Color => color
      case Shape => shape
      case Size => size
      case Split => split
    }

    /** `{...filters, [type]: values}`: only the named category changes. */
    function With(category: Category, values: seq<string>): (r: Filters)
      ensures r.Get(category) == values
      ensures forall other :: other != category ==> r.Get(other) == Get(other)
    {
      match category
      case Color => this.(color := values)
      case Shape => this.(shape := values)
      case Size => this.(size := values)
      case Split => this.(split := values)
    }
  }

  const NoFilters: Filters := Filters([], [], [], [])

  // ---------------------------------------------------------------------
  // Toggling one value (handleFilterChange)
  // ---------------------------------------------------------------------

  /** `values.indexOf(value)`: the first index holding value, or -1. */
  function IndexOf(values: seq<string>, value: string): (r: int)
    ensures -1 <= r < |values|
    ensures r == -1 <==> value !in values
    ensures r >= 0 ==> values[r] == value && value !in values[..r]
  {
    if values == [] then -1
    else if values[0] == value then 0
    else
      var k := IndexOf(values[1..], value);
      assert values[1..][..if k >= 0 then k else 0] == values[1..1 + if k >= 0 then k else 0];
      if k == -1 then -1
      else
        assert values[..k + 1] == [values[0]] + values[1..][..k];
        k + 1
  }

  /** The list handleFilterChange stores: the value's first occurrence
      removed when it is present, otherwise the value appended at the end. */
  function Toggled(values: seq<string>, value: string): (r: seq<string>)
    ensures value !in values ==> r == values + [value]
    ensures value in values ==>
              r == values[..IndexOf(values, value)] + values[IndexOf(values, value) + 1..]
  {
    var i := IndexOf(values, value);
    if i != -1 then
      values[..i] + values[i + 1..]
    else
      values + [value]
  }

  /** Toggling removes one copy of a present value or adds one copy of an
      absent one, and leaves the membership of every other value as it was. */
  lemma ToggledContents(values: seq<string>, value: string)
    ensures multiset(Toggled(values, value))
         == if value in values then multiset(values) - multiset{value} else multiset(values) + multiset{value}
    ensures forall x :: x != value ==> (x in Toggled(values, value) <==> x in values)
  {
    var i := IndexOf(values, value);
    if i != -1 {
      assert values == values[..i] + [values[i]] + values[i + 1..];
    }
  }

  predicate NoDuplicates(values: seq<string>) {
    forall i, j :: 0 <= i < j < |values| ==> values[i] != values[j]
  }

  /** Toggling a value that is absent, twice, gives back the original list. */
  lemma ToggleTwiceAbsent(values: seq<string>, value: string)
    requires value !in values
    ensures Toggled(Toggled(values, value), value) == values
  {
    var once := values + [value];
    assert once[..|values|] == values;
    assert IndexOf(once, value) == |values|;
  }

  /** Toggling a present value of a duplicate-free list, twice, moves it to
      the end instead. */
  lemma ToggleTwicePresent(values: seq<string>, value: string)
    requires NoDuplicates(values) && value in values
    ensures var i := IndexOf(values, value);
      Toggled(Toggled(values, value), value) == values[..i] + values[i + 1..] + [value]
  {
    ToggleKeepsNoDuplicates(values, value);
  }

  /** A duplicate-free list stays duplicate-free under any toggle, and
      afterwards holds the value exactly when it did not before. */
  lemma ToggleKeepsNoDuplicates(values: seq<string>, value: string)
    requires NoDuplicates(values)
    ensures NoDuplicates(Toggled(values, value))
    ensures value in Toggled(values, value) <==> value !in values
  {
    var r := Toggled(values, value);
    if value in values {
      var i := IndexOf(values, value);
      forall a, b | 0 <= a < b < |r| ensures r[a] != r[b] {
        var a' := if a < i then a else a + 1;
        var b' := if b < i then b else b + 1;
        assert r[a] == values[a'] && r[b] == values[b'];
      }
      assert value !in r by {
        forall k | 0 <= k < |r| ensures r[k] != value {
          if k < i { assert r[k] == values[k]; } else { assert r[k] == values[k + 1]; }
        }
      }
    }
  }

  // ---------------------------------------------------------------------
  // The button text (getFilterButtonText)
  // ---------------------------------------------------------------------

  /** The label of an empty category: 'split' and every unknown type share
      '분할선'. */
  function CategoryLabel(filterType: string): string {
    if filterType == "color" then "색상"
    else if filterType == "shape" then "모양"
    else if filterType == "size" then "크기"
    else "분할선"
  }

  /** getFilterButtonText(type, selectedItems). */
  function GetFilterButtonText(filterType: string, selectedItems: seq<string>): (text: string)
    ensures |selectedItems| == 0 ==> text == CategoryLabel(filterType)
    ensures |selectedItems| >= 1 ==> |text| >= |selectedItems[0]| && text[..|selectedItems[0]|] == selectedItems[0]
    ensures |selectedItems| == 1 ==> text == selectedItems[0]
    ensures |selectedItems| >= 2 ==>
              var prefix := |selectedItems[0]| + 3;
              |text| > prefix && text[|selectedItems[0]|..prefix] == " 외 " && text[|text| - 1] == '건'
              && text[prefix..|text| - 1] == JsText.NatToString(|selectedItems| - 1)
              && JsText.AllDigits(text[prefix..|text| - 1])
              && JsText.ParseDigits(text[prefix..|text| - 1]) + 1 == |selectedItems|
  {
    if |selectedItems| == 0 then CategoryLabel(filterType)
    else if |selectedItems| == 1 then selectedItems[0]
    else
      var count := JsText.NatToString(|selectedItems| - 1);
      var text := selectedItems[0] + " 외 " + count + "건";
      assert text[|selectedItems[0]| + 3..|text| - 1] == count;
      assert text[|selectedItems[0]|..|selectedItems[0]| + 3] == " 외 ";
      JsText.ParseNatToString(|selectedItems| - 1);
      text
  }

  // ---------------------------------------------------------------------
  // The screen state
  // ---------------------------------------------------------------------

  class SearchResultsScreen {
    var selectedColors: seq<string>
    var selectedShapes: seq<string>
    var selectedSizes: seq<string>
    var selectedSplits: seq<string>
    var filterModalVisible: bool
    var tempFilters: Filters

    constructor ()
      ensures Applied() == NoFilters && tempFilters == NoFilters && !filterModalVisible
    {
      selectedColors, selectedShapes, selectedSizes, selectedSplits := [], [], [], [];
      filterModalVisible := false;
      tempFilters := NoFilters;
    }

    /** The applied selection, as one record. */
    function Applied(): Filters
      reads this
    {
      Filters(selectedColors, selectedShapes, selectedSizes, selectedSplits)
    }

    /** openFilterModal: copy the applied lists into the temporary record. */
    method OpenFilterModal()
      modifies this
      ensures tempFilters == old(Applied()) && filterModalVisible
      ensures Applied() == old(Applied())
    {
      tempFilters := Filters(selectedColors, selectedShapes, selectedSizes, selectedSplits);
      filterModalVisible := true;
    }

    /** applyFilters: copy the temporary lists back and close the modal. */
    method ApplyFilters()
      modifies this
      ensures Applied() == old(tempFilters) && !filterModalVisible
      ensures tempFilters == old(tempFilters)
    {
      selectedColors := tempFilters.color;
      selectedShapes := tempFilters.shape;
      selectedSizes := tempFilters.size;
      selectedSplits := tempFilters.split;
      filterModalVisible := false;
    }

    /** handleFilterChange(type, value): copy the category's list, remove the
        value at its first index or push it, and store the copy under that
        category only. */
    method HandleFilterChange(category: Category, value: string)
      modifies this
      ensures tempFilters == old(tempFilters).With(category, Toggled(old(tempFilters).Get(category), value))
      ensures Applied() == old(Applied()) && filterModalVisible == old(filterModalVisible)
    {
      var currentValues := tempFilters.Get(category);
      var valueIndex := IndexOf(currentValues, value);
      if valueIndex != -1 {
        currentValues := currentValues[..valueIndex] + currentValues[valueIndex + 1..];
      } else {
        currentValues := currentValues + [value];
      }
      tempFilters := tempFilters.With(category, currentValues);
    }

    /** clearFilter(type): empty the applied list of the named category; an
        unknown type changes nothing. */
    method ClearFilter(filterType: string)
      modifies this
      ensures Applied() == match CategoryOf(filterType)
                           case Some(c) => old(Applied()).With(c, [])
                           case None => old(Applied())
      ensures tempFilters == old(tempFilters) && filterModalVisible == old(filterModalVisible)
    {
      if filterType == "color" {
        selectedColors := [];
      } else if filterType == "shape" {
        selectedShapes := [];
      } else if filterType == "size" {
        selectedSizes := [];
      } else if filterType == "split" {
        selectedSplits := [];
      }
    }

    /** Opening the modal and applying it without toggling anything leaves
        the applied selection as it was. */
    method OpenThenApply()
      modifies this
      ensures Applied() == old(Applied()) && !filterModalVisible
    {
      OpenFilterModal();
      ApplyFilters();
    }

    /** Opening the modal, toggling a value absent from its category twice
        and applying leaves the applied selection as it was. */
    method OpenToggleTwiceApply(category: Category, value: string)
      requires value !in Applied().Get(category)
      modifies this
      ensures Applied() == old(Applied())
    {
      OpenFilterModal();
      HandleFilterChange(category, value);
      HandleFilterChange(category, value);
      ToggleTwiceAbsent(old(Applied()).Get(category), value);
      ApplyFilters();
    }
  }
}
