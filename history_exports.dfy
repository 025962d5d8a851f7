/**
 * The data-export panel: a chosen date range, a list of chosen data-type
 * ids toggled on and off, and the export request built from both when an
 * export format is clicked.
 */
module HistoryExports {

  import opened Wrappers
  import Lists

  /** A date-range choice: its value and the name (label) the export reports. */
  datatype DateRange = DateRange(value: string, name: string)

  /** A data type of the catalogue: its id, its name (label) and its record count. */
  datatype DataType = DataType(id: string, name: string, count: nat)

  const DateRanges: seq<DateRange> := [
    DateRange("7days", "Last 7 Days"),
    DateRange("30days", "Last 30 Days"),
    DateRange("3months", "Last 3 Months"),
    DateRange("1year", "Last Year"),
    DateRange("all", "All Time")
  ]

  /** The catalogue; the first two counts are the lengths of the seven-day mock series. */
  const DataTypes: seq<DataType> := [
    DataType("fitness", "Fitness Data", 7),
    DataType("mood", "Mental Health", 7),
    DataType("nutrition", "Nutrition", 45),
    DataType("health", "Health Analysis", 12)
  ]

  const InitialDateRange := "7days"
  const InitialDataTypes: seq<string> := ["fitness", "mood"]

  /** No two catalogue entries share an id. */
  predicate DistinctIds(types: seq<DataType>) {
    forall i, j :: 0 <= i < j < |types| ==> types[i].id != types[j].id
  }

  /** The ids of a catalogue, in its order. */
  function Ids(types: seq<DataType>): (r: seq<string>)
    ensures |r| == |types| && forall i :: 0 <= i < |types| ==> r[i] == types[i].id
  {
    if types == [] then [] else Ids(types[..|types| - 1]) + [types[|types| - 1].id]
  }

  /**
   * `handleDataTypeToggle`: a selected id is filtered out (every copy), an
   * unselected one appended; every other id keeps its membership.
   */
  function DataTypeToggled(selected: seq<string>, id: string): (r: seq<string>)
    ensures id in selected ==> r == Lists.Remove(selected, id)
    ensures id !in selected ==> r == selected + [id]
    ensures id in r <==> id !in selected
    ensures forall y :: y != id ==> (y in r <==> y in selected)
  {
    if id in selected then Lists.Remove(selected, id) else selected + [id]
  }

  /** Toggling an unselected id twice gives back the exact list. */
  lemma ToggleAbsentTwice(selected: seq<string>, id: string)
    requires id !in selected
    ensures DataTypeToggled(DataTypeToggled(selected, id), id) == selected
  {
    Lists.AppendThenRemove(selected, id);
  }

  /**
   * Toggling a selected id twice gives back the same membership, with every
   * copy of the id replaced by one copy at the end.
   */
  lemma TogglePresentTwice(selected: seq<string>, id: string)
    requires id in selected
    ensures DataTypeToggled(DataTypeToggled(selected, id), id) == Lists.Remove(selected, id) + [id]
    ensures forall y :: y in DataTypeToggled(DataTypeToggled(selected, id), id) <==> y in selected
  {
  }

  /** `dataTypes.filter(type => selected.includes(type.id))`. */
  function SelectedTypes(selected: seq<string>, types: seq<DataType>): (r: seq<DataType>)
    ensures forall t :: t in r <==> t in types && t.id in selected
    ensures |r| <= |types|
    ensures selected == [] ==> r == []
  {
    if types == [] then []
    else
      var last := types[|types| - 1];
      SelectedTypes(selected, types[..|types| - 1]) + (if last.id in selected then [last] else [])
  }

  /**
   * The filter splits over concatenation: the entries of `a` come first, in
   * their order, then those of `b`.  With `SelectedTypesSingleton` this fixes
   * the result entirely: the catalogue's own order, each entry at most once.
   */
  lemma {:induction false} SelectedTypesAppend(selected: seq<string>, a: seq<DataType>, b: seq<DataType>)
    ensures SelectedTypes(selected, a + b) == SelectedTypes(selected, a) + SelectedTypes(selected, b)
  {
    if b == [] {
      assert a + b == a;
    } else {
      var init := b[..|b| - 1];
      assert (a + b)[..|a + b| - 1] == a + init;
      assert (a + b)[|a + b| - 1] == b[|b| - 1];
      SelectedTypesAppend(selected, a, init);
    }
  }

  /** One entry is kept exactly when its id is selected. */
  lemma SelectedTypesSingleton(selected: seq<string>, t: DataType)
    ensures SelectedTypes(selected, [t]) == if t.id in selected then [t] else []
  {
    assert [t][..0] == [];
  }

  /** In a catalogue keyed by id, the export holds one entry per distinct selected catalogue id. */
  lemma {:induction false} SelectedCount(selected: seq<string>, types: seq<DataType>)
    requires DistinctIds(types)
    ensures |SelectedTypes(selected, types)| == |set y | y in selected && y in Ids(types)|
  {
    var ids := Ids(types);
    if types == [] {
      assert (set y | y in selected && y in ids) == {};
    } else {
      var init := types[..|types| - 1];
      var last := types[|types| - 1];
      assert DistinctIds(init);
      SelectedCount(selected, init);
      var before := set y | y in selected && y in Ids(init);
      var after := set y | y in selected && y in ids;
      assert ids == Ids(init) + [last.id];
      assert last.id !in Ids(init) by {
        forall i | 0 <= i < |init| ensures Ids(init)[i] != last.id {
          assert init[i] == types[i];
        }
      }
      if last.id in selected {
        assert after == before + {last.id};
      } else {
        assert after == before;
      }
    }
  }

  /** The catalogue is keyed by id, so an export names each selected catalogue id's entry exactly once. */
  lemma ExportedCount(selected: seq<string>)
    ensures DistinctIds(DataTypes)
    ensures |SelectedTypes(selected, DataTypes)| == |set y | y in selected && y in Ids(DataTypes)|
  {
    SelectedCount(selected, DataTypes);
  }

  /** The export sees only which ids are selected: neither their order nor repeats matter. */
  lemma {:induction false} SelectionOrderIrrelevant(s1: seq<string>, s2: seq<string>, types: seq<DataType>)
    requires forall y :: y in s1 <==> y in s2
    ensures SelectedTypes(s1, types) == SelectedTypes(s2, types)
  {
    if types != [] {
      SelectionOrderIrrelevant(s1, s2, types[..|types| - 1]);
    }
  }

  /** Selecting every catalogue id exports the whole catalogue, in catalogue order. */
  lemma {:induction false} SelectingAllGivesCatalogue(selected: seq<string>, types: seq<DataType>)
    requires forall i :: 0 <= i < |types| ==> types[i].id in selected
    ensures SelectedTypes(selected, types) == types
  {
    if types != [] {
      SelectingAllGivesCatalogue(selected, types[..|types| - 1]);
      assert types[..|types| - 1] + [types[|types| - 1]] == types;
    }
  }

  /**
   * A worked instance of `SelectedTypesAppend`: entries come in catalogue
   * order, not selection order, so choosing mood then fitness exports fitness first.
   */
  lemma CatalogueOrderNotSelectionOrder()
    ensures SelectedTypes(["mood", "fitness"], DataTypes) == [DataTypes[0], DataTypes[1]]
  {
    SelectionOrderIrrelevant(["mood", "fitness"], InitialDataTypes, DataTypes);
    assert DataTypes[..3] == [DataTypes[0], DataTypes[1], DataTypes[2]];
    assert DataTypes[..2] == [DataTypes[0], DataTypes[1]];
    assert DataTypes[..1] == [DataTypes[0]];
    assert DataTypes[..0] == [];
  }

  /** The export reports at most the four catalogue types. */
  lemma AtMostFourTypes(selected: seq<string>)
    ensures |SelectedTypes(selected, DataTypes)| <= 4
  {
  }

  /** `dateRanges.find(range => range.value === value)`: the first range with that value, if any. */
  function FindRange(ranges: seq<DateRange>, value: string): (r: Option<DateRange>)
    ensures r.Some? <==> exists i :: 0 <= i < |ranges| && ranges[i].value == value
    ensures r.Some? ==> r.value in ranges && r.value.value == value
    ensures r.Some? ==>
              exists i :: 0 <= i < |ranges| && ranges[i] == r.value &&
                (forall j :: 0 <= j < i ==> ranges[j].value != value)
  {
    if ranges == [] then None
    else if ranges[0].value == value then Some(ranges[0])
    else
      var rest := FindRange(ranges[1..], value);
      assert forall i :: 1 <= i < |ranges| ==> ranges[i] == ranges[1..][i - 1];
      rest
  }

  /** The export buttons' enabling: disabled when no data type is selected. */
  predicate ExportEnabled(selected: seq<string>)
    ensures !ExportEnabled(selected) ==> SelectedTypes(selected, DataTypes) == []
  {
    |selected| != 0
  }

  /**
   * With only catalogue ids selected (all the toggles can add), the export
   * is enabled exactly when it would export at least one data type.
   */
  lemma EnabledIffSomeTypeExported(selected: seq<string>)
    requires forall y :: y in selected ==> y in Ids(DataTypes)
    ensures ExportEnabled(selected) <==> SelectedTypes(selected, DataTypes) != []
  {
    if selected != [] {
      var y := selected[0];
      var ids := Ids(DataTypes);
      assert y in ids;
      var i :| 0 <= i < |ids| && ids[i] == y;
      assert DataTypes[i].id == y && DataTypes[i] in DataTypes;
      assert DataTypes[i] in SelectedTypes(selected, DataTypes);
    }
  }

  /** What `handleExport` reports: the format, the chosen range and the selected types. */
  datatype ExportRequest = ExportRequest(format: string, range: Option<DateRange>, types: seq<DataType>)

  function ExportRequestOf(format: string, rangeValue: string, selected: seq<string>): (r: ExportRequest)
    ensures rangeValue in RangeValues() ==> r.range.Some? && r.range.value.value == rangeValue
    ensures r.range.Some? ==> r.range.value in DateRanges
    ensures |r.types| <= |DataTypes|
  {
    ExportRequest(format, FindRange(DateRanges, rangeValue), SelectedTypes(selected, DataTypes))
  }

  /** The range values the range buttons offer. */
  function RangeValues(): (r: seq<string>)
    ensures forall v :: v in r <==> exists i :: 0 <= i < |DateRanges| && DateRanges[i].value == v
  {
    var r := ["7days", "30days", "3months", "1year", "all"];
    assert forall i :: 0 <= i < |DateRanges| ==> DateRanges[i].value == r[i];
    r
  }

  /** The panel's state. */
  class ExportSelection {
    var selectedDateRange: string
    var selectedDataTypes: seq<string>

    /** The range is one the buttons offer and every selected id is a catalogue id. */
    ghost predicate Valid()
      reads this
    {
      && selectedDateRange in RangeValues()
      && forall y :: y in selectedDataTypes ==> y in Ids(DataTypes)
    }

    constructor ()
      ensures Valid()
      ensures selectedDateRange == InitialDateRange && selectedDataTypes == InitialDataTypes
    {
      selectedDateRange := InitialDateRange;
      selectedDataTypes := InitialDataTypes;
      assert Ids(DataTypes)[0] == "fitness" && Ids(DataTypes)[1] == "mood";
    }

    /** A data-type card's click handler. */
    method HandleDataTypeToggle(id: string)
      requires Valid() && id in Ids(DataTypes)
      modifies this
      ensures Valid()
      ensures selectedDataTypes == DataTypeToggled(old(selectedDataTypes), id)
      ensures selectedDateRange == old(selectedDateRange)
    {
      selectedDataTypes := DataTypeToggled(selectedDataTypes, id);
    }

    /** A date-range button's click handler. */
    method SelectDateRange(value: string)
      requires Valid() && value in RangeValues()
      modifies this
      ensures Valid()
      ensures selectedDateRange == value && selectedDataTypes == old(selectedDataTypes)
    {
      selectedDateRange := value;
    }

    /**
     * `handleExport(format)`: the request built from the current choice; its
     * range is always found, and it names at least one type whenever the
     * buttons are enabled.
     */
    method HandleExport(format: string) returns (request: ExportRequest)
      requires Valid()
      ensures request == ExportRequestOf(format, selectedDateRange, selectedDataTypes)
      ensures request.range.Some? && request.range.value.value == selectedDateRange
      ensures ExportEnabled(selectedDataTypes) <==> request.types != []
    {
      request := ExportRequestOf(format, selectedDateRange, selectedDataTypes);
      EnabledIffSomeTypeExported(selectedDataTypes);
    }
  }
}
