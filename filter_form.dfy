/**
 * The filter section of the report form: the values it starts from (the
 * caller's value, else the filter's own default, else the report type's
 * default), the change handler, and the required-filter check both the
 * form and its callers run.
 */
module FilterForm {
  import opened Wrappers
  import opened Text
  import opened ReportTypes

  /** A form value: `null`, or a value of one of the filter kinds. A missing key stands for `undefined`. */
  datatype FieldValue = Null | Given(value: FilterValue)

  /** The filters' keys are pairwise different. */
  predicate DistinctKeys(filters: seq<FilterOption>)
  {
    forall i, j :: 0 <= i < j < |filters| ==> filters[i].key != filters[j].key
  }

  // ------------------------------------------------------------ starting values

  /** The starting value of one filter, by precedence, or nothing. */
  function StartingValue(f: FilterOption, initial: map<string, FieldValue>, defaults: map<string, FilterValue>): Option<FieldValue>
  {
    if f.key in initial then Some(initial[f.key])
    else if f.defaultValue.Some? then Some(Given(f.defaultValue.value))
    else if f.key in defaults then Some(Given(defaults[f.key]))
    else None
  }

  /** The starting values after the `forEach` over `filters`. */
  function Seeded(filters: seq<FilterOption>, initial: map<string, FieldValue>, defaults: map<string, FilterValue>): map<string, FieldValue>
  {
    if |filters| == 0 then map[]
    else
      var before := Seeded(filters[..|filters| - 1], initial, defaults);
      var f := filters[|filters| - 1];
      match StartingValue(f, initial, defaults)
      case Some(v) => before[f.key := v]
      case None => before
  }

  /** Only the filters' keys get a starting value: a key of the caller's values that no filter names is dropped. */
  lemma {:induction false} SeededKeys(filters: seq<FilterOption>, initial: map<string, FieldValue>, defaults: map<string, FilterValue>)
    decreases |filters|
    ensures forall k :: k in Seeded(filters, initial, defaults) ==> exists i :: 0 <= i < |filters| && filters[i].key == k
  {
    if |filters| > 0 {
      var init := filters[..|filters| - 1];
      SeededKeys(init, initial, defaults);
      assert forall i :: 0 <= i < |init| ==> init[i] == filters[i];
    }
  }

  /** A key whose filter is not among `filters` is untouched by them. */
  lemma {:induction false} SeededOther(filters: seq<FilterOption>, initial: map<string, FieldValue>, defaults: map<string, FilterValue>, key: string)
    requires forall i :: 0 <= i < |filters| ==> filters[i].key != key
    decreases |filters|
    ensures key !in Seeded(filters, initial, defaults)
  {
    if |filters| > 0 {
      SeededOther(filters[..|filters| - 1], initial, defaults, key);
    }
  }

  /**
   * The precedence of starting values for the filter at `i` (keys being
   * different): the caller's value, even `null`; else the filter's own
   * default; else the report type's default; else no value at all.
   */
  lemma {:induction false} SeededPrecedence(filters: seq<FilterOption>, initial: map<string, FieldValue>, defaults: map<string, FilterValue>, i: nat)
    requires DistinctKeys(filters) && i < |filters|
    decreases |filters|
    ensures var f, m := filters[i], Seeded(filters, initial, defaults);
      (f.key in initial ==> f.key in m && m[f.key] == initial[f.key])
      && (f.key !in initial && f.defaultValue.Some? ==> f.key in m && m[f.key] == Given(f.defaultValue.value))
      && (f.key !in initial && f.defaultValue.None? && f.key in defaults ==> f.key in m && m[f.key] == Given(defaults[f.key]))
      && (f.key !in initial && f.defaultValue.None? && f.key !in defaults ==> f.key !in m)
  {
    var last := |filters| - 1;
    var init := filters[..last];
    if i < last {
      assert forall j :: 0 <= j < |init| ==> init[j] == filters[j];
      SeededPrecedence(init, initial, defaults, i);
    } else {
      assert forall j :: 0 <= j < |init| ==> init[j].key != filters[i].key by {
        forall j | 0 <= j < |init|
          ensures init[j].key != filters[i].key
        {
          assert init[j] == filters[j];
        }
      }
      SeededOther(init, initial, defaults, filters[i].key);
    }
  }

  /** The `useState` initialiser: the starting value of every filter that has one. */
  method InitialFilterValues(config: ReportTypeConfig, initial: map<string, FieldValue>) returns (values: map<string, FieldValue>)
    ensures values == Seeded(config.filters, initial, config.defaultFilters)
  {
    values := map[];
    for i := 0 to |config.filters|
      invariant values == Seeded(config.filters[..i], initial, config.defaultFilters)
    {
      assert config.filters[..i + 1][..i] == config.filters[..i];
      var f := config.filters[i];
      if f.key in initial {
        values := values[f.key := initial[f.key]];
      } else if f.defaultValue.Some? {
        values := values[f.key := Given(f.defaultValue.value)];
      } else if f.key in config.defaultFilters {
        values := values[f.key := Given(config.defaultFilters[f.key])];
      }
    }
    assert config.filters[..|config.filters|] == config.filters;
  }

  // ------------------------------------------------------------ the required-filter check

  /** The value under `key` is there and not `null`, `""` or an empty list. */
  predicate Filled(values: map<string, FieldValue>, key: string)
  {
    key in values && values[key] != Null && values[key] != Given(Text("")) && values[key] != Given(TextList([]))
  }

  /** The error one filter contributes: only a required filter that is not filled has one. */
  function FilterError(f: FilterOption, values: map<string, FieldValue>): (e: Option<string>)
    ensures e.None? <==> !f.required || Filled(values, f.key)
    ensures e.Some? && f.key in values && values[f.key] == Given(TextList([])) ==>
      e.value == "Please select at least one " + ToLower(f.caption)
    ensures e.Some? && !(f.key in values && values[f.key] == Given(TextList([]))) ==>
      e.value == f.caption + " is required"
  {
    if !f.required then None
    else if f.key !in values || values[f.key] == Null || values[f.key] == Given(Text("")) then
      Some(f.caption + " is required")
    else if values[f.key].Given? && values[f.key].value.TextList? && |values[f.key].value.items| == 0 then
      Some("Please select at least one " + ToLower(f.caption))
    else None
  }

  /** The errors after the `forEach` over `filters`. */
  function ErrorsOf(filters: seq<FilterOption>, values: map<string, FieldValue>): map<string, string>
  {
    if |filters| == 0 then map[]
    else
      var before := ErrorsOf(filters[..|filters| - 1], values);
      var f := filters[|filters| - 1];
      match FilterError(f, values)
      case Some(e) => before[f.key := e]
      case None => before
  }

  /** The check passes exactly when every required filter is filled. */
  lemma {:induction false} ErrorsOfEmptyIffFilled(filters: seq<FilterOption>, values: map<string, FieldValue>)
    decreases |filters|
    ensures |ErrorsOf(filters, values)| == 0 <==> forall i :: 0 <= i < |filters| && filters[i].required ==> Filled(values, filters[i].key)
  {
    if |filters| > 0 {
      var init := filters[..|filters| - 1];
      var f := filters[|filters| - 1];
      ErrorsOfEmptyIffFilled(init, values);
      assert forall i :: 0 <= i < |init| ==> init[i] == filters[i];
      var m := ErrorsOf(filters, values);
      if FilterError(f, values).Some? {
        assert f.key in m;
      } else if |ErrorsOf(init, values)| != 0 {
        var k :| k in ErrorsOf(init, values);
        assert k in m;
      }
    }
  }

  /** Every error is keyed by a required filter that is not filled. */
  lemma {:induction false} ErrorsOfKeys(filters: seq<FilterOption>, values: map<string, FieldValue>)
    decreases |filters|
    ensures forall k :: k in ErrorsOf(filters, values) ==>
      exists i :: 0 <= i < |filters| && filters[i].key == k && filters[i].required && !Filled(values, k)
  {
    if |filters| > 0 {
      var init := filters[..|filters| - 1];
      ErrorsOfKeys(init, values);
      assert forall i :: 0 <= i < |init| ==> init[i] == filters[i];
    }
  }

  /** `validateFilterConfiguration`. */
  method ValidateFilterConfiguration(config: ReportTypeConfig, values: map<string, FieldValue>)
    returns (isValid: bool, errors: map<string, string>)
    ensures errors == ErrorsOf(config.filters, values)
    ensures isValid <==> forall i :: 0 <= i < |config.filters| && config.filters[i].required ==> Filled(values, config.filters[i].key)
  {
    errors := map[];
    for i := 0 to |config.filters|
      invariant errors == ErrorsOf(config.filters[..i], values)
    {
      assert config.filters[..i + 1][..i] == config.filters[..i];
      var f := config.filters[i];
      if f.required {
        if f.key !in values || values[f.key] == Null || values[f.key] == Given(Text("")) {
          errors := errors[f.key := f.caption + " is required"];
        } else if values[f.key].Given? && values[f.key].value.TextList? && |values[f.key].value.items| == 0 {
          errors := errors[f.key := "Please select at least one " + ToLower(f.caption)];
        }
      }
    }
    assert config.filters[..|config.filters|] == config.filters;
    ErrorsOfEmptyIffFilled(config.filters, values);
    isValid := |errors| == 0;
  }

  /** The component's state: the filter values and the errors shown under the fields. */
  class Form {
    const config: ReportTypeConfig
    var values: map<string, FieldValue>
    var errors: map<string, string>

    constructor(config: ReportTypeConfig, initial: map<string, FieldValue>)
      ensures this.config == config && values == Seeded(config.filters, initial, config.defaultFilters) && errors == map[]
    {
      var seeded := InitialFilterValues(config, initial);
      this.config := config;
      values := seeded;
      errors := map[];
    }

    /** `handleFilterChange`: sets one value and clears that field's error; nothing else changes. */
    method FilterChange(key: string, value: FieldValue)
      modifies this
      ensures values == old(values)[key := value]
      ensures key !in errors || errors[key] == ""
      ensures forall k :: k != key ==> (k in errors <==> k in old(errors)) && (k in errors ==> errors[k] == old(errors)[k])
    {
      values := values[key := value];
      if key in errors && errors[key] != "" {
        errors := errors - {key};
      }
    }

    /** `validateFilters`: replaces the shown errors by the check's and reports whether there are none. */
    method ValidateFilters() returns (ok: bool)
      modifies this
      ensures values == old(values)
      ensures errors == ErrorsOf(config.filters, values)
      ensures ok <==> forall i :: 0 <= i < |config.filters| && config.filters[i].required ==> Filled(values, config.filters[i].key)
    {
      ok, errors := ValidateFilterConfiguration(config, values);
    }
  }
}
