// The default values of the project form (src/components/projects/ProjectForm.tsx):
// a literal of base defaults spread over by the caller's `defaultValues`.

module ProjectForm {
  import opened Common
  import opened JsObjects
  import opened ProjectValidation

  /** The literal part of the form's `defaultValues`, in its written order. */
  const BaseDefaults: JsObject := [
    ("name", Str("")),
    ("description", Str("")),
    ("status", Str("not_started")),
    ("client_id", Str("")),
    ("hourly_rate", Str("")),
    ("fixed_price", Str("")),
    ("category", Str(""))
  ]

  /** The value `k` ends up with: the caller's when the caller has the key, the base default otherwise. */
  function Overridden(defaultValues: Option<JsObject>, k: string): Option<JsValue>
  {
    if defaultValues.Some? && Get(defaultValues.value, k).Some? then Get(defaultValues.value, k)
    else Get(BaseDefaults, k)
  }

  /**
   * `{ name: '', ..., category: '', ...defaultValues }`. Spreading an absent
   * `defaultValues` adds nothing. A key the caller supplies overrides the base
   * value (even with `undefined`); every other key keeps it.
   */
  function FormDefaults(defaultValues: Option<JsObject>): (r: JsObject)
    requires defaultValues.Some? ==> DistinctKeys(defaultValues.value)
    ensures DistinctKeys(r)
    ensures forall k :: Get(r, k) == Overridden(defaultValues, k)
  {
    if defaultValues.None? then BaseDefaults
    else
      SpreadGet(BaseDefaults, defaultValues.value);
      Spread(BaseDefaults, defaultValues.value)
  }

  /** Without `defaultValues`: six empty strings, status 'not_started', and no dates at all. */
  lemma DefaultsWithoutOverrides()
    ensures var d := FormDefaults(None);
      && Get(d, "name") == Some(Str(""))
      && Get(d, "description") == Some(Str(""))
      && Get(d, "client_id") == Some(Str(""))
      && Get(d, "hourly_rate") == Some(Str(""))
      && Get(d, "fixed_price") == Some(Str(""))
      && Get(d, "category") == Some(Str(""))
      && Get(d, "status") == Some(Str("not_started"))
      && Get(d, "start_date").None? && Get(d, "end_date").None?
  {
  }

  /** The literal defaults have no date properties. */
  lemma BaseHasNoDates()
    ensures Get(BaseDefaults, "start_date").None? && Get(BaseDefaults, "end_date").None?
  {
  }

  /** The dates have no base default: they are present only when the caller supplies them. */
  lemma DatesOnlyIfSupplied(defaultValues: Option<JsObject>)
    requires defaultValues.Some? ==> DistinctKeys(defaultValues.value)
    ensures Get(FormDefaults(defaultValues), "start_date")
         == (if defaultValues.Some? then Get(defaultValues.value, "start_date") else None)
    ensures Get(FormDefaults(defaultValues), "end_date")
         == (if defaultValues.Some? then Get(defaultValues.value, "end_date") else None)
  {
    BaseHasNoDates();
    if defaultValues.Some? {
      var start := Get(defaultValues.value, "start_date");
      var end := Get(defaultValues.value, "end_date");
      assert Overridden(defaultValues, "start_date") == start;
      assert Overridden(defaultValues, "end_date") == end;
    }
  }

  /** Spreading the same `defaultValues` over the result again changes nothing. */
  lemma MergeIdempotent(defaultValues: JsObject)
    requires DistinctKeys(defaultValues)
    ensures Spread(FormDefaults(Some(defaultValues)), defaultValues) == FormDefaults(Some(defaultValues))
  {
    SpreadIdempotent(BaseDefaults, defaultValues);
  }

  /** The untouched form without `defaultValues` is refused for its name and its client, and for nothing else. */
  lemma DefaultsRefused()
    ensures forall f :: f in ProjectIssues(FormDefaults(None)) <==> f == Name || f == ClientId
  {
    AllFieldsListed();
    DefaultsWithoutOverrides();
    var d := FormDefaults(None);
    assert !FieldOk(Name, Get(d, KeyOf(Name)));
    assert FieldOk(Description, Get(d, KeyOf(Description)));
    assert FieldOk(Status, Get(d, KeyOf(Status)));
    assert !FieldOk(ClientId, Get(d, KeyOf(ClientId)));
    assert FieldOk(HourlyRate, Get(d, KeyOf(HourlyRate)));
    assert FieldOk(FixedPrice, Get(d, KeyOf(FixedPrice)));
    assert FieldOk(StartDate, Get(d, KeyOf(StartDate)));
    assert FieldOk(EndDate, Get(d, KeyOf(EndDate)));
    assert FieldOk(Category, Get(d, KeyOf(Category)));
  }
}
