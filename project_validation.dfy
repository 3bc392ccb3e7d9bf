// `projectFormSchema` (src/validations/project.ts) as a validator over the
// object the project form submits: a name of two characters or more, a
// known status, a client; six optional strings that are never inspected.

module ProjectValidation {
  import opened Common
  import opened JsObjects

  const ProjectStatuses: set<string> := {"not_started", "in_progress", "completed", "on_hold"}

  datatype ProjectField =
    | Name | Description | Status | ClientId | HourlyRate | FixedPrice | StartDate | EndDate | Category

  /** The schema's fields, in declaration order. */
  const SchemaFields: seq<ProjectField> :=
    [Name, Description, Status, ClientId, HourlyRate, FixedPrice, StartDate, EndDate, Category]

  lemma AllFieldsListed()
    ensures forall f: ProjectField :: f in SchemaFields
  {
    forall f: ProjectField ensures f in SchemaFields {
      var i := match f
        case Name => 0 case Description => 1 case Status => 2 case ClientId => 3 case HourlyRate => 4
        case FixedPrice => 5 case StartDate => 6 case EndDate => 7 case Category => 8;
      assert SchemaFields[i] == f;
    }
  }

  /** The property each field reads. */
  function KeyOf(f: ProjectField): string
  {
    match f
    case Name => "name"
    case Description => "description"
    case Status => "status"
    case ClientId => "client_id"
    case HourlyRate => "hourly_rate"
    case FixedPrice => "fixed_price"
    case StartDate => "start_date"
    case EndDate => "end_date"
    case Category => "category"
  }

  /** `z.string().optional()`: missing, `undefined` or any string; `null` is refused. */
  predicate OptionalString(v: Option<JsValue>)
  {
    v.None? || v.value.Undefined? || v.value.Str?
  }

  /** A string of at least `n` characters. */
  predicate StringAtLeast(v: Option<JsValue>, n: nat)
  {
    v.Some? && v.value.Str? && |v.value.s| >= n
  }

  /** The check the schema applies to one field's value. */
  predicate FieldOk(f: ProjectField, v: Option<JsValue>)
  {
    match f
    case Name => StringAtLeast(v, 2)
    case Status => v.Some? && v.value.Str? && v.value.s in ProjectStatuses
    case ClientId => StringAtLeast(v, 1)
    case _ => OptionalString(v)
  }

  /** `projectFormSchema` accepts `o`: every field passes its own check. Extra keys are ignored. */
  predicate ProjectFormValid(o: JsObject)
  {
    forall f: ProjectField :: FieldOk(f, Get(o, KeyOf(f)))
  }

  /** The fields among `fields` whose check fails, in order. */
  function IssuesAmong(o: JsObject, fields: seq<ProjectField>): (r: seq<ProjectField>)
    ensures forall f :: f in r <==> f in fields && !FieldOk(f, Get(o, KeyOf(f)))
    decreases |fields|
  {
    if fields == [] then []
    else
      (if FieldOk(fields[0], Get(o, KeyOf(fields[0]))) then [] else [fields[0]])
      + IssuesAmong(o, fields[1..])
  }

  /** Every problem the schema reports for `o`. */
  function ProjectIssues(o: JsObject): seq<ProjectField>
  {
    IssuesAmong(o, SchemaFields)
  }

  /** The schema accepts an object exactly when it reports no problem. */
  lemma ProjectValidIffNoIssues(o: JsObject)
    ensures ProjectFormValid(o) <==> ProjectIssues(o) == []
  {
    AllFieldsListed();
    if ProjectIssues(o) != [] {
      assert ProjectIssues(o)[0] in ProjectIssues(o);
    }
  }

  /**
   * The checks are independent: writing one field's property leaves every
   * other field's verdict as it was.
   */
  lemma FieldsIndependent(o: JsObject, f: ProjectField, v: JsValue)
    ensures forall g :: g != f ==> (g in ProjectIssues(Put(o, KeyOf(f), v)) <==> g in ProjectIssues(o))
    ensures f in ProjectIssues(Put(o, KeyOf(f), v)) <==> !FieldOk(f, Some(v))
  {
    AllFieldsListed();
    forall g | g != f ensures KeyOf(g) != KeyOf(f) {
    }
  }

  /** The rate, price, dates and category are not read as numbers or dates: anything string passes. */
  lemma OptionalFieldsUnchecked(o: JsObject, f: ProjectField, s: string)
    requires ProjectFormValid(o)
    requires f !in {Name, Status, ClientId}
    ensures ProjectFormValid(Put(o, KeyOf(f), Str(s)))
  {
    var o' := Put(o, KeyOf(f), Str(s));
    forall g ensures FieldOk(g, Get(o', KeyOf(g))) {
      if g != f {
        assert KeyOf(g) != KeyOf(f);
        assert FieldOk(g, Get(o, KeyOf(g)));
      }
    }
  }

  /** A concrete accepted submission whose rate and price are not numbers. */
  lemma NonNumericRateAccepted()
    ensures ProjectFormValid([("name", Str("Web")), ("status", Str("in_progress")), ("client_id", Str("client-1")),
                              ("hourly_rate", Str("abc")), ("fixed_price", Str("-"))])
  {
  }

  /** The name check: at least two characters, nothing else. */
  lemma NameRule(o: JsObject)
    ensures Name in ProjectIssues(o) <==> !(Get(o, "name").Some? && Get(o, "name").value.Str? && |Get(o, "name").value.s| >= 2)
  {
  }
}
