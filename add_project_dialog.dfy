// The "new project" dialog (src/components/projects/AddProjectDialog.tsx):
// the FormData its submit handler builds from the submitted values, the
// handler itself, and the empty client list it gives the form.

module AddProjectDialog {
  import opened Common
  import opened JsObjects
  import opened ProjectValidation
  import opened ProjectForm

  // ---------------------------------------------------------------- FormData

  /** What one property contributes: its string when it holds one, nothing for `undefined` or `null`. */
  function EntryData(e: Entry): seq<(string, string)>
  {
    match e.1
    case Str(s) => [(e.0, s)]
    case _ => []
  }

  /** The FormData entries for `values`: one per property that is neither `undefined` nor `null`, in order. */
  function FormDataEntries(values: JsObject): (r: seq<(string, string)>)
    ensures |r| <= |values|
    ensures forall i :: 0 <= i < |r| ==> (r[i].0, Str(r[i].1)) in values
    decreases |values|
  {
    if values == [] then []
    else FormDataEntries(values[..|values| - 1]) + EntryData(values[|values| - 1])
  }

  /**
   * The `Object.entries(values).forEach(...)` loop of `handleSubmit`: each
   * property whose value is defined is appended as `key`, `value.toString()`.
   */
  method BuildFormData(values: JsObject) returns (formData: seq<(string, string)>)
    ensures formData == FormDataEntries(values)
  {
    formData := [];
    var i := 0;
    while i < |values|
      invariant 0 <= i <= |values|
      invariant formData == FormDataEntries(values[..i])
    {
      var (key, value) := values[i];
      if value != Undefined && value != Null {
        formData := formData + [(key, value.s)];
      }
      assert values[..i + 1][..i] == values[..i];
      i := i + 1;
    }
    assert values[..|values|] == values;
  }

  /** An entry is in the FormData exactly when some property holds that key and that string. */
  lemma {:induction false} FormDataHas(values: JsObject, k: string, s: string)
    ensures (k, s) in FormDataEntries(values) <==> exists i :: 0 <= i < |values| && values[i] == (k, Str(s))
    decreases |values|
  {
    if values != [] {
      var front := values[..|values| - 1];
      FormDataHas(front, k, s);
      assert forall i :: 0 <= i < |front| ==> front[i] == values[i];
    }
  }

  /**
   * For an object (distinct keys) the FormData holds `(k, s)` exactly when
   * `values[k]` is the string `s`: one entry for each defined key, empty
   * strings included, and none for a key that is missing, `undefined` or `null`.
   */
  lemma FormDataMatchesValues(values: JsObject, k: string, s: string)
    requires DistinctKeys(values)
    ensures (k, s) in FormDataEntries(values) <==> Get(values, k) == Some(Str(s))
  {
    FormDataHas(values, k, s);
    GetFound(values, k);
    if Get(values, k).Some? {
      var i :| 0 <= i < |values| && values[i].0 == k;
      GetEntry(values, i);
    }
    if (k, s) in FormDataEntries(values) {
      var i :| 0 <= i < |values| && values[i] == (k, Str(s));
      GetEntry(values, i);
    }
  }

  /** No key is appended twice, and no key outside `values` appears. */
  lemma {:induction false} FormDataKeysDistinct(values: JsObject)
    requires DistinctKeys(values)
    ensures forall i, j :: 0 <= i < j < |FormDataEntries(values)| ==> FormDataEntries(values)[i].0 != FormDataEntries(values)[j].0
    ensures forall j :: 0 <= j < |FormDataEntries(values)| ==> Get(values, FormDataEntries(values)[j].0).Some?
    decreases |values|
  {
    if values != [] {
      var front := values[..|values| - 1];
      var last := values[|values| - 1];
      var fd := FormDataEntries(values);
      var ff := FormDataEntries(front);
      assert DistinctKeys(front);
      FormDataKeysDistinct(front);
      assert fd == ff + EntryData(last);
      forall j | 0 <= j < |ff| ensures ff[j].0 != last.0 && Get(values, ff[j].0).Some? {
        GetFound(front, ff[j].0);
        var i :| 0 <= i < |front| && front[i].0 == ff[j].0;
        assert values[i] == front[i];
        GetFound(values, ff[j].0);
      }
      GetFound(values, last.0);
    }
  }

  // ---------------------------------------------------------------- clients

  datatype ClientOption = ClientOption(id: string, name: string)

  /** The client list the dialog hands to the form: empty. */
  const Clients: seq<ClientOption> := []

  /** A change the user makes to one field of the form. */
  datatype FormEdit = FormEdit(key: string, value: JsValue)

  /** The client field can only be set through its select, whose options are `clients`. */
  predicate EditPossible(e: FormEdit, clients: seq<ClientOption>)
  {
    e.key == "client_id" ==> exists c :: c in clients && e.value == Str(c.id)
  }

  function ApplyEdits(o: JsObject, edits: seq<FormEdit>): JsObject
    decreases |edits|
  {
    if edits == [] then o else ApplyEdits(Put(o, edits[0].key, edits[0].value), edits[1..])
  }

  /** With no client to choose, no edit reaches `client_id`. */
  lemma {:induction false} ClientIdUntouched(o: JsObject, edits: seq<FormEdit>)
    requires forall i :: 0 <= i < |edits| ==> EditPossible(edits[i], Clients)
    ensures Get(ApplyEdits(o, edits), "client_id") == Get(o, "client_id")
    decreases |edits|
  {
    if edits != [] {
      assert EditPossible(edits[0], Clients);
      ClientIdUntouched(Put(o, edits[0].key, edits[0].value), edits[1..]);
    }
  }

  /** A form whose client is still '' stays refused, whatever the user types. */
  lemma NoClientNoSubmission(o: JsObject, edits: seq<FormEdit>)
    requires Get(o, "client_id") == Some(Str(""))
    requires forall i :: 0 <= i < |edits| ==> EditPossible(edits[i], Clients)
    ensures !ProjectFormValid(ApplyEdits(o, edits))
  {
    ClientIdUntouched(o, edits);
    assert !FieldOk(ClientId, Get(ApplyEdits(o, edits), KeyOf(ClientId)));
  }

  lemma ClientDefaultEmpty()
    ensures Get(FormDefaults(None), "client_id") == Some(Str(""))
  {
    DefaultsWithoutOverrides();
  }

  /** Whatever the user types, the form opened by this dialog never passes `projectFormSchema`. */
  lemma NoProjectCanBeSubmitted(edits: seq<FormEdit>)
    requires forall i :: 0 <= i < |edits| ==> EditPossible(edits[i], Clients)
    ensures !ProjectFormValid(ApplyEdits(FormDefaults(None), edits))
  {
    var d := FormDefaults(None);
    ClientDefaultEmpty();
    NoClientNoSubmission(d, edits);
    assert !ProjectFormValid(ApplyEdits(d, edits));
  }

  // ---------------------------------------------------------------- submit

  class ProjectDialogState {
    var open: bool
    var isSubmitting: bool
    var effects: seq<Effect>

    constructor ()
      ensures !open && !isSubmitting && effects == []
    {
      open := false;
      isSubmitting := false;
      effects := [];
    }

    /**
     * `handleSubmit`: build the FormData, await the server action (whose
     * outcome is `actionSucceeds`), then close and refresh; on failure the
     * dialog stays as it was.
     */
    method HandleSubmit(values: JsObject, actionSucceeds: bool) returns (sent: seq<(string, string)>)
      modifies this
      ensures !isSubmitting
      ensures sent == FormDataEntries(values)
      ensures actionSucceeds ==> !open && effects == old(effects) + [StoreCalled, RouterRefresh]
      ensures !actionSucceeds ==> open == old(open) && effects == old(effects) + [StoreCalled]
    {
      isSubmitting := true;
      sent := BuildFormData(values);
      effects := effects + [StoreCalled];
      if actionSucceeds {
        open := false;
        effects := effects + [RouterRefresh];
      }
      isSubmitting := false;
    }
  }
}
