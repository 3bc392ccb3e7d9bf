// The "new contract" dialog (src/components/contract/AddContractDialog.tsx):
// the form schema, its default values, the payload handed to the contract
// store and the submit handler.

module ContractDialog {
  import opened Common
  import opened ContractMocks

  datatype ContractFormValues = ContractFormValues(
    title: string,
    client_id: string,
    project_id: Option<string>,
    description: Option<string>,
    status: string,
    start_date: string,
    end_date: string,
    value: string,
    terms: Option<string>)

  const ContractStatuses: set<string> := {"active", "expired", "pending", "draft"}

  // ---------------------------------------------------------------- schema

  /**
   * `contractFormSchema`: a title of 3 to 100 characters, a client, a known
   * status and non-empty dates and value. Nothing relates the two dates and
   * nothing reads the value as a number; the other three fields are optional.
   */
  predicate ContractFormValid(f: ContractFormValues)
  {
    && 3 <= |f.title| <= 100
    && |f.client_id| >= 1
    && f.status in ContractStatuses
    && |f.start_date| >= 1
    && |f.end_date| >= 1
    && |f.value| >= 1
  }

  datatype ContractField =
    | Title | ClientId | ProjectId | Description | Status | StartDate | EndDate | Value | Terms

  /** Every problem the schema reports, in the order of its fields. */
  function ContractIssues(f: ContractFormValues): seq<ContractField>
  {
    (if |f.title| < 3 || |f.title| > 100 then [Title] else [])
    + (if |f.client_id| < 1 then [ClientId] else [])
    + (if f.status !in ContractStatuses then [Status] else [])
    + (if |f.start_date| < 1 then [StartDate] else [])
    + (if |f.end_date| < 1 then [EndDate] else [])
    + (if |f.value| < 1 then [Value] else [])
  }

  /** The schema accepts a form exactly when it reports nothing, and the optional fields are never reported. */
  lemma ContractValidIffNoIssues(f: ContractFormValues)
    ensures ContractFormValid(f) <==> ContractIssues(f) == []
    ensures ProjectId !in ContractIssues(f) && Description !in ContractIssues(f) && Terms !in ContractIssues(f)
    ensures Title in ContractIssues(f) <==> !(3 <= |f.title| <= 100)
  {
  }

  /**
   * Replacing the dates and the value by any non-empty strings keeps an accepted
   * form accepted: an end before the start, or a value that is not a number,
   * passes.
   */
  lemma NoDateOrderNoNumericValue(f: ContractFormValues, start: string, end: string, value: string)
    requires ContractFormValid(f)
    requires |start| >= 1 && |end| >= 1 && |value| >= 1
    ensures ContractFormValid(f.(start_date := start, end_date := end, value := value))
  {
  }

  /** The form's `defaultValues`. */
  const DefaultContractValues: ContractFormValues :=
    ContractFormValues("", "", Some(""), Some(""), "draft", "", "", "", Some(""))

  /** An untouched form starts as a draft and is refused for its title, client, dates and value only. */
  lemma DefaultContractIssues()
    ensures DefaultContractValues.status == "draft" && DefaultContractValues.status in ContractStatuses
    ensures ContractIssues(DefaultContractValues) == [Title, ClientId, StartDate, EndDate, Value]
  {
  }

  // ---------------------------------------------------------------- payload

  /** The record `onSubmit` hands to `createContract`. */
  datatype ContractInput = ContractInput(
    title: string,
    client_id: string,
    project_id: string,
    description: string,
    status: string,
    start_date: string,
    end_date: string,
    value: string,
    terms: string)

  /** The `createContract` argument: the optional fields become '' when absent, the rest is copied. */
  function ContractPayload(data: ContractFormValues): (p: ContractInput)
    ensures p.project_id == "" <==> data.project_id.None? || data.project_id.value == ""
    ensures p.description == "" <==> data.description.None? || data.description.value == ""
    ensures p.terms == "" <==> data.terms.None? || data.terms.value == ""
  {
    ContractInput(
      data.title, data.client_id, OrEmpty(data.project_id), OrEmpty(data.description),
      data.status, data.start_date, data.end_date, data.value, OrEmpty(data.terms))
  }

  /** A payload read back as form values, every optional field present. */
  function ContractFormOf(p: ContractInput): ContractFormValues
  {
    ContractFormValues(
      p.title, p.client_id, Some(p.project_id), Some(p.description),
      p.status, p.start_date, p.end_date, p.value, Some(p.terms))
  }

  /** Absent optional fields as ''. */
  function NormalizeOptionals(f: ContractFormValues): ContractFormValues
  {
    f.(project_id := Some(OrEmpty(f.project_id)),
       description := Some(OrEmpty(f.description)),
       terms := Some(OrEmpty(f.terms)))
  }

  /** Reading a payload back and sending it again gives the same payload. */
  lemma PayloadOfFormOf(p: ContractInput)
    ensures ContractPayload(ContractFormOf(p)) == p
  {
  }

  /** Sending a form and reading the payload back loses only the absent/empty distinction of the optional fields. */
  lemma FormOfPayload(f: ContractFormValues)
    ensures ContractFormOf(ContractPayload(f)) == NormalizeOptionals(f)
  {
  }

  /** The payload mapping neither makes a form acceptable nor unacceptable. */
  lemma PayloadKeepsValidity(f: ContractFormValues)
    ensures ContractFormValid(ContractFormOf(ContractPayload(f))) <==> ContractFormValid(f)
  {
  }

  // ---------------------------------------------------------------- submit

  class ContractDialogState {
    var open: bool
    var isSubmitting: bool
    var effects: seq<Effect>

    constructor ()
      ensures !open && !isSubmitting && effects == []
    {
      open := false;
      isSubmitting := false;
      effects := [];
    }

    /**
     * `onSubmit`, run only on data the schema accepted. `created` is what the
     * contract store returned, or None when it threw. On success the callback
     * (if any) runs, `contracts-updated` is signalled, the form is reset and the
     * dialog closes; on failure only the store call happened.
     */
    method OnSubmit(data: ContractFormValues, created: Option<MockContract>, hasCallback: bool)
      returns (sent: ContractInput)
      requires ContractFormValid(data)
      modifies this
      ensures !isSubmitting
      ensures sent == ContractPayload(data)
      ensures created.Some? ==>
        && !open
        && effects == old(effects) + [StoreCalled]
                      + (if hasCallback then [CallbackInvoked] else [])
                      + [Signal("contracts-updated"), FormReset]
      ensures created.None? ==> open == old(open) && effects == old(effects) + [StoreCalled]
    {
      isSubmitting := true;
      sent := ContractPayload(data);
      effects := effects + [StoreCalled];
      if created.Some? {
        if hasCallback {
          effects := effects + [CallbackInvoked];
        }
        effects := effects + [Signal("contracts-updated"), FormReset];
        open := false;
      }
      isSubmitting := false;
    }
  }
}
