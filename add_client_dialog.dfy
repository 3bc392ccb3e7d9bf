// The "new client" dialog (src/components/client/AddClientDialog.tsx): the
// record its submit handler hands to the client store, and the handler's
// steps.

module AddClientDialog {
  import opened Common

  /** What the client form submits: a name and five optional strings. */
  datatype ClientFormValues = ClientFormValues(
    name: string,
    email: Option<string>,
    phone: Option<string>,
    company: Option<string>,
    address: Option<string>,
    notes: Option<string>)

  /** The record `createClient` receives: six strings, none of them undefined. */
  datatype ClientInput = ClientInput(
    name: string,
    email: string,
    phone: string,
    company: string,
    address: string,
    notes: string)

  /** `s || ''` keeps a present, non-empty string and turns everything else into ''. */
  lemma OrEmptyMeaning(o: Option<string>)
    ensures OrEmpty(o) == "" <==> o.None? || o.value == ""
    ensures OrEmpty(o) != "" ==> o == Some(OrEmpty(o))
  {
  }

  /** The `createClient` argument built in `handleSubmit`. */
  function ClientPayload(values: ClientFormValues): (p: ClientInput)
    ensures p.name == values.name
    ensures p.email == "" <==> values.email.None? || values.email.value == ""
    ensures p.phone == "" <==> values.phone.None? || values.phone.value == ""
    ensures p.company == "" <==> values.company.None? || values.company.value == ""
    ensures p.address == "" <==> values.address.None? || values.address.value == ""
    ensures p.notes == "" <==> values.notes.None? || values.notes.value == ""
  {
    ClientInput(
      values.name, OrEmpty(values.email), OrEmpty(values.phone),
      OrEmpty(values.company), OrEmpty(values.address), OrEmpty(values.notes))
  }

  /** A stored client read back as form values, every optional field present. */
  function ClientFormOf(p: ClientInput): ClientFormValues
  {
    ClientFormValues(p.name, Some(p.email), Some(p.phone), Some(p.company), Some(p.address), Some(p.notes))
  }

  /** Absent optional fields as ''. */
  function NormalizeClient(v: ClientFormValues): ClientFormValues
  {
    ClientFormValues(
      v.name, Some(OrEmpty(v.email)), Some(OrEmpty(v.phone)),
      Some(OrEmpty(v.company)), Some(OrEmpty(v.address)), Some(OrEmpty(v.notes)))
  }

  /** Reading a payload back and submitting it again gives the same payload. */
  lemma PayloadOfFormOf(p: ClientInput)
    ensures ClientPayload(ClientFormOf(p)) == p
  {
  }

  /** Submitting and reading back loses only the absent/empty distinction. */
  lemma FormOfPayload(v: ClientFormValues)
    ensures ClientFormOf(ClientPayload(v)) == NormalizeClient(v)
  {
  }

  /** Two submissions give the same payload exactly when they agree up to that distinction. */
  lemma PayloadEqualIff(v: ClientFormValues, w: ClientFormValues)
    ensures ClientPayload(v) == ClientPayload(w) <==> NormalizeClient(v) == NormalizeClient(w)
  {
    FormOfPayload(v);
    FormOfPayload(w);
  }

  class ClientDialogState {
    var open: bool
    var isSubmitting: bool
    var effects: seq<Effect>

    constructor ()
      ensures !open && !isSubmitting && effects == []
    {
      open := false;
      isSubmitting := false;
      effects := [];
    }

    /**
     * `handleSubmit`. `created` says whether `createClient` returned (true) or
     * threw (false). Only after it returns do the callback (if any), the
     * `clients-updated` signal, closing and the router refresh happen, in that
     * order; when it throws the dialog stays as it was.
     */
    method HandleSubmit(values: ClientFormValues, created: bool, hasCallback: bool)
      returns (sent: ClientInput)
      modifies this
      ensures !isSubmitting
      ensures sent == ClientPayload(values)
      ensures created ==>
        && !open
        && effects == old(effects) + [StoreCalled]
                      + (if hasCallback then [CallbackInvoked] else [])
                      + [Signal("clients-updated"), RouterRefresh]
      ensures !created ==> open == old(open) && effects == old(effects) + [StoreCalled]
    {
      isSubmitting := true;
      sent := ClientPayload(values);
      effects := effects + [StoreCalled];
      if created {
        if hasCallback {
          effects := effects + [CallbackInvoked];
        }
        effects := effects + [Signal("clients-updated")];
        open := false;
        effects := effects + [RouterRefresh];
      }
      isSubmitting := false;
    }
  }
}
