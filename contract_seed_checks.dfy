// The contract seed catalogue checked against the new-contract dialog's schema.

module ContractSeedChecks {
  import opened Common
  import opened ContractMocks
  import opened ContractDialog

  /** A stored contract as the dialog's form would hold it. */
  function ContractFormOfSeed(c: MockContract): (f: ContractFormValues)
    ensures ContractPayload(f) == ContractInput(
              c.title, c.client_id, c.project_id, c.description, c.status,
              c.start_date, c.end_date, c.value, c.terms)
  {
    ContractFormValues(
      c.title, c.client_id, Some(c.project_id), Some(c.description),
      c.status, c.start_date, c.end_date, c.value, Some(c.terms))
  }

  lemma SeedIdsDistinct()
    ensures forall i, j :: 0 <= i < j < |MockContracts| ==> MockContracts[i].id != MockContracts[j].id
  {
  }

  lemma SeedStatusesAllowed()
    ensures forall k :: 0 <= k < |MockContracts| ==> MockContracts[k].status in ContractStatuses
  {
  }

  lemma SeedTitlesInRange()
    ensures forall k :: 0 <= k < |MockContracts| ==> 3 <= |MockContracts[k].title| <= 100
  {
  }

  /** Every seed contract, put in the dialog's form, passes `contractFormSchema`. */
  lemma SeedsPassSchema()
    ensures forall k :: 0 <= k < |MockContracts| ==> ContractFormValid(ContractFormOfSeed(MockContracts[k]))
  {
    SeedStatusesAllowed();
    SeedTitlesInRange();
  }
}
