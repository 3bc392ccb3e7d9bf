// The seed catalogue of contracts (src/mocks/contracts.ts). Constant data
// only; module ContractSeedChecks proves what it satisfies.

module ContractMocks {

  /**
   * A stored contract. `status` and `value` stay strings as in the data;
   * `created_at` is the date string the seed builds its `Date` from.
   */
  datatype MockContract = MockContract(
    id: string,
    user_id: string,
    client_id: string,
    project_id: string,
    title: string,
    description: string,
    status: string,
    start_date: string,
    end_date: string,
    value: string,
    terms: string,
    created_at: string,
    updated_at: string)

  const MockContracts: seq<MockContract> := [
    MockContract(
      "ct-001", "user-1", "client-1", "project-1",
      "Website Redesign Contract",
      "Full website redesign including UI/UX design, frontend development, and responsive implementation",
      "active", "2024-10-01T00:00:00Z", "2024-12-31T00:00:00Z", "15000",
      "Payment in 3 milestones: 50% upfront, 30% mid-project, 20% on completion. All source code delivered upon final payment.",
      "2024-09-25", "2024-11-15T10:00:00Z"),
    MockContract(
      "ct-002", "user-1", "client-2", "project-2",
      "Mobile App Development Agreement",
      "Native iOS and Android application development with backend API integration",
      "active", "2024-09-15T00:00:00Z", "2025-03-15T00:00:00Z", "50000",
      "Fixed price project with monthly billing. Includes 3 months post-launch support and maintenance.",
      "2024-09-10", "2024-11-14T14:30:00Z"),
    MockContract(
      "ct-003", "user-1", "client-3", "project-3",
      "Brand Identity Package Contract",
      "Complete brand identity including logo design, brand guidelines, and marketing materials",
      "expired", "2024-08-01T00:00:00Z", "2024-10-15T00:00:00Z", "8500",
      "All deliverables include unlimited revisions within scope. Final files delivered in vector and raster formats.",
      "2024-07-28", "2024-10-15T16:45:00Z"),
    MockContract(
      "ct-004", "user-1", "client-4", "project-4",
      "E-commerce Platform Development",
      "Custom e-commerce solution with payment gateway integration and admin dashboard",
      "active", "2024-11-01T00:00:00Z", "2025-02-28T00:00:00Z", "35000",
      "Hourly rate of $85/hr with weekly invoicing. Estimated 400-450 hours total. Includes training and documentation.",
      "2024-10-28", "2024-11-18T09:15:00Z"),
    MockContract(
      "ct-005", "user-1", "client-5", "project-5",
      "SEO Optimization Services Agreement",
      "Comprehensive SEO audit, strategy development, and ongoing optimization",
      "pending", "2024-12-01T00:00:00Z", "2025-01-31T00:00:00Z", "4500",
      "Monthly retainer with detailed reporting. 3-month minimum commitment. Results-driven approach with KPI tracking.",
      "2024-11-10", "2024-11-10T11:20:00Z")
  ]
}
