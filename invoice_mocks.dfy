// The seed catalogue of invoices shown while no backend is connected
// (src/mocks/invoices.ts). Constant data only; what it satisfies is proved in
// module InvoiceSeedChecks.

module InvoiceMocks {
  import opened Common

  /** One billed line: `quantity` units at `unitPrice` each. */
  datatype InvoiceItem = InvoiceItem(id: string, description: string, quantity: real, unitPrice: real)

  /**
   * A stored invoice. `status` is kept as the string the data carries, so that
   * its membership in the allowed set is something proved rather than assumed.
   * `created_at` is the date string the seed builds its `Date` from.
   */
  datatype MockInvoice = MockInvoice(
    id: string,
    user_id: string,
    client_id: string,
    project_id: string,
    invoice_number: string,
    issue_date: string,
    due_date: string,
    status: string,
    items: seq<InvoiceItem>,
    subtotal: real,
    tax: real,
    total: real,
    notes: Option<string>,
    created_at: string,
    updated_at: string)

  const MockInvoices: seq<MockInvoice> := [
    MockInvoice(
      "inv-001", "user-1", "client-1", "project-1", "INV-2024-001",
      "2024-01-15", "2024-02-15", "paid",
      [ InvoiceItem("item-1", "Diseño de interfaz de usuario", 40.0, 75.0),
        InvoiceItem("item-2", "Desarrollo frontend React", 60.0, 85.0),
        InvoiceItem("item-3", "Integración con API", 20.0, 90.0) ],
      9900.0, 1584.0, 11484.0,
      Some("Pago recibido el 10 de febrero. Gracias por su confianza."),
      "2024-01-15", "2024-02-10T10:30:00Z"),
    MockInvoice(
      "inv-002", "user-1", "client-2", "project-2", "INV-2024-002",
      "2024-02-01", "2024-03-01", "unpaid",
      [ InvoiceItem("item-1", "Desarrollo de aplicación móvil iOS", 120.0, 95.0),
        InvoiceItem("item-2", "Testing y QA", 30.0, 70.0),
        InvoiceItem("item-3", "Deployment a App Store", 10.0, 80.0) ],
      14300.0, 2288.0, 16588.0,
      Some("Incluye soporte post-lanzamiento por 30 días."),
      "2024-02-01", "2024-02-01T09:00:00Z"),
    MockInvoice(
      "inv-003", "user-1", "client-3", "project-3", "INV-2024-003",
      "2023-12-10", "2024-01-10", "overdue",
      [ InvoiceItem("item-1", "Diseño de identidad corporativa", 50.0, 65.0),
        InvoiceItem("item-2", "Manual de marca", 20.0, 55.0) ],
      4350.0, 696.0, 5046.0,
      Some("URGENTE: Factura vencida. Por favor, proceder con el pago."),
      "2023-12-10", "2024-01-20T15:45:00Z"),
    MockInvoice(
      "inv-004", "user-1", "client-4", "project-4", "INV-2024-004",
      "2024-03-05", "2024-04-05", "paid",
      [ InvoiceItem("item-1", "Desarrollo de e-commerce Shopify", 80.0, 100.0),
        InvoiceItem("item-2", "Integración con pasarela de pago", 25.0, 110.0),
        InvoiceItem("item-3", "Configuración de inventario", 15.0, 75.0),
        InvoiceItem("item-4", "Capacitación del equipo", 8.0, 85.0) ],
      12530.0, 2004.8, 14534.8,
      Some("Pago anticipado. Proyecto completado satisfactoriamente."),
      "2024-03-05", "2024-03-01T11:20:00Z"),
    MockInvoice(
      "inv-005", "user-1", "client-5", "project-5", "INV-2024-005",
      "2024-03-20", "2024-04-20", "unpaid",
      [ InvoiceItem("item-1", "Auditoría SEO completa", 30.0, 80.0),
        InvoiceItem("item-2", "Optimización on-page", 40.0, 70.0),
        InvoiceItem("item-3", "Link building", 20.0, 90.0) ],
      7000.0, 1120.0, 8120.0,
      Some("Incluye reporte mensual de métricas por 3 meses."),
      "2024-03-20", "2024-03-20T14:00:00Z")
  ]
}
