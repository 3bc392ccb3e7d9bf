# freelancer-pro dashboard core in Dafny

This project models the logic in the freelancer-pro dashboard (a Next.js/TypeScript
app) that runs in the browser, and proves properties about it. It covers:

- **Invoices**: the "new invoice" dialog. This means its zod schema (reported as a
  list of issues), its default values, the live subtotal / 16 % IVA / total, the
  item field array (add, remove with a last-row guard, edit, reset), the payload
  handed to `createInvoice`, and the submit and cancel handlers. Also the five
  seed invoices and checks of their data.
- **Contracts**: the "new contract" dialog (schema, defaults, `createContract`
  payload, submit handler) and the five seed contracts.
- **Projects**:
  - `projectFormSchema` as a validator over a JavaScript object;
  - the project form's default values, built with object spread;
  - the `FormData` loop of the "new project" dialog and its submit handler;
  - a proof that with the dialog's empty client list the form can never be
    submitted.
- **Clients**: the `createClient` payload of the "new client" dialog and its
  submit handler.
- **Layout**:
  - the sidebar provider's `isOpen`/`isMobile` machine, whose effect re-runs on
    every change of `isOpen`, and the `useSidebar` guard;
  - the header's theme toggle and its `isDarkMode` flag;
  - the sidebar's exact-match active-link rule and its collapsing width classes.

Modules follow the source files:

| module | file |
|---|---|
| `Common` | shared: `Option`, `Result`, `x \|\| ''`, `${n}`, the observable effects of a handler |
| `InvoiceMocks`, `InvoiceSeedChecks` | src/mocks/invoices.ts |
| `InvoiceDialog` | src/components/invoice/AddInvoiceDialog.tsx |
| `ContractMocks`, `ContractSeedChecks` | src/mocks/contracts.ts |
| `ContractDialog` | src/components/contract/AddContractDialog.tsx |
| `JsObjects` | object properties, `o[k] = v`, `{...a, ...b}`: the JavaScript semantics the project form relies on |
| `ProjectValidation` | src/validations/project.ts |
| `ProjectForm` | src/components/projects/ProjectForm.tsx |
| `AddProjectDialog` | src/components/projects/AddProjectDialog.tsx |
| `AddClientDialog` | src/components/client/AddClientDialog.tsx |
| `SidebarProvider` | src/providers/sidebar-provider.tsx |
| `Header` | src/components/layout/header.tsx |
| `SidebarNav` | src/components/layout/sidebar.tsx |

How the model represents things:

- **Money** is Dafny `real`, so `subtotal * 0.16` is exact.
- **Form values** are datatypes. A field that may be absent is an `Option`.
- **The object the project form submits** is an ordered list of properties,
  because `Object.entries` and spread follow insertion order.
- **UI state** lives in classes. React state setters become field updates, and
  the observable steps of a handler are logged in an `effects` sequence: store
  call, parent callback, window event, form reset, router refresh.
- **Outside inputs** are parameters of the steps that use them: what a store
  call returns or whether it throws, the window width, and `Date.now()`.

## Model

| member | source | states |
|---|---|---|
| `Common.Decimal` | src/components/invoice/AddInvoiceDialog.tsx:124 | the rendering of `Date.now()` inside an item id is a non-empty string of decimal digits without a leading zero that reads back, digit by digit, as the number rendered |
| `Common.DecimalInjective` | src/components/invoice/AddInvoiceDialog.tsx:124 | two numbers render alike exactly when they are equal |
| `InvoiceDialog.ItemValid` | src/components/invoice/AddInvoiceDialog.tsx:50-55 | the item schema: non-empty description, quantity present and at least 1, unit price present and at least 0 |
| `InvoiceDialog.InvoiceFormValid` | src/components/invoice/AddInvoiceDialog.tsx:57-74 | the form schema: client, project, number and both dates non-empty, status paid/unpaid/overdue, at least one item, every item valid; notes free |
| `InvoiceDialog.ItemIssuesEmptyIff` | src/components/invoice/AddInvoiceDialog.tsx:50-55 | the item schema reports no issue for a list of rows exactly when every row has a description, quantity at least 1 and unit price at least 0 |
| `InvoiceDialog.DescriptionIssueLocated` | src/components/invoice/AddInvoiceDialog.tsx:52 | a row with an empty description produces a description issue carrying that row's own index |
| `InvoiceDialog.InvoiceValidIffNoIssues` | src/components/invoice/AddInvoiceDialog.tsx:57-74 | `invoiceFormSchema` accepts the form exactly when the collected issue list is empty |
| `InvoiceDialog.BlankRow` | src/components/invoice/AddInvoiceDialog.tsx:95-102 | the default row (quantity 1, price 0, empty description) is refused only for its description |
| `InvoiceDialog.DefaultFormIssues` | src/components/invoice/AddInvoiceDialog.tsx:86-105 | the untouched form is refused for client, project, number, both dates and the first row's description, and for nothing else |
| `InvoiceDialog.OrZero` | src/components/invoice/AddInvoiceDialog.tsx:116 | `x \|\| 0` on a watched number: the number when present, 0 when the input is empty |
| `InvoiceDialog.RowAmount` | src/components/invoice/AddInvoiceDialog.tsx:116 | a row's amount is 0 when either input is empty, and never negative for a row the item schema accepts |
| `InvoiceDialog.ReduceAmounts` | src/components/invoice/AddInvoiceDialog.tsx:114-118 | the `reduce` over the watched rows, as a left fold from the accumulator; `ReduceIsSum` ties it to the sum of row amounts |
| `InvoiceDialog.SumOfRowsCons` | src/components/invoice/AddInvoiceDialog.tsx:114-118 | the sum of row amounts splits over its first row |
| `InvoiceDialog.ReduceIsSum` | src/components/invoice/AddInvoiceDialog.tsx:114-118 | the left `reduce` with accumulator `acc` equals `acc` plus the sum of the row amounts |
| `InvoiceDialog.LiveTotals` | src/components/invoice/AddInvoiceDialog.tsx:113-120 | subtotal is the sum of `(quantity \|\| 0) * (unitPrice \|\| 0)` (0 when nothing is watched), tax is 16 % of it, total is subtotal plus tax, which is 116 % of subtotal |
| `InvoiceDialog.SumOfRowsNonNegative` | src/components/invoice/AddInvoiceDialog.tsx:53-54 | rows within the schema's bounds never sum to a negative amount |
| `InvoiceDialog.TotalsNonNegative` | src/components/invoice/AddInvoiceDialog.tsx:119-120 | for valid rows subtotal and tax are non-negative and the total is at least the subtotal |
| `InvoiceDialog.AddingBlankRowKeepsTotals` | src/components/invoice/AddInvoiceDialog.tsx:122-129 | appending the blank row (price 0) leaves subtotal, tax and total unchanged |
| `InvoiceDialog.NewItemIdInjective` | src/components/invoice/AddInvoiceDialog.tsx:124 | rows added at different milliseconds get different ids |
| `InvoiceDialog.ItemFieldArray.constructor` | src/components/invoice/AddInvoiceDialog.tsx:95-102 | the field array starts with the single default row |
| `InvoiceDialog.ItemFieldArray.AddItem` | src/components/invoice/AddInvoiceDialog.tsx:122-129 | `append` adds one blank row with id `item-<now>` at the end and keeps every other row |
| `InvoiceDialog.ItemFieldArray.RemoveClicked` | src/components/invoice/AddInvoiceDialog.tsx:399-400 | the remove button does nothing on the last remaining row; otherwise exactly the clicked row is removed, the order of the others kept, so at least one row always remains |
| `InvoiceDialog.ItemFieldArray.EditRow` | src/components/invoice/AddInvoiceDialog.tsx:333-383 | typing into a row's description, quantity or price replaces only that row, whose id is kept |
| `InvoiceDialog.ItemFieldArray.Reset` | src/components/invoice/AddInvoiceDialog.tsx:162 | `form.reset()` restores the single default row |
| `InvoiceDialog.ToItem` | src/components/invoice/AddInvoiceDialog.tsx:142 | a validated row becomes a stored item that reads back as the same row |
| `InvoiceDialog.CreatePayload` | src/components/invoice/AddInvoiceDialog.tsx:135-147 | the `createInvoice` argument copies client, project, number, both dates and the (allowed) status, carries every row unchanged and in order, keeps notes that are present and has empty notes exactly when they were absent or empty, and has zero subtotal, tax and total |
| `InvoiceDialog.FormOfCreatePayload` | src/components/invoice/AddInvoiceDialog.tsx:135-147 | reading the payload back as form values gives the submitted form with absent notes read as '' |
| `InvoiceDialog.CreatePayloadOfForm` | src/components/invoice/AddInvoiceDialog.tsx:135-147 | every zero-total payload whose form the schema accepts is the payload of that form |
| `InvoiceDialog.CreatePayloadInjective` | src/components/invoice/AddInvoiceDialog.tsx:135-147 | two forms give the same payload exactly when they agree once absent notes are read as '' |
| `InvoiceDialog.InvoiceDialogState.constructor` | src/components/invoice/AddInvoiceDialog.tsx:83-110 | the dialog starts closed, not submitting, with the default row |
| `InvoiceDialog.InvoiceDialogState.OnSubmit` | src/components/invoice/AddInvoiceDialog.tsx:131-173 | the payload sent; on success the callback if any, then `invoices-updated`, reset and close, in that order; on a throw only the store call; `isSubmitting` false at the end |
| `InvoiceDialog.InvoiceDialogState.Cancel` | src/components/invoice/AddInvoiceDialog.tsx:452-455 | cancel resets the form to the default row and closes the dialog |
| `InvoiceSeedChecks.SeedIdsDistinct` | src/mocks/invoices.ts:30-211 | the five seed invoices have distinct ids |
| `InvoiceSeedChecks.SeedItemIdsDistinct` | src/mocks/invoices.ts:30-211 | within each seed invoice item ids are distinct |
| `InvoiceSeedChecks.SeedItemsSatisfySchema` | src/mocks/invoices.ts:30-211 | every seed item passes the dialog's item schema |
| `InvoiceSeedChecks.SeedStatusesAllowed` | src/mocks/invoices.ts:30-211 | every seed status is one of paid/unpaid/overdue |
| `InvoiceSeedChecks.SeedTaxAndTotalConsistent` | src/mocks/invoices.ts:60-62 | in every seed, tax is 16 % of subtotal and total is subtotal plus tax |
| `InvoiceSeedChecks.DialogSubtotalOfItems` | src/components/invoice/AddInvoiceDialog.tsx:113-118 | the dialog's subtotal rule, applied to a stored invoice's items read as rows, equals the reference sum of quantity times unit price |
| `InvoiceSeedChecks.SeedItemsSum` | src/mocks/invoices.ts:30-211 | the item amounts of the five seeds sum to 9900, 14300, 4350, 12555 and 7000 |
| `InvoiceSeedChecks.SeedSubtotalsAgainstItems` | src/mocks/invoices.ts:168 | every seed's subtotal equals its items' sum except inv-004, whose items sum to 12555 while its subtotal says 12530 |
| `InvoiceSeedChecks.WithTotalsFromItems` | src/mocks/invoices.ts:168-170 | recomputed totals are consistent with the items and nothing but the three totals changes |
| `InvoiceSeedChecks.CorrectedInv004` | src/mocks/invoices.ts:168-170 | corrected inv-004 has subtotal 12555, tax 2008.8, total 14563.8 |
| `InvoiceSeedChecks.CorrectedSeedsConsistent` | src/mocks/invoices.ts:30-211 | in the corrected catalogue every subtotal matches its items and every tax and total is consistent |
| `ContractDialog.ContractFormValid` | src/components/contract/AddContractDialog.tsx:42-57 | the contract schema: title of 3 to 100 characters, client, both dates and value non-empty, status active/expired/pending/draft; project, description and terms free |
| `ContractDialog.ContractValidIffNoIssues` | src/components/contract/AddContractDialog.tsx:42-57 | `contractFormSchema` accepts exactly when no issue is reported; the optional fields are never reported; title is reported exactly when its length is outside 3..100 |
| `ContractDialog.NoDateOrderNoNumericValue` | src/components/contract/AddContractDialog.tsx:42-57 | any non-empty dates and value keep an accepted form accepted: an end before the start or a non-numeric value passes |
| `ContractDialog.DefaultContractIssues` | src/components/contract/AddContractDialog.tsx:71-84 | the untouched form is a draft and is refused for title, client, both dates and value only |
| `ContractDialog.ContractPayload` | src/components/contract/AddContractDialog.tsx:90-100 | each optional field is '' in the payload exactly when it was absent or empty |
| `ContractDialog.PayloadOfFormOf` | src/components/contract/AddContractDialog.tsx:90-100 | payload to form to payload is the identity |
| `ContractDialog.FormOfPayload` | src/components/contract/AddContractDialog.tsx:90-100 | form to payload to form loses only the absent/empty distinction |
| `ContractDialog.PayloadKeepsValidity` | src/components/contract/AddContractDialog.tsx:90-100 | the payload mapping preserves schema acceptance in both directions |
| `ContractDialog.ContractDialogState.constructor` | src/components/contract/AddContractDialog.tsx:60-84 | the dialog starts closed and not submitting |
| `ContractDialog.ContractDialogState.OnSubmit` | src/components/contract/AddContractDialog.tsx:86-126 | the payload sent; on success the callback if any, `contracts-updated`, reset, close; on a throw only the store call |
| `ContractSeedChecks.ContractFormOfSeed` | src/mocks/contracts.ts:7-21 | a seed read as form values yields a payload equal to the seed's own fields |
| `ContractSeedChecks.SeedIdsDistinct` | src/mocks/contracts.ts:24-110 | the five seed contracts have distinct ids |
| `ContractSeedChecks.SeedStatusesAllowed` | src/mocks/contracts.ts:24-110 | every seed status is one the dialog's schema allows |
| `ContractSeedChecks.SeedTitlesInRange` | src/mocks/contracts.ts:24-110 | every seed title has 3 to 100 characters |
| `ContractSeedChecks.SeedsPassSchema` | src/mocks/contracts.ts:24-110 | every seed, read as form values, passes `contractFormSchema` |
| `JsObjects.GetFound` | src/components/projects/ProjectForm.tsx:55-64 | a property lookup succeeds exactly when some property has that key |
| `JsObjects.GetEntry` | src/components/projects/ProjectForm.tsx:55-64 | in an object with distinct keys, each property is what lookup of its key returns |
| `JsObjects.Put` | src/components/projects/ProjectForm.tsx:63 | after writing `k`, `k` holds the new value and every other key keeps its value |
| `JsObjects.PutShape` | src/components/projects/ProjectForm.tsx:63 | a new key is appended last, an existing key keeps the object's size, and keys stay distinct |
| `JsObjects.PutSame` | src/components/projects/ProjectForm.tsx:63 | writing the value a key already holds changes nothing |
| `JsObjects.Spread` | src/components/projects/ProjectForm.tsx:55-64 | `{...base, ...over}` as successive writes of `over`'s properties onto `base`; `SpreadGet` states the resulting lookups |
| `JsObjects.SpreadGet` | src/components/projects/ProjectForm.tsx:55-64 | after `{...base, ...over}` a key of `over` has `over`'s value, every other key has `base`'s, and keys stay distinct |
| `JsObjects.SpreadAlreadyApplied` | src/components/projects/ProjectForm.tsx:63 | spreading an object into one that already holds all its values changes nothing |
| `JsObjects.SpreadIdempotent` | src/components/projects/ProjectForm.tsx:63 | spreading the same object twice equals spreading it once |
| `ProjectValidation.FieldOk` | src/validations/project.ts:4-14 | one field's check: name a string of at least 2 characters, client a non-empty string, status one of the four, every other field missing, `undefined` or a string (`null` refused) |
| `ProjectValidation.ProjectFormValid` | src/validations/project.ts:3-15 | `projectFormSchema` accepts an object exactly when every field passes its check |
| `ProjectValidation.AllFieldsListed` | src/validations/project.ts:3-15 | the schema's field list covers all nine fields |
| `ProjectValidation.IssuesAmong` | src/validations/project.ts:3-15 | a field is reported exactly when it is among those checked and its value fails its check |
| `ProjectValidation.ProjectValidIffNoIssues` | src/validations/project.ts:3-15 | `projectFormSchema` accepts an object exactly when nothing is reported |
| `ProjectValidation.FieldsIndependent` | src/validations/project.ts:3-15 | writing one field changes only that field's verdict, which is then the verdict on the written value |
| `ProjectValidation.OptionalFieldsUnchecked` | src/validations/project.ts:7-14 | any string in description, rate, price, dates or category keeps an accepted object accepted |
| `ProjectValidation.NonNumericRateAccepted` | src/validations/project.ts:10-11 | a submission whose rate and price are not numbers is accepted |
| `ProjectValidation.NameRule` | src/validations/project.ts:4-6 | the name is reported exactly when it is not a string of at least two characters |
| `ProjectForm.FormDefaults` | src/components/projects/ProjectForm.tsx:55-64 | each key has the caller's value when the caller supplies it (even `undefined`) and the literal default otherwise; keys are distinct |
| `ProjectForm.DefaultsWithoutOverrides` | src/components/projects/ProjectForm.tsx:55-64 | without `defaultValues`: six empty strings, status `not_started`, no dates |
| `ProjectForm.DatesOnlyIfSupplied` | src/components/projects/ProjectForm.tsx:55-64 | start and end dates exist only when the caller supplies them, with the caller's value |
| `ProjectForm.MergeIdempotent` | src/components/projects/ProjectForm.tsx:63 | spreading the same `defaultValues` over the result again changes nothing |
| `ProjectForm.DefaultsRefused` | src/components/projects/ProjectForm.tsx:53-65 | the untouched form is refused for name and client and for nothing else |
| `AddProjectDialog.FormDataEntries` | src/components/projects/AddProjectDialog.tsx:65-70 | the reference FormData: at most one entry per property, each entry a property of the values holding that string |
| `AddProjectDialog.BuildFormData` | src/components/projects/AddProjectDialog.tsx:65-70 | the loop appends exactly the entries of the reference `FormDataEntries`: the defined properties in order |
| `AddProjectDialog.FormDataHas` | src/components/projects/AddProjectDialog.tsx:65-70 | `(k, s)` is appended exactly when some property holds key `k` and string `s` |
| `AddProjectDialog.FormDataMatchesValues` | src/components/projects/AddProjectDialog.tsx:66-69 | for an object, `(k, s)` is appended exactly when `values[k]` is `s`; empty strings are kept, missing, `undefined` and `null` are dropped |
| `AddProjectDialog.FormDataKeysDistinct` | src/components/projects/AddProjectDialog.tsx:65-70 | no key is appended twice and every appended key is a key of the values |
| `AddProjectDialog.ClientIdUntouched` | src/components/projects/ProjectForm.tsx:91-106 | when the select has no options, no user edit changes `client_id` |
| `AddProjectDialog.NoClientNoSubmission` | src/validations/project.ts:9 | a form whose client is '' stays refused whatever the user edits |
| `AddProjectDialog.ClientDefaultEmpty` | src/components/projects/ProjectForm.tsx:59 | the dialog's form starts with client '' |
| `AddProjectDialog.NoProjectCanBeSubmitted` | src/components/projects/AddProjectDialog.tsx:58 | with the empty client list no sequence of edits makes the form pass the schema |
| `AddProjectDialog.ProjectDialogState.constructor` | src/components/projects/AddProjectDialog.tsx:60-86 | the dialog starts closed and not submitting |
| `AddProjectDialog.ProjectDialogState.HandleSubmit` | src/components/projects/AddProjectDialog.tsx:60-86 | the FormData sent; on success the dialog closes and the router refreshes; on a throw it stays as it was; `isSubmitting` false at the end |
| `AddClientDialog.OrEmptyMeaning` | src/components/client/AddClientDialog.tsx:61-65 | `x \|\| ''` gives '' exactly for absent or empty, and otherwise the present string |
| `AddClientDialog.ClientPayload` | src/components/client/AddClientDialog.tsx:59-66 | the name is copied; each of the five other fields is '' exactly when absent or empty |
| `AddClientDialog.PayloadOfFormOf` | src/components/client/AddClientDialog.tsx:59-66 | payload to form to payload is the identity |
| `AddClientDialog.FormOfPayload` | src/components/client/AddClientDialog.tsx:59-66 | form to payload to form loses only the absent/empty distinction |
| `AddClientDialog.PayloadEqualIff` | src/components/client/AddClientDialog.tsx:59-66 | two submissions give the same payload exactly when they agree up to that distinction |
| `AddClientDialog.ClientDialogState.constructor` | src/components/client/AddClientDialog.tsx:38-39 | the dialog starts closed and not submitting |
| `AddClientDialog.ClientDialogState.HandleSubmit` | src/components/client/AddClientDialog.tsx:53-92 | the payload sent; callback, `clients-updated`, close and refresh happen only after `createClient` returns, in that order; after a throw only the store call |
| `SidebarProvider.UseSidebar` | src/providers/sidebar-provider.tsx:54-59 | fails, with the source's message, exactly when there is no provider context, and otherwise returns that context |
| `SidebarProvider.Sidebar.constructor` | src/providers/sidebar-provider.tsx:22-23 | the provider starts closed and not mobile, which is not yet a settled state |
| `SidebarProvider.Sidebar.CheckMobile` | src/providers/sidebar-provider.tsx:27-36 | `isMobile` becomes `width < 768`; `isOpen == !isMobile` afterwards in all four cases; on a settled state at the same width nothing changes |
| `SidebarProvider.Sidebar.RunEffect` | src/providers/sidebar-provider.tsx:26-41 | the effect and the re-run its own `setIsOpen` triggers leave a settled state for the current width |
| `SidebarProvider.Sidebar.Mount` | src/providers/sidebar-provider.tsx:38 | after mounting the sidebar is settled: open on desktop, closed on mobile |
| `SidebarProvider.Sidebar.Resize` | src/providers/sidebar-provider.tsx:39 | after a resize the sidebar is settled for the new width |
| `SidebarProvider.Sidebar.SetIsOpen` | src/providers/sidebar-provider.tsx:41-45 | a state update renders the new value; when it changed `isOpen` the effect re-runs and settles; otherwise nothing changes |
| `SidebarProvider.Sidebar.Toggle` | src/providers/sidebar-provider.tsx:43 | the flipped value is rendered, then the effect drives it back: from a settled state at the same width a toggle is undone |
| `SidebarProvider.Sidebar.Open` | src/providers/sidebar-provider.tsx:44 | renders open; from a settled state at the same width nothing changes in the end |
| `SidebarProvider.Sidebar.Close` | src/providers/sidebar-provider.tsx:45 | renders closed; from a settled state at the same width nothing changes in the end |
| `SidebarProvider.Sidebar.ConsumerAfterMount` | src/providers/sidebar-provider.tsx:48-59 | a consumer below a freshly mounted provider gets the context, not the error, and it reports mobile exactly below 768 pixels and open exactly when not mobile |
| `Header.NextTheme` | src/components/layout/header.tsx:15 | 'light' exactly after 'dark'; 'dark' after anything else, unset and 'system' included |
| `Header.ToggleTwice` | src/components/layout/header.tsx:14-18 | two toggles return to the start exactly from 'dark' or 'light'; from anything else they end at 'light' |
| `Header.TogglesAlternate` | src/components/layout/header.tsx:14-18 | after one toggle the theme is 'dark' or 'light', and from then on it alternates with period two |
| `Header.ThemeHeader.constructor` | src/components/layout/header.tsx:12 | the flag starts as `theme === 'dark'` |
| `Header.ThemeHeader.ToggleTheme` | src/components/layout/header.tsx:14-18 | the theme becomes the next theme and the flag is true exactly when the new theme is 'dark', that is when the old one was not |
| `Header.ThemeHeader.ThemeChangedElsewhere` | src/components/layout/header.tsx:12 | a theme change from elsewhere leaves the flag as it was |
| `SidebarNav.IsActive` | src/components/layout/sidebar.tsx:131 | a link is highlighted exactly when the path equals its target |
| `SidebarNav.ActiveItems` | src/components/layout/sidebar.tsx:131 | a link is highlighted exactly when it is in the list and the path equals its target |
| `SidebarNav.AtMostOneActive` | src/components/layout/sidebar.tsx:157 | with distinct targets at most one link of a list is highlighted, and one is exactly when the path is some link's target |
| `SidebarNav.HrefsDistinct` | src/components/layout/sidebar.tsx:27-124 | targets are pairwise distinct within each of the three lists |
| `SidebarNav.RenderKeysDistinct` | src/components/layout/sidebar.tsx:136 | render keys are unique: names across workspace and account links, targets among the public links |
| `SidebarNav.NoPrefixMatch` | src/components/layout/sidebar.tsx:131 | on `/dashboard/projects` only 'Projects' is highlighted, not 'Dashboard' |
| `SidebarNav.ContainerClasses` | src/components/layout/sidebar.tsx:176-180 | both wide classes are always present and each zero-width class is present exactly when the sidebar is closed |
| `SidebarNav.LastWithPrefix` | src/components/layout/sidebar.tsx:176-180 | the deciding class is the last of the given classes carrying the prefix (none after it carries it), and none is found only when no class carries it |
| `SidebarNav.WidthCollapsesIffClosed` | src/components/layout/sidebar.tsx:176-180 | the width class in force is `w-0` / `md:w-0` exactly when the sidebar is closed, and `w-64` / `md:w-64` otherwise |

## Left out

- The stores (`createInvoice`, `createContract`, `createClient`) and the server action `createProjectAction` are not part of this model. Each is a parameter of the handler that calls it: its result, or whether it throws.
- Toasts and `console.error` are left out; they show messages and change no state.
- `toFixed(2)` rendering of amounts is left out; the model keeps exact values.
- JavaScript doubles are not modelled. Money is exact `real`, so sums such as 0.1 + 0.2 carry no rounding error here.
- NaN is not modelled. A quantity or price is a number or absent, and `|| 0` maps absent to 0.
- The coercion and resolver machinery of react-hook-form and zod is left out. Values reach the schemas already typed as the forms declare them.
- Tailwind's and `twMerge`'s general conflict resolution is left out. `SidebarNav.LastWithPrefix` states only the rule that the later width class wins.
- `ContractDialog.ContractFormValid`: zod measures the title's 3..100 length in UTF-16 code units, while a Dafny string counts Unicode scalar values. A title with characters outside the Basic Multilingual Plane (emoji, for instance) can differ in both directions. Near the upper bound it can be accepted here and refused by zod. Near the lower bound it can be refused here and accepted by zod: 'a' followed by one emoji is 2 characters here but 3 code units for zod.
- `ProjectValidation.FieldOk`: the same difference applies to the name's minimum of 2 characters. A single astral character is one character here but two code units for zod.
- Supabase, authentication, configuration, routing and page components are context, not core, and are not part of this model. So are `src/validations/client.ts` (the client schema) and the client form.
- `InvoiceDialog.InvoiceDialogState.OnSubmit`: a parent callback that throws is not modelled. The callback is assumed to return.
- `ContractDialog.ContractDialogState.OnSubmit`: the same holds for the contract callback.
- `AddClientDialog.ClientDialogState.HandleSubmit`: the same holds for the client callback.
- `SidebarProvider.Sidebar.RunEffect`: React's scheduling is collapsed into one step. The effect run and its single re-run happen together, and the render in between is visible only as the `shown` result of `Toggle`/`Open`/`Close`.
- `Header.ThemeHeader.constructor`: `next-themes` may report an unset theme on the first render. The model takes whatever theme it is given.

## Findings

| source | as written | input that shows it | evidently intended | confidence | as-written member | corrected member |
|---|---|---|---|---|---|---|
| src/mocks/invoices.ts:168-170 | inv-004 stores subtotal 12530, tax 2004.8, total 14534.8 | its items 80×100 + 25×110 + 15×75 + 8×85 sum to 12555 | subtotal 12555, tax 2008.8, total 14563.8, the totals the dialog's rule gives for those items | medium, not executed | `InvoiceSeedChecks.SeedSubtotalsAgainstItems` | `InvoiceSeedChecks.CorrectedSeedsConsistent` |
