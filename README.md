# Procurement workflow logic of order-up-logistics, in Dafny

The repository is a React front end for procurement. It covers material requests (MRFs), supplier
quotation requests, purchase orders, delivery coordination, inventory and a dashboard. Under the
rendering there is a small layer of business logic, and this project models it and proves properties
of it:

- **Approval routing.** The fixed amount threshold of 20000 picks the purchase-order signatory and the
  approval-time label. Creating an order derives its signatory from this rule.
- **Stock availability.** An MRF line is checked against the inventory with a four-way decision table,
  matching names case-insensitively. A three-way stock status is derived from current and minimum stock.
- **List state.** Each component has `useState` arrays, and each is modelled as a class with a
  `seq` field. Every event handler is a method that replaces the list:
  - append after validation (purchase orders, inventory items, deliveries, quotation requests, MRF lines);
  - an id-keyed `map` (send a purchase order, update a delivery's status, edit an MRF line);
  - an id-keyed `filter` (remove an MRF line).

  Each method states its whole new state against a pure function of the old state, and says that a
  rejected form changes nothing.
- **Views.** The status tabs, the search filters, the supplier lookup, the specialty badges and the
  dashboard statistics are functions. They are proved to select exactly what they should, in order,
  and where relevant that the tabs partition the list.

Files:

- `Seqs.dfy`: modules `Optional` and `Seqs`. `Optional` holds the `Option` type. `Seqs` holds `Filter`
  and `MapWhere`, the models of `Array.prototype.filter` and of an id-keyed `map`.
- `Text.dfy`: ASCII `toLowerCase`, `includes`, and the decimal rendering of a number in a template
  literal. The rendering has a parser as its proved inverse.
- `PurchaseOrders.dfy`, `Inventory.dfy`, `Deliveries.dfy`, `MaterialRequests.dfy`, `Quotations.dfy`,
  `Suppliers.dfy`, `Dashboard.dfy`: one module per component.

Inputs that are not deterministic become parameters:

- `now: nat` stands for `Date.now()`. It is rendered in decimal wherever the source builds an id from it.
- `today: string` stands for `new Date().toISOString().split('T')[0]`.
- A form the user fills in is a form field of the class, set by an `EditForm` method (the `onChange`
  handlers) and read by the submit handler.

The code is looser than a strict procurement workflow would be, and the model follows the code:

- Out-of-stock is `currentStock <= 0`, not `== 0`.
- A purchase-order amount is only rejected when it is 0, so negative amounts pass.
- Neither sending a purchase order nor updating a delivery's status checks the current status.
- `deliveredDate` is overwritten on every `delivered` update.
- Ids come from the clock and nothing makes them unique. The lemmas therefore state the UI guarantees
  for lists with distinct ids, and `Deliveries.SharedIdReopensDelivered` shows how the guarantee breaks
  when two deliveries share an id.

## Model

| member | source | states |
|---|---|---|
| `Seqs.Filter` | src/components/InventoryManager.tsx:191-194 | `filter`: the result holds only elements that pass, holds every element that passes, and is no longer than the input |
| `Seqs.FilterMultiset` | src/components/InventoryManager.tsx:191-194 | `filter` keeps every passing element exactly as many times as it occurs and drops every other one |
| `Seqs.FilterSubMultiset` | src/components/InventoryManager.tsx:191-194 | the result of `filter` is a sub-multiset of the input: nothing is added or duplicated |
| `Seqs.FilterLengthIsPositions` | src/pages/Index.tsx:96-97 | the length of a `filter` result is the number of positions whose element passes |
| `Seqs.FilterIsSubsequence` | src/components/InventoryManager.tsx:191-194 | `filter` keeps the input order: its result is a subsequence of the input |
| `Seqs.MapWhere` | src/components/PurchaseOrderManager.tsx:113-117 | id-keyed `map`: same length; selected elements are rewritten, every other element is returned unchanged |
| `Text.Lower` | src/components/InventoryManager.tsx:134 | `toLowerCase` on ASCII: same length; each upper-case letter is mapped to its lower-case form and every other character is kept |
| `Text.Includes` | src/components/InventoryManager.tsx:192 | `includes`: never true for a term longer than the text, and always true when the text starts with the term |
| `Text.IncludesIffOccurs` | src/components/InventoryManager.tsx:192 | the left-to-right `includes` scan succeeds exactly when the term occurs at some position |
| `Text.NatToString` | src/components/PurchaseOrderManager.tsx:84 | a number in a template literal: at least one decimal digit, with no leading zero unless the number is 0 |
| `Text.ParseNatToString` | src/components/InventoryManager.tsx:146 | parsing the decimal rendering of a number gives the number back |
| `Text.NatToStringInjective` | src/components/PurchaseOrderManager.tsx:84 | different clock readings render as different id suffixes |
| `PurchaseOrders.Signatory` | src/components/PurchaseOrderManager.tsx:65-67 | "Project Support Officer" iff amount < 20000; the dual signatory iff amount >= 20000, so 20000 itself needs dual approval |
| `PurchaseOrders.ApprovalTime` | src/components/PurchaseOrderManager.tsx:69-71 | "Same day" exactly when the signatory is the single one, "1-2 days" exactly when it is the dual one |
| `PurchaseOrders.DualApprovalWarningShown` | src/components/PurchaseOrderManager.tsx:231-242 | the warning is drawn exactly when the signatory is the dual one, even though it sits inside the positive-amount panel |
| `PurchaseOrders.NegativeAmountAccepted` | src/components/PurchaseOrderManager.tsx:74-81 | a negative amount passes validation and is routed to the single signatory |
| `PurchaseOrders.NewOrder` | src/components/PurchaseOrderManager.tsx:83-93 | the new order is pending approval, its signatory follows the routing rule, an empty quotation id defaults to "QUO-" + clock, and the other fields come from the form |
| `PurchaseOrders.MarkSent` | src/components/PurchaseOrderManager.tsx:111-118 | same length; each order with the id becomes sent with today's sent date, whatever its status was; all others are unchanged |
| `PurchaseOrders.MarkSentIdempotent` | src/components/PurchaseOrderManager.tsx:111-118 | sending the same id twice on one day equals sending it once |
| `PurchaseOrders.MarkSentKeepsRouting` | src/components/PurchaseOrderManager.tsx:111-118 | sending keeps every signatory consistent with its amount |
| `PurchaseOrders.PendingApprovalTab` | src/components/PurchaseOrderManager.tsx:269 | the tab holds exactly the pending-approval orders, in list order (a subsequence of the list) |
| `PurchaseOrders.ApprovedTab` | src/components/PurchaseOrderManager.tsx:321 | the tab holds exactly the approved orders, in list order (a subsequence of the list) |
| `PurchaseOrders.SentTab` | src/components/PurchaseOrderManager.tsx:363 | the tab holds exactly the sent and acknowledged orders, in list order (a subsequence of the list) |
| `PurchaseOrders.Drafts` | src/components/PurchaseOrderManager.tsx:19 | exactly the draft orders, in list order (a subsequence of the list) |
| `PurchaseOrders.TabsCoverAllButDrafts` | src/components/PurchaseOrderManager.tsx:269-363 | the three tab sizes plus the number of drafts equal the number of orders |
| `PurchaseOrders.DraftInNoTab` | src/components/PurchaseOrderManager.tsx:269-363 | a draft order appears in none of the tabs |
| `PurchaseOrders.PurchaseOrderManager.constructor` | src/components/PurchaseOrderManager.tsx:30-61 | starts with the two seed orders, whose signatories follow the rule, and an empty form |
| `PurchaseOrders.PurchaseOrderManager.EditForm` | src/components/PurchaseOrderManager.tsx:184-226 | the form changes, the orders do not |
| `PurchaseOrders.PurchaseOrderManager.CreatePO` | src/components/PurchaseOrderManager.tsx:73-109 | succeeds iff supplier and expected delivery are non-empty and the amount is non-zero; on success appends exactly `NewOrder` and clears the form; otherwise changes nothing |
| `PurchaseOrders.PurchaseOrderManager.SendPO` | src/components/PurchaseOrderManager.tsx:111-124 | the order list becomes `MarkSent` of the old one and the routing invariant is kept |
| `Inventory.FirstByName` | src/components/InventoryManager.tsx:133-135 | `find`: no result iff no name matches ignoring case; otherwise the index of a match with no match before it |
| `Inventory.CheckAvailability` | src/components/InventoryManager.tsx:132-152 | the decision table: not in inventory; available iff stock >= quantity; the "Only N unit available, need M" shortage for 0 < stock < quantity; out of stock for stock <= 0 |
| `Inventory.FirstMatchDecides` | src/components/InventoryManager.tsx:133-135 | items after the first match do not change the verdict |
| `Inventory.PaperScenario` | src/components/InventoryManager.tsx:132-152 | against the seed inventory, 10 reams of A4 paper are available and 60 give "Only 50 reams available, need 60" |
| `Inventory.ShortageReason` | src/components/InventoryManager.tsx:146 | the shortage text starts with "Only " and the decimal digits of the stock followed by a space, and ends with the digits of the quantity needed |
| `Inventory.ShortageOfPaper` | src/components/InventoryManager.tsx:146 | the shortage text for 50 reams in stock and 60 needed |
| `Inventory.DeriveStatus` | src/components/InventoryManager.tsx:164-165 | out of stock iff stock <= 0; low stock iff 0 < stock <= minimum; in stock iff stock > 0 and stock > minimum |
| `Inventory.NewItem` | src/components/InventoryManager.tsx:164-172 | the new item has the derived status, the clock as id and today as last-updated date, and the other fields from the form |
| `Inventory.Search` | src/components/InventoryManager.tsx:191-194 | keeps exactly the items whose lower-cased name or category contains the lower-cased term |
| `Inventory.SearchKeepsOrder` | src/components/InventoryManager.tsx:191-194 | the search result is a subsequence of the inventory |
| `Inventory.EmptySearchShowsAll` | src/components/InventoryManager.tsx:191-194 | an empty term keeps the whole inventory |
| `Inventory.InventoryManager.constructor` | src/components/InventoryManager.tsx:37-112 | starts with the three seed items, each with a consistent status, and an empty form |
| `Inventory.InventoryManager.EditForm` | src/components/InventoryManager.tsx:316-371 | the form changes, the inventory does not |
| `Inventory.InventoryManager.AddItem` | src/components/InventoryManager.tsx:154-189 | succeeds iff name and category are non-empty; on success appends exactly `NewItem` and clears the form; every stored status stays derived |
| `Deliveries.NewDelivery` | src/components/DeliveryCoordinator.tsx:87-100 | the new delivery is scheduled, with items ["New Items"], id "DEL-" + clock, no delivered date, and the other fields from the form |
| `Deliveries.UpdateStatus` | src/components/DeliveryCoordinator.tsx:122-131 | same length; deliveries with the id get the new status, and today's delivered date exactly when the status is `delivered` (overwriting any earlier date); nothing else changes |
| `Deliveries.UpdateStatusKeepsDates` | src/components/DeliveryCoordinator.tsx:122-131 | every delivered delivery keeps a delivered date |
| `Deliveries.ButtonTarget` | src/components/DeliveryCoordinator.tsx:394-516 | only the delivered tab has no transition button; every button moves one step forward (pending-coordination to scheduled, scheduled to in-transit, in-transit to delivered) |
| `Deliveries.ButtonAdvancesOnlyItsCard` | src/components/DeliveryCoordinator.tsx:122-131 | with distinct ids a button click advances only its own delivery by one step; no status moves back and delivered stays delivered |
| `Deliveries.SharedIdReopensDelivered` | src/components/DeliveryCoordinator.tsx:122-131 | when two deliveries share an id, "Mark In Transit" on the scheduled one moves the delivered one back to in-transit |
| `Deliveries.ScheduledTab` | src/components/DeliveryCoordinator.tsx:335 | exactly the scheduled deliveries, in list order (a subsequence of the list) |
| `Deliveries.InTransitTab` | src/components/DeliveryCoordinator.tsx:417 | exactly the in-transit deliveries, in list order (a subsequence of the list) |
| `Deliveries.DeliveredTab` | src/components/DeliveryCoordinator.tsx:460 | exactly the delivered deliveries, in list order (a subsequence of the list) |
| `Deliveries.PendingCoordinationTab` | src/components/DeliveryCoordinator.tsx:490 | exactly the deliveries pending coordination, in list order (a subsequence of the list) |
| `Deliveries.TabsPartition` | src/components/DeliveryCoordinator.tsx:335-490 | the four tab sizes add up to the number of deliveries |
| `Deliveries.DeliveryCoordinator.constructor` | src/components/DeliveryCoordinator.tsx:34-73 | starts with the two seed deliveries and an empty form |
| `Deliveries.DeliveryCoordinator.EditForm` | src/components/DeliveryCoordinator.tsx:205-306 | the form changes, the deliveries do not |
| `Deliveries.DeliveryCoordinator.ScheduleDelivery` | src/components/DeliveryCoordinator.tsx:77-120 | succeeds iff PO id, scheduled date and address are non-empty; on success appends exactly `NewDelivery` and clears the form; otherwise changes nothing |
| `Deliveries.DeliveryCoordinator.UpdateDeliveryStatus` | src/components/DeliveryCoordinator.tsx:122-137 | the list becomes `UpdateStatus` of the old one, with no check of the current status |
| `MaterialRequests.BlankItem` | src/components/MRFForm.tsx:46-56 | a new line has quantity 1, unit "pcs", medium urgency and an empty description and purpose |
| `MaterialRequests.Apply` | src/components/MRFForm.tsx:64 | only the field named by the update changes; the id and every other field stay |
| `MaterialRequests.UpdateById` | src/components/MRFForm.tsx:62-66 | same length and ids; lines with the id get the update, the others are unchanged |
| `MaterialRequests.RemoveById` | src/components/MRFForm.tsx:58-60 | drops exactly the lines with the id; every other line is kept as many times as it occurred and in order, and nothing is added |
| `MaterialRequests.RemoveOneOfDistinct` | src/components/MRFForm.tsx:58-60 | with distinct ids, removing one line's id removes exactly one line |
| `MaterialRequests.RemoveButtonKeepsOneItem` | src/components/MRFForm.tsx:210-219 | the remove button is drawn only while more than one line is listed, so with distinct ids it never empties the list |
| `MaterialRequests.RemoveLeavesOthers` | src/components/MRFForm.tsx:58-60 | the list stays non-empty exactly when some line has a different id |
| `MaterialRequests.SomeIncomplete` | src/components/MRFForm.tsx:81 | `some`: true iff some line lacks its description or purpose |
| `MaterialRequests.Submit` | src/components/MRFForm.tsx:68-96 | missing information iff the PIC, department or required date is empty; the lines are checked only after that; success iff the header is complete and every line has a description and a purpose |
| `MaterialRequests.SubmitIgnoresQuantity` | src/components/MRFForm.tsx:81-88 | changing a quantity never changes the outcome |
| `MaterialRequests.MRFForm.constructor` | src/components/MRFForm.tsx:25-44 | MRF number "MRF-" + clock, request date today, exactly one blank line with id "1" |
| `MaterialRequests.MRFForm.EditHeader` | src/components/MRFForm.tsx:137-185 | the header changes, the lines do not |
| `MaterialRequests.MRFForm.AddItem` | src/components/MRFForm.tsx:46-56 | appends exactly one blank line with the clock as id; earlier lines are unchanged |
| `MaterialRequests.MRFForm.UpdateItem` | src/components/MRFForm.tsx:62-66 | the lines become `UpdateById` of the old ones |
| `MaterialRequests.MRFForm.RemoveItemAt` | src/components/MRFForm.tsx:210-219 | the trash button of line k removes every line with its id; with distinct ids exactly one line goes and at least one remains |
| `Quotations.NewRequest` | src/components/QuotationManager.tsx:76-86 | the new quotation is pending, with amount 0, empty valid-until date, MRF "MRF-003", items ["New Items"], request date today, and supplier name and email from the form |
| `Quotations.PendingTab` | src/components/QuotationManager.tsx:206 | exactly the pending quotations, in list order (a subsequence of the list) |
| `Quotations.ReceivedTab` | src/components/QuotationManager.tsx:257 | exactly the received quotations, in list order (a subsequence of the list) |
| `Quotations.ApprovedTab` | src/components/QuotationManager.tsx:310 | exactly the approved quotations, in list order (a subsequence of the list) |
| `Quotations.RejectedQuotations` | src/components/QuotationManager.tsx:22 | exactly the rejected quotations, in list order (a subsequence of the list) |
| `Quotations.TabsCoverAllButRejected` | src/components/QuotationManager.tsx:206-310 | the three tab sizes plus the number of rejected quotations equal the number of quotations |
| `Quotations.NewRequestIsActive` | src/components/QuotationManager.tsx:76-88 | a new request is appended to the active tab and leaves the other tabs as they were |
| `Quotations.QuotationManager.constructor` | src/components/QuotationManager.tsx:29-60 | starts with the two seed quotations and an empty form |
| `Quotations.QuotationManager.EditForm` | src/components/QuotationManager.tsx:146-177 | the form changes, the quotations do not |
| `Quotations.QuotationManager.SendQuotationRequest` | src/components/QuotationManager.tsx:64-96 | succeeds iff supplier, email and message are non-empty (the subject is not required); on success appends exactly `NewRequest` and resets the form to all-empty; otherwise changes nothing |
| `Suppliers.SomeSpecialtyMatches` | src/components/SupplierSourcing.tsx:128-130 | true iff some specialty contains the term, ignoring case |
| `Suppliers.FilterSuppliers` | src/components/SupplierSourcing.tsx:126-131 | keeps exactly the suppliers whose name or some specialty contains the term, as a subsequence of the list |
| `Suppliers.EmptyTermKeepsAll` | src/components/SupplierSourcing.tsx:126-131 | an empty term keeps every supplier |
| `Suppliers.FindSupplier` | src/components/SupplierSourcing.tsx:134 | `find` by id: none iff no supplier has the id, otherwise the first one that does |
| `Suppliers.SupplierName` | src/components/SupplierSourcing.tsx:133-135 | the first matching supplier's name; "Unknown Supplier" when there is none, or when that name is empty |
| `Suppliers.ItemComparisons` | src/components/SupplierSourcing.tsx:137-141 | keeps exactly the items whose name contains the query ignoring case, in order |
| `Suppliers.SpecialtyBadges` | src/components/SupplierSourcing.tsx:287-292 | shows the first min(3, n) specialties; a "+N more" count exists iff n > 3, and then N = n - 3 |
| `Suppliers.MoreBadge` | src/components/SupplierSourcing.tsx:291 | the badge text is "+", then decimal digits that read back as the count, then " more" |
| `Dashboard.TotalValueConcat` | src/pages/Index.tsx:99 | the total of two lists joined is the sum of their totals |
| `Dashboard.TotalValueNonNegative` | src/pages/Index.tsx:99 | the total is non-negative when no amount is negative |
| `Dashboard.TotalValueSkipsMissing` | src/pages/Index.tsx:99 | a process without an amount adds 0 |
| `Dashboard.WithStatus` | src/pages/Index.tsx:96-97 | exactly the processes with the given status, in list order; its length is the number of positions holding that status |
| `Dashboard.TwoStatusesFit` | src/pages/Index.tsx:96-97 | two different statuses together count at most all processes |
| `Dashboard.ComputeStats` | src/pages/Index.tsx:95-100 | pending approvals and active orders are the numbers of positions holding a pending or an in-progress process, together at most all processes; completed today is the constant 3; the total value is the sum of the amounts |
| `Dashboard.RecentActivity` | src/pages/Index.tsx:192 | the first min(3, n) processes, in order |
| `Dashboard.SeedStats` | src/pages/Index.tsx:29-100 | the seed data gives 2 pending approvals, 1 active order, 3 completed today and a total of 60000 |

## Left out

- Rendering, dialogs, tabs as widgets, badges, icons and colour mappings (`getStatusColor`, `getStatusIcon`, `getUrgencyColor`, `getPriorityColor`, `getTypeIcon`): presentation only.
- `toast` notifications and `console.log`: side effects. A rejected handler is modelled as "returns false, state unchanged".
- Opening and closing dialogs (`setShowCreateDialog` and similar): UI state.
- `Date.now()` and the ISO date: they are the `now` and `today` parameters. `handleCreatePO` reads the clock twice, for the order id and for the default quotation id; the model uses one reading for both.
- Floating-point parsing and formatting (`parseFloat`, `parseInt` and their NaN cases): amounts, costs, prices, ratings and stock levels are `int`. The `|| 0` fallbacks on the inventory form's number inputs are part of that parsing.
- `MaterialRequests.Apply`: `updateItem` accepts any key of a line, the id included. The model covers the five keys the editors pass (description, quantity, unit, urgency, purpose).
- Unicode case mapping: `toLowerCase` is modelled on ASCII letters only, everywhere it is used.
- `handleContactSupplier` (a `window.location` redirect), mail-template composition, enterprise-integration stubs, authentication and session storage: I/O and foreign calls outside these components.
- `handleSubmit` (MRF form) changes no state; it only raises notifications and logs. It is therefore the function `MaterialRequests.Submit`, with no method beside it.
- The MRF form's list of lines has no class invariant. Two lines added at the same clock reading share an id, and removing that id empties the list, after which "Add Item" and the header inputs still work. Non-emptiness is stated only where it holds: after mounting, after `AddItem`, and after `RemoveItemAt` on a list with distinct ids.
- Unique ids: the source derives them from the clock and gives no guarantee, so none is modelled. Lemmas that need distinct ids take them as a hypothesis.
