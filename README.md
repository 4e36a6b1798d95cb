# Hardware-store back-office: sales core in Dafny

This project models the sales core of a React back-office for a hardware store. It covers:

- the `Sale` record and its closed unions (`types/sale.ts`);
- the in-memory sale store `MOCK_SALES` and its five operations (`services/sale-service.ts`);
- the create and edit sale forms: zod validation, starting values, catalogue price prefill, payloads;
- how the three sale views present the PENDING / PAID / CANCELLED lifecycle;
- a few small pure helpers: the reset-password schema, supplier initials and fallbacks, the product table, and the toast builders.

Money is integer cents. A `Date` is an opaque `Instant`. The service's `delay`, `Math.random` and the network are outside the model; what they supply is a parameter.

Files and modules:

| file | module | models |
|---|---|---|
| `wrappers.dfy` | `Wrappers` | `Option`, `Result` |
| `sale_types.dfy` | `SaleTypes` | `types/sale.ts`, the seeded sale |
| `sale_service.dfy` | `SaleService` | `services/sale-service.ts`: the class `SaleStore` over `seq<Sale>`, with pure specifications `FirstIndex`, `Lookup`, `Updated`, `Deleted`, `Merge` |
| `js_text.dfy` | `JsText` | `parseInt`, `String(value)`, the `\|\|` fallback |
| `product_types.dfy` | `ProductTypes` | `types/product.ts`, `products.find` |
| `sale_form.dfy` | `SaleForm` | both sale forms; the class `SaleFormState` holds the form values the field handlers change |
| `sale_views.dfy` | `SaleViews` | labels, variants and gating of the three sale views; classes for the two detail views' handlers |
| `reset_password.dfy` | `ResetPassword` | `resetPasswordSchema` |
| `supplier_details.dfy` | `SupplierDetails` | `getInitials` and the display fallbacks |
| `product_table.dfy` | `ProductTable` | id normalisation, cells, and the class `ProductTableView` for fetch and delete |
| `toast.dfy` | `Toast` | `showToast.success/error/warning/info` |

The service never checks a lifecycle transition. Its callers use `markAsPaid` and `cancelSale`, but the service does not define them. So the views' calls are recorded as requests (`SaleViews.ServiceCall`), and how a call ends is a parameter (`SaleViews.CallOutcome`). No transition rule is invented.

The views compare status and payment type as strings. So the label functions take the string, which lets the model state what each view does with a value outside the union.

## Model

| member | source | states |
|---|---|---|
| SaleTypes.ParsePaymentType | types/sale.ts:1 | a payment string is accepted exactly when it is CASH, CARD or TRANSFER, and reads back to the same string |
| SaleTypes.ParseStatus | types/sale.ts:19 | a status string is accepted exactly when it is PENDING, PAID or CANCELLED, and reads back to the same string |
| SaleTypes.PaymentWireRoundTrip | types/sale.ts:1 | every payment type survives the trip through its string, which is never empty, so the type is always present |
| SaleTypes.StatusWireRoundTrip | types/sale.ts:19 | every status survives the trip through its string |
| SaleTypes.LifecycleFieldsAreFree | types/sale.ts:17-19 | status, payment date and payment type are independent of each other and of the amounts; a PAID sale with no payment date is a well-formed sale |
| SaleTypes.StoredTotalsAreNotDerived | types/sale.ts:3-13 | item totals and the sale total are stored data: shifting the sale total or any one line total of a consistent sale breaks its consistency |
| SaleTypes.SeedSaleConsistent | services/sale-service.ts:5-30 | the seeded sale is consistent in cents: 2×2999=5998, 1×1299=1299, total 7297 |
| SaleService.WithId | services/sale-service.ts:43-46 | the created sale is the given fields plus the given id, and dropping the id gives the input back |
| SaleService.Merge | services/sale-service.ts:56-60 | the merged sale has the requested id; each of the eight fields is the patch's value when the patch gives it and the old value otherwise |
| SaleService.FirstIndex | services/sale-service.ts:53 | `findIndex`: -1 exactly when no sale has the id, otherwise the first index holding it |
| SaleService.FindIndex | services/sale-service.ts:53 | the same first-match search as a loop, proved against the same contract |
| SaleService.Lookup | services/sale-service.ts:75-76 | `find(...) \|\| null`: null exactly when no sale has the id, otherwise the stored sale at the first index holding it |
| SaleService.Updated | services/sale-service.ts:51-63 | fails with "Sale not found" exactly when the id is missing; otherwise the store keeps its length |
| SaleService.Deleted | services/sale-service.ts:65-71 | the store shrinks by one exactly when the id is present |
| SaleService.SaleStore.constructor | services/sale-service.ts:5-30 | the store starts with the seeded sale only |
| SaleService.SaleStore.GetSales | services/sale-service.ts:36-39 | returns the whole store, in insertion order |
| SaleService.SaleStore.CreateSale | services/sale-service.ts:41-49 | appends exactly one sale, built from the input and the given id, and returns it; earlier entries are unchanged |
| SaleService.SaleStore.UpdateSale | services/sale-service.ts:51-63 | an unknown id fails with "Sale not found" and leaves the store unchanged; otherwise the first match is replaced by the merge and returned |
| SaleService.SaleStore.DeleteSale | services/sale-service.ts:65-71 | the new store is `Deleted` of the old one |
| SaleService.SaleStore.GetSaleById | services/sale-service.ts:73-77 | returns `Lookup` of the store: the first sale with the id, or none |
| SaleService.FirstIndexAppend | services/sale-service.ts:47 | appending a sale does not move the first match of an id already present |
| SaleService.LookupAfterCreate | services/sale-service.ts:41-49 | after a create under a fresh id, looking that id up finds the created sale |
| SaleService.LookupUnchangedByCreate | services/sale-service.ts:47 | a create does not change what an existing id looks up to |
| SaleService.UpdateReplacesFirstOnly | services/sale-service.ts:55-61 | an update replaces only the first entry with the id; every other entry is unchanged |
| SaleService.LookupAfterUpdate | services/sale-service.ts:56-61 | after an update, the id looks up to the merge of its old sale with the patch |
| SaleService.UpdateUnknownFails | services/sale-service.ts:53-54 | updating an unknown id fails with "Sale not found" |
| SaleService.DeleteRemovesFirst | services/sale-service.ts:67-70 | delete removes exactly the first entry with the id: the rest keeps its order, and the multiset loses just that sale |
| SaleService.DeleteUnknownIsNoop | services/sale-service.ts:67-68 | deleting an unknown id is a silent no-op |
| SaleService.LookupAfterDeleteOfUnique | services/sale-service.ts:65-71 | when ids are unique, the deleted id no longer looks up |
| SaleService.MergeIgnoresPatchId | services/sale-service.ts:59 | an id inside the patch is overridden by the requested id |
| SaleService.MergeEmptyPatch | services/sale-service.ts:56-60 | an empty patch under the sale's own id changes nothing |
| SaleService.MergeIdempotent | services/sale-service.ts:56-60 | applying the same patch twice equals applying it once |
| SaleService.MergeThen | services/sale-service.ts:56-60 | two successive updates equal one update with the combined patch, the later fields winning |
| ProductTypes.FindProduct | components/sales/forms/sale-create-form.tsx:119 | `products.find`: none exactly when no product has the id, otherwise the catalogue product at the first index holding it |
| JsText.ParseUnsigned | components/sales/forms/sale-create-form.tsx:240 | the digit part of `parseInt` is NaN exactly when no digit follows |
| JsText.ParseInt | components/sales/forms/sale-create-form.tsx:240 | text that is empty after the white space is NaN; a negative result comes only from a leading minus sign |
| JsText.ParseIntSkipsSpace | components/sales/forms/sale-create-form.tsx:240 | a leading white-space character does not change what `parseInt` reads |
| JsText.WideSpacesSkipped | components/sales/forms/sale-create-form.tsx:240 | after any Unicode space separator beyond ASCII, the text of an integer still reads back as that integer |
| JsText.ParseIntRoundTrip | components/sales/forms/sale-create-form.tsx:240 | `parseInt` reads back the decimal text of any integer |
| JsText.NoDigitIsNaN | components/sales/forms/sale-create-form.tsx:240 | text that does not start with a digit after trimming and sign parses as NaN |
| JsText.ToJsString | components/products/product-table.tsx:43-44 | `String(value)` keeps a string unchanged |
| JsText.DigitsOfNat | components/products/product-table.tsx:43 | the decimal text `String` writes for a number spells that number |
| SaleForm.LineIssues | components/sales/forms/sale-create-form.tsx:30-34 | a line has no issue exactly when its productId is non-empty, quantity ≥ 1 and unitPrice ≥ 0; every issue is at that line's index |
| SaleForm.LinesIssues | components/sales/forms/sale-create-form.tsx:40 | the item list has no line issue exactly when every line is valid; issues carry their own line's index |
| SaleForm.SaleIssues | components/sales/forms/sale-create-form.tsx:36-41 | no issue exactly when name ≥ 2 chars, phone ≥ 10 chars, payment type in the enum, at least one item, every item valid |
| SaleForm.ValidateSale | components/sales/forms/sale-edit-form.tsx:31-42 | the schema accepts exactly the valid input and returns its values with the payment type parsed; otherwise it returns all issues, never none |
| SaleForm.SaleIssuesAt | components/sales/forms/sale-create-form.tsx:30-41 | an issue is reported at a field path exactly when that field's rule fails |
| SaleForm.FieldIssuesAt | components/sales/forms/sale-create-form.tsx:36-41 | the sale-level issues sit exactly at the failing name, phone, payment type and list-length rules, never at a line |
| SaleForm.LinesIssueAt | components/sales/forms/sale-create-form.tsx:30-34 | an issue is reported at `items.k.field` exactly when that field of line k fails |
| SaleForm.DefaultsRejected | components/sales/forms/sale-create-form.tsx:68-73 | the blank starting form yields exactly three issues: name, phone, and the productId of line 0 |
| SaleForm.BlankLine | components/sales/forms/sale-create-form.tsx:187-189 | the blank line breaks the productId rule and no other |
| SaleForm.CreateDefaults | components/sales/forms/sale-create-form.tsx:68-73 | the create form starts on CASH with one line that is not yet valid, so the starting form is rejected |
| SaleForm.BlankLineRejected | components/sales/forms/sale-create-form.tsx:187-189 | a blank line makes the form invalid, through its productId only |
| SaleForm.QuantityFromText | components/sales/forms/sale-create-form.tsx:240 | `parseInt(...) \|\| 0`: non-numeric input becomes 0, any parsed integer is kept (0 \|\| 0 is 0) |
| SaleForm.SmallQuantityFlagged | components/sales/forms/sale-create-form.tsx:32 | a quantity below 1 puts an issue at that line's quantity |
| SaleForm.NonNumericQuantityRejected | components/sales/forms/sale-create-form.tsx:240 | non-numeric quantity input makes that line's quantity fail the ≥ 1 rule |
| SaleForm.TypedQuantityRoundTrip | components/sales/forms/sale-create-form.tsx:240 | typing the digits of a quantity gives that quantity |
| SaleForm.SelectProduct | components/sales/forms/sale-create-form.tsx:118-124 | product selection touches only the chosen line, never its quantity |
| SaleForm.SelectProductCopiesPrice | components/sales/forms/sale-create-form.tsx:119-123 | choosing a catalogue product sets the line's productId and copies the catalogue price |
| SaleForm.SelectUnknownProductIsNoop | components/sales/forms/sale-edit-form.tsx:103-109 | choosing an id not in the catalogue changes nothing |
| SaleForm.CreatePayload | components/sales/forms/sale-create-form.tsx:85-95 | the payload has status PENDING, the same name, phone and payment type, and the same lines in order, with no totals |
| SaleForm.CreatePayloadAlwaysPending | components/sales/forms/sale-create-form.tsx:58 | every accepted form submits status PENDING, with the lines as entered |
| SaleForm.HydrateLine | components/sales/forms/sale-edit-form.tsx:62-65 | a stored line is shown with its productId and price, and a zero quantity as 1 |
| SaleForm.HydrateItems | components/sales/forms/sale-edit-form.tsx:62-66 | missing items hydrate to one blank line; present items map line by line |
| SaleForm.Hydrate | components/sales/forms/sale-edit-form.tsx:58-67 | name, phone and payment type are copied unchanged |
| SaleForm.ZeroQuantityHydratesToOne | components/sales/forms/sale-edit-form.tsx:64 | a stored quantity of 0 reappears as 1 |
| SaleForm.HydrateFallbackOnlyWhenMissing | components/sales/forms/sale-edit-form.tsx:62-66 | only missing items give the blank line; an empty list stays empty, because `[]` is truthy |
| SaleForm.EditSubmission | components/sales/forms/sale-edit-form.tsx:78-86 | the update goes to the sale's own id, carries the validated values, and has totalAmount equal to Σ quantity × unitPrice |
| SaleForm.LinesTotalAppend | components/sales/forms/sale-edit-form.tsx:78-81 | the reduce total splits over concatenation |
| SaleForm.LinesTotal | components/sales/forms/sale-edit-form.tsx:78-81 | the reduce total of lines whose quantities and prices are non-negative is never negative |
| SaleForm.HydratedTotalMatchesStored | components/sales/forms/sale-edit-form.tsx:62-81 | for consistent stored lines with non-zero quantities, the recomputed total equals the sum of stored line totals |
| SaleForm.EditUnchangedKeepsTotal | components/sales/forms/sale-edit-form.tsx:58-86 | submitting an untouched edit form of a consistent, valid sale sends back its own totalAmount |
| SaleForm.SaleFormState.ForCreate | components/sales/forms/sale-create-form.tsx:68-73 | the create form starts blank, on CASH, with one blank line |
| SaleForm.SaleFormState.ForEdit | components/sales/forms/sale-edit-form.tsx:58-67 | the edit form starts from the hydrated sale |
| SaleForm.SaleFormState.AppendLine | components/sales/forms/sale-create-form.tsx:187-189 | "add" appends one blank line and changes nothing else |
| SaleForm.SaleFormState.RemoveLine | components/sales/forms/sale-create-form.tsx:253 | "remove" drops exactly that line |
| SaleForm.SaleFormState.HandleProductChange | components/sales/forms/sale-create-form.tsx:118-124 | the new lines are `SelectProduct` of the old ones |
| SaleForm.SaleFormState.SetQuantityText | components/sales/forms/sale-create-form.tsx:239-240 | the line's quantity becomes `QuantityFromText` of the typed text |
| SaleForm.SaleFormState.SetCustomerName | components/sales/forms/sale-create-form.tsx:129-141 | only the customer name changes |
| SaleForm.SaleFormState.SetCustomerPhone | components/sales/forms/sale-create-form.tsx:143-155 | only the customer phone changes |
| SaleForm.SaleFormState.SelectPaymentType | components/sales/forms/sale-create-form.tsx:157-163 | only the payment type changes |
| SaleForm.SaleFormState.SubmitCreate | components/sales/forms/sale-create-form.tsx:81-95 | submits exactly when the form is valid, and then `CreatePayload` of the validated values (PENDING, name, phone, payment type, lines); otherwise the issues |
| SaleForm.SaleFormState.SubmitEdit | components/sales/forms/sale-edit-form.tsx:75-86 | submits exactly when the form is valid, and then `EditSubmission` of the validated values (name, phone, payment type, lines, recomputed total); otherwise the issues |
| SaleViews.TableGatingByStatus | components/sales/sale-details-table.tsx:107-158 | pay and cancel are offered exactly for PENDING; PAID and CANCELLED show their banners; the details view offers pay exactly for PENDING |
| SaleViews.TableActionsFor | components/sales/sale-details-table.tsx:107-158 | pay and cancel are both offered exactly for PENDING, and only then is no banner shown; the paid banner shows exactly for PAID |
| SaleViews.DetailsOffersPay | components/sales/sale-details.tsx:155 | the details view offers "mark as paid" exactly when the table view does |
| SaleViews.DetailsStatusLabel | components/sales/sale-details-table.tsx:186 | a known status shows its French name; any other string reads as pending |
| SaleViews.ColumnsStatusLabel | components/sales/columns.tsx:107-111 | a known status shows its French name; any other string reads as cancelled |
| SaleViews.TableStatusVariant | components/sales/sale-details-table.tsx:184 | the badge colour follows the label: `success` for Payé, `destructive` for Annulé, `default` for En attente |
| SaleViews.DetailsStatusVariant | components/sales/sale-details.tsx:106 | the badge colour follows the label: `secondary` for Payé, `destructive` for Annulé, `default` for En attente |
| SaleViews.ColumnsStatusVariant | components/sales/columns.tsx:99-105 | the badge colour follows the label: `secondary` for Payé, `outline` for En attente, `destructive` for Annulé |
| SaleViews.PaymentLabel | components/sales/sale-details-table.tsx:201-202 | a known payment type shows its French name; any other string reads as a transfer |
| SaleViews.InitialPaymentWire | components/sales/sale-details-table.tsx:36 | the dialog never starts on an empty type, and a given type is kept |
| SaleViews.StatusLabelsAgree | components/sales/sale-details-table.tsx:184-186 | on the three statuses all views print the same label, and distinct statuses get distinct labels |
| SaleViews.UnknownStatusDisagreement | components/sales/columns.tsx:107-111 | an unknown status reads "En attente" in the details views, "Annulé" in the list, and gets the cancelled banner with no action in the table view |
| SaleViews.StatusVariantsByView | components/sales/sale-details.tsx:105-110 | PAID is `success` in the table view and `secondary` in the other two; PENDING is `default`, or `outline` in the list; CANCELLED is `destructive` everywhere |
| SaleViews.PaymentLabels | components/sales/sale-details-table.tsx:201-202 | labels tell the three types apart, and any other string reads as a transfer |
| SaleViews.PaymentPhraseIsLabel | components/sales/sale-details-table.tsx:140-141 | for every string, the banner word is the badge label with a lower-case initial |
| SaleViews.TypedPaymentAlwaysPresent | components/sales/sale-details-table.tsx:36 | for a typed sale the `\|\| 'CASH'` default never fires and the payment-type row always shows |
| SaleViews.PaymentDateCell | components/sales/columns.tsx:59-69 | a null date shows the view's placeholder; any other date goes to the formatter unchanged |
| SaleViews.NullPaymentDate | components/sales/sale-details-table.tsx:190-195 | a null payment date is "Non spécifié" in the details, "-" in the list, and hides the details row |
| SaleViews.SaleDetailsTableView.constructor | components/sales/sale-details-table.tsx:35-37 | the dialog is closed, nothing is processing, and the selected type is the sale's |
| SaleViews.SaleDetailsTableView.OpenPaymentModal | components/sales/sale-details-table.tsx:107-116 | the dialog opens; only offered for a pending sale |
| SaleViews.SaleDetailsTableView.ClosePaymentModal | components/sales/sale-details-table.tsx:270-275 | the dialog closes |
| SaleViews.SaleDetailsTableView.SelectPaymentType | components/sales/sale-details-table.tsx:255-258 | the selected type becomes the chosen one |
| SaleViews.SaleDetailsTableView.HandlePayment | components/sales/sale-details-table.tsx:57-81 | the pay request carries the sale id and the selected type; processing ends false either way; the dialog closes and the parent is told only on success; the right toast is queued |
| SaleViews.SaleDetailsTableView.HandleCancel | components/sales/sale-details-table.tsx:83-103 | the cancel request carries the sale id; processing ends false either way; the parent is told only on success |
| SaleViews.SaleDetailsView.constructor | components/sales/sale-details.tsx:32-34 | the dialog is closed, nothing is processing, and the selected type is the sale's |
| SaleViews.SaleDetailsView.OpenPaymentModal | components/sales/sale-details.tsx:155-169 | the dialog opens; only offered for a pending sale |
| SaleViews.SaleDetailsView.ClosePaymentModal | components/sales/sale-details.tsx:194-199 | the dialog closes |
| SaleViews.SaleDetailsView.SelectPaymentType | components/sales/sale-details.tsx:179-182 | the selected type becomes the chosen one |
| SaleViews.SaleDetailsView.HandlePayment | components/sales/sale-details.tsx:56-82 | as in the table view, with plain `default` and `destructive` toasts and the error message passed through as is |
| ResetPassword.Validate | components/users/forms/reset-password-form.tsx:20-28 | accepted exactly when 6 ≤ \|newPassword\| ≤ 50 and confirmPassword == newPassword; a rejection always carries an issue |
| ResetPassword.Issues | components/users/forms/reset-password-form.tsx:20-28 | no issue exactly when the dto is accepted; issues at newPassword are length issues, the one at confirmPassword is the mismatch |
| ResetPassword.IssueFor | components/users/forms/reset-password-form.tsx:22-27 | too short, too long and mismatch are each reported exactly when their rule fails; the confirmation field only ever gets the mismatch |
| ResetPassword.MismatchReportedBesideLength | components/users/forms/reset-password-form.tsx:25-27 | a mismatch is reported at confirmPassword even when the length rule also fails |
| ResetPassword.ConfirmHasNoLengthRule | components/users/forms/reset-password-form.tsx:24 | with a valid new password, only a mismatch can reject the form |
| ResetPassword.DefaultsRejected | components/users/forms/reset-password-form.tsx:39-42 | the empty starting form is rejected, for the short new password only |
| SupplierDetails.SplitOnSpace | components/suppliers/supplier-details.tsx:29 | `split(' ')` gives at least one piece, and no piece holds a space |
| SupplierDetails.SplitJoinRoundTrip | components/suppliers/supplier-details.tsx:29 | joining the pieces with spaces gives the name back |
| SupplierDetails.FirstCharsAreWordStarts | components/suppliers/supplier-details.tsx:29-31 | the first characters of the pieces are exactly the characters that start a word |
| SupplierDetails.FirstCharsLength | components/suppliers/supplier-details.tsx:30-31 | empty pieces contribute nothing: one character per non-empty piece |
| SupplierDetails.ToUpperAscii | components/suppliers/supplier-details.tsx:32 | `toUpperCase` keeps the length and upper-cases each ASCII letter |
| SupplierDetails.GetInitials | components/suppliers/supplier-details.tsx:27-33 | the initials are the upper-cased characters that start a word, after the reference `WordStarts` |
| SupplierDetails.InitialsAreUpperWordStarts | components/suppliers/supplier-details.tsx:27-33 | the initials are the upper-cased word starts, and there are as many as non-empty pieces |
| SupplierDetails.InitialsOfOneWord | components/suppliers/supplier-details.tsx:27-33 | the empty name gives ""; a one-word name gives its first letter, upper-cased |
| SupplierDetails.ExtraSpacesAddNothing | components/suppliers/supplier-details.tsx:29-31 | leading and repeated spaces do not change the initials |
| SupplierDetails.DetailsShowGivenValues | components/suppliers/supplier-details.tsx:85-181 | for each of the eight lines, a given non-empty value is shown as is (the date goes to the formatter), and a missing or empty one shows "Non renseigné" or "Non renseignée" |
| SupplierDetails.FallbacksNeverBlank | components/suppliers/supplier-details.tsx:59 | the type badge is never blank; the company name falls back to the supplier name |
| SupplierDetails.TypeBadge | components/suppliers/supplier-details.tsx:59 | the badge shows the given type, or "Fournisseur", and is never blank |
| SupplierDetails.CompanyNameLine | components/suppliers/supplier-details.tsx:200 | the company name when given and non-empty, otherwise the supplier name |
| SupplierDetails.Details | components/suppliers/supplier-details.tsx:85-181 | no detail line is ever blank |
| ProductTable.Normalise | components/products/product-table.tsx:41-45 | `id` and `categoryId` become `String(...)` of the raw values; every other field is kept |
| ProductTable.NormaliseAll | components/products/product-table.tsx:41-45 | one product per raw record, in the same order |
| ProductTable.NormaliseKeepsTypedProducts | components/products/product-table.tsx:41-45 | records whose ids are already strings come through unchanged |
| ProductTable.NumericIdsReadBack | components/products/product-table.tsx:43-44 | a numeric id becomes text that parses back to the same number |
| ProductTable.LowStockThreshold | components/products/product-table.tsx:122 | the stock badge is `destructive` exactly when the stock is 10 or less |
| ProductTable.StockVariant | components/products/product-table.tsx:122 | `destructive` exactly at ten units or fewer |
| ProductTable.CategoryCell | components/products/product-table.tsx:117 | never blank; a named category shows its name |
| ProductTable.PriceCell | components/products/product-table.tsx:120 | `price \|\| 0` on a number that is always present is the price itself, 0 included |
| ProductTable.CategoryCellFallback | components/products/product-table.tsx:117 | a named category shows its name; none shows "Non catégorisé" |
| ProductTable.ProductTableView.constructor | components/products/product-table.tsx:31-34 | the table starts empty, loading, with nothing pending |
| ProductTable.ProductTableView.FetchProducts | components/products/product-table.tsx:37-56 | loading ends on success and on failure; success replaces the list by the normalised data; failure keeps it and queues the load-error toast |
| ProductTable.ProductTableView.HandleDelete | components/products/product-table.tsx:66-68 | the product becomes pending |
| ProductTable.ProductTableView.DismissDelete | components/products/product-table.tsx:161 | closing the dialog clears the pending product |
| ProductTable.ProductTableView.ConfirmDelete | components/products/product-table.tsx:70-88 | with nothing pending, nothing changes; otherwise one delete request for the pending id; on success a refetch then the success toast; on failure the error toast; the pending product is cleared either way |
| Toast.Error | lib/toast.ts:13-17 | `error` always carries a non-empty description |
| Toast.BuildersKeepTitle | lib/toast.ts:6-30 | every builder keeps the title and tags its own variant |
| Toast.OnlyErrorRewritesDescription | lib/toast.ts:19-29 | `success`, `warning` and `info` pass the description through; `error` keeps it exactly when it is non-empty |
| Toast.ErrorDescription | lib/toast.ts:13-17 | `error` substitutes "Une erreur est survenue" for a missing or empty description |

## Left out

- Floating point: money is integer cents, and rounding in `Intl.NumberFormat` and `toFixed(2)` is not modelled.
- Date and time formatting: `date-fns` `format`, its "Date invalide" fallback, and `new Date()`. A date is an opaque `Instant`, and "now" is a parameter.
- `delay`, `setTimeout` and `async`: calls are sequential, and each one completes before the next starts.
- The generated id (`Math.random().toString()`) is a parameter of `CreateSale`. The model does not assume ids are unique.
- Aliasing: `getSales` and `createSale` hand out the array and the object that the store keeps. Callers could then change the store through them. Here they get values.
- A patch field set explicitly to `undefined` overwrites the stored field under `...sale`. In `SalePatch` a field is either absent or a value.
- `markAsPaid` and `cancelSale` are called but not defined in the service, so at run time the call throws a `TypeError`. How the call ends is a parameter, and no transition rule is modelled.
- The form payloads are not fed into the store. The create payload lacks `totalAmount`, `saleDate` and `paymentDate`. The edit patch's lines lack `totalPrice`. The store's `Sale` cannot hold those partial records.
- `isLoading` of the sale forms, the toasts after submit, and the drawer and navigation state are not modelled.
- Zod's own message for a bad enum value is modelled as a single fixed text.
- String lengths are in characters, not UTF-16 code units (zod `min`/`max`, `n[0]`).
- `SupplierDetails.ToUpperAscii`: upper-cases ASCII letters only, so `toUpperCase` on other letters (é, ß) is not modelled.
- `JsText.ParseInt`: integers only; precision loss beyond 2^53 and NaN arithmetic are not modelled.
- `ProductTable.PriceCell`: a missing price (`undefined || 0`) cannot occur in the typed `Product`, so only the zero case is stated.
- The product's nested `supplier` record is not kept. Nothing here reads it.
- The supplier date formatting, the dashboard mock figures, the fetch-based services, `localStorage` sessions, the list's delete handler (`fetch` plus reload) and the remaining zod schemas are not part of this model.
