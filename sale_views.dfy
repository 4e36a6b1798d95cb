/**
 * How the three sale views present the PENDING / PAID / CANCELLED lifecycle:
 * `components/sales/sale-details-table.tsx`, `sale-details.tsx` and
 * `columns.tsx`. These views are the only place the lifecycle is encoded:
 * the service has no transition check and defines neither `markAsPaid` nor
 * `cancelSale`, so the views' calls to them are requests to a collaborator
 * whose outcome is a parameter here.
 *
 * Labels take the status and payment type as the strings the views compare,
 * so what they do with a value outside the unions can be stated.
 */
module SaleViews {
  import opened Wrappers
  import opened SaleTypes
  import Toast

  datatype BadgeVariant = DefaultBadge | SecondaryBadge | DestructiveBadge | OutlineBadge | SuccessBadge

  // ---------------------------------------------------------------------------
  // Labels
  // ---------------------------------------------------------------------------

  /** The French name of each lifecycle state, as every view prints it. */
  function LifecycleLabel(s: Status): string {
    match s
    case PENDING => "En attente"
    case PAID => "Payé"
    case CANCELLED => "Annulé"
  }

  /** The French name of each payment type, as every view prints it. */
  function PaymentName(p: PaymentType): string {
    match p
    case CASH => "Espèces"
    case CARD => "Carte"
    case TRANSFER => "Virement"
  }

  /** Status label of both details views: PAID, then CANCELLED, everything else pending. */
  function DetailsStatusLabel(status: string): (r: string)
    ensures r == LifecycleLabel(ParseStatus(status).GetOr(PENDING))
  {
    if status == "PAID" then "Payé" else if status == "CANCELLED" then "Annulé" else "En attente"
  }

  /** Status badge of `sale-details-table.tsx`. */
  function TableStatusVariant(status: string): (r: BadgeVariant)
    ensures r == SuccessBadge <==> DetailsStatusLabel(status) == "Payé"
    ensures r == DestructiveBadge <==> DetailsStatusLabel(status) == "Annulé"
    ensures r == DefaultBadge <==> DetailsStatusLabel(status) == "En attente"
  {
    if status == "PAID" then SuccessBadge else if status == "CANCELLED" then DestructiveBadge else DefaultBadge
  }

  /** Status badge of `sale-details.tsx`: PAID is `secondary` here. */
  function DetailsStatusVariant(status: string): (r: BadgeVariant)
    ensures r == SecondaryBadge <==> DetailsStatusLabel(status) == "Payé"
    ensures r == DestructiveBadge <==> DetailsStatusLabel(status) == "Annulé"
    ensures r == DefaultBadge <==> DetailsStatusLabel(status) == "En attente"
  {
    if status == "PAID" then SecondaryBadge else if status == "CANCELLED" then DestructiveBadge else DefaultBadge
  }

  /** Status label of the list: PAID, then PENDING, everything else cancelled. */
  function ColumnsStatusLabel(status: string): (r: string)
    ensures r == LifecycleLabel(ParseStatus(status).GetOr(CANCELLED))
  {
    if status == "PAID" then "Payé" else if status == "PENDING" then "En attente" else "Annulé"
  }

  /** Status badge of the list. */
  function ColumnsStatusVariant(status: string): (r: BadgeVariant)
    ensures r == SecondaryBadge <==> ColumnsStatusLabel(status) == "Payé"
    ensures r == OutlineBadge <==> ColumnsStatusLabel(status) == "En attente"
    ensures r == DestructiveBadge <==> ColumnsStatusLabel(status) == "Annulé"
  {
    if status == "PAID" then SecondaryBadge else if status == "PENDING" then OutlineBadge else DestructiveBadge
  }

  /** Payment label of the badges and the list: CASH, then CARD, everything else transfer. */
  function PaymentLabel(paymentType: string): (r: string)
    ensures r == PaymentName(ParsePaymentType(paymentType).GetOr(TRANSFER))
  {
    if paymentType == "CASH" then "Espèces" else if paymentType == "CARD" then "Carte" else "Virement"
  }

  /** The lower-case payment word of the "Payée le … en …" banner. */
  function PaymentPhrase(paymentType: string): string {
    if paymentType == "CASH" then "espèces" else if paymentType == "CARD" then "carte" else "virement"
  }

  /** A date cell: a placeholder text, or the date handed to the formatter. */
  datatype DateCell = Placeholder(text: string) | Formatted(at: Instant)

  /** A nullable date cell: the view's placeholder when there is no date, the date otherwise. */
  function PaymentDateCell(date: Option<Instant>, placeholder: string): (r: DateCell)
    ensures r.Placeholder? <==> date.None?
    ensures r.Placeholder? ==> r.text == placeholder
    ensures r.Formatted? ==> date == Some(r.at)
  {
    match date
    case None => Placeholder(placeholder)
    case Some(d) => Formatted(d)
  }

  /** What `formatDate` in both details views prints for a null date. */
  const DetailsNoDate := "Non spécifié"

  /** What the list's payment-date cell prints for a null date. */
  const ColumnsNoDate := "-"

  /** The details views show the payment-date row only when a date is set. */
  function ShowsPaymentDateRow(date: Option<Instant>): bool {
    date.Some?
  }

  /** The details views show the payment-type row only when the type is truthy. */
  function ShowsPaymentTypeRow(paymentType: string): bool {
    paymentType != ""
  }

  /** The first character of a label in lower case (ASCII letters only). */
  function LowerInitial(s: string): string {
    if |s| > 0 && 'A' <= s[0] <= 'Z' then [(s[0] as int + 32) as char] + s[1..] else s
  }

  /** `sale.paymentType || 'CASH'`: the payment type the pay dialog starts on. */
  function InitialPaymentWire(paymentType: string): (r: string)
    ensures r != ""
    ensures paymentType != "" ==> r == paymentType
  {
    if paymentType == "" then "CASH" else paymentType
  }

  // ---------------------------------------------------------------------------
  // Gating
  // ---------------------------------------------------------------------------

  /** The read-only banner a settled sale shows instead of the actions. */
  datatype Banner = NoBanner | PaidBanner | CancelledBanner

  /** What `sale-details-table.tsx` offers for a status. */
  datatype TableActions = TableActions(pay: bool, cancel: bool, banner: Banner)

  function TableActionsFor(status: string): (r: TableActions)
    ensures r.pay <==> ParseStatus(status) == Some(PENDING)
    ensures r.cancel == r.pay
    ensures r.banner == NoBanner <==> r.pay
    ensures r.banner == PaidBanner <==> ParseStatus(status) == Some(PAID)
  {
    if status == "PENDING" then TableActions(true, true, NoBanner)
    else if status == "PAID" then TableActions(false, false, PaidBanner)
    else TableActions(false, false, CancelledBanner)
  }

  /** `sale-details.tsx` offers "mark as paid" for a pending sale and no cancel at all. */
  function DetailsOffersPay(status: string): (r: bool)
    ensures r == TableActionsFor(status).pay
  {
    status == "PENDING"
  }

  // ---------------------------------------------------------------------------
  // The pay and cancel handlers
  // ---------------------------------------------------------------------------

  /** A request to the service that the views make. */
  datatype ServiceCall = MarkAsPaid(saleId: string, paymentType: PaymentType, paymentDate: Instant)
                       | CancelSale(saleId: string)

  /** How an awaited call ended: completed, or threw (with its message when an `Error` was thrown). */
  datatype CallOutcome = Completed | Threw(message: Option<string>)

  /** `error instanceof Error ? error.message : fallback`. */
  function ErrorText(message: Option<string>, fallback: string): string {
    match message
    case Some(m) => m
    case None => fallback
  }

  /** The state `SaleDetailsTable` keeps while showing one sale. */
  class SaleDetailsTableView {
    const sale: Sale
    const hasOnUpdate: bool
    var isPaymentModalOpen: bool
    var selectedPaymentType: PaymentType
    var isProcessing: bool
    var calls: seq<ServiceCall>
    var toasts: seq<Toast.Toast>
    var updatesNotified: nat

    constructor (sale: Sale, hasOnUpdate: bool)
      ensures this.sale == sale && this.hasOnUpdate == hasOnUpdate
      ensures PaymentWire(selectedPaymentType) == InitialPaymentWire(PaymentWire(sale.paymentType))
      ensures !isPaymentModalOpen && !isProcessing
      ensures calls == [] && toasts == [] && updatesNotified == 0
    {
      this.sale := sale;
      this.hasOnUpdate := hasOnUpdate;
      isPaymentModalOpen := false;
      selectedPaymentType := sale.paymentType;
      isProcessing := false;
      calls := [];
      toasts := [];
      updatesNotified := 0;
    }

    /** "Marquer comme payé", rendered only for a pending sale. */
    method OpenPaymentModal()
      requires TableActionsFor(StatusWire(sale.status)).pay
      modifies this`isPaymentModalOpen
      ensures isPaymentModalOpen
    {
      isPaymentModalOpen := true;
    }

    /** "Annuler" in the dialog, or the dialog dismissed. */
    method ClosePaymentModal()
      modifies this`isPaymentModalOpen
      ensures !isPaymentModalOpen
    {
      isPaymentModalOpen := false;
    }

    /** The payment select in the dialog. */
    method SelectPaymentType(p: PaymentType)
      modifies this`selectedPaymentType
      ensures selectedPaymentType == p
    {
      selectedPaymentType := p;
    }

    /**
     * `handlePayment`: asks the service to mark the sale paid with the selected
     * type at `now`; on success a success toast, the dialog closes and the
     * parent is told; on failure an error toast and the dialog stays as it
     * was. Either way `isProcessing` is false afterwards.
     */
    method HandlePayment(now: Instant, outcome: CallOutcome)
      requires !isProcessing
      modifies this`isProcessing, this`calls, this`toasts, this`isPaymentModalOpen, this`updatesNotified
      ensures !isProcessing
      ensures calls == old(calls) + [MarkAsPaid(sale.id, selectedPaymentType, now)]
      ensures outcome.Completed? ==>
        && !isPaymentModalOpen
        && toasts == old(toasts) + [Toast.Success(Toast.ToastMessage(
             "Paiement enregistré avec succès", Some("La vente a été marquée comme payée")))]
        && updatesNotified == old(updatesNotified) + (if hasOnUpdate then 1 else 0)
      ensures outcome.Threw? ==>
        && isPaymentModalOpen == old(isPaymentModalOpen)
        && toasts == old(toasts) + [Toast.Error(Toast.ToastMessage("Erreur de paiement",
             Some(ErrorText(outcome.message, "Une erreur est survenue lors du paiement"))))]
        && updatesNotified == old(updatesNotified)
    {
      isProcessing := true;
      calls := calls + [MarkAsPaid(sale.id, selectedPaymentType, now)];
      if outcome.Completed? {
        toasts := toasts + [Toast.Success(Toast.ToastMessage(
          "Paiement enregistré avec succès", Some("La vente a été marquée comme payée")))];
        isPaymentModalOpen := false;
        if hasOnUpdate {
          updatesNotified := updatesNotified + 1;
        }
      } else {
        toasts := toasts + [Toast.Error(Toast.ToastMessage("Erreur de paiement",
          Some(ErrorText(outcome.message, "Une erreur est survenue lors du paiement"))))];
      }
      isProcessing := false;
    }

    /**
     * `handleCancel`: asks the service to cancel the sale, with a success or
     * error toast; it never touches the dialog. `isProcessing` is false afterwards.
     */
    method HandleCancel(outcome: CallOutcome)
      requires !isProcessing && TableActionsFor(StatusWire(sale.status)).cancel
      modifies this`isProcessing, this`calls, this`toasts, this`updatesNotified
      ensures !isProcessing
      ensures calls == old(calls) + [CancelSale(sale.id)]
      ensures outcome.Completed? ==>
        && toasts == old(toasts) + [Toast.Success(Toast.ToastMessage(
             "Vente annulée avec succès", Some("La vente a été annulée")))]
        && updatesNotified == old(updatesNotified) + (if hasOnUpdate then 1 else 0)
      ensures outcome.Threw? ==>
        && toasts == old(toasts) + [Toast.Error(Toast.ToastMessage("Erreur d'annulation",
             Some(ErrorText(outcome.message, "Une erreur est survenue lors de l'annulation"))))]
        && updatesNotified == old(updatesNotified)
    {
      isProcessing := true;
      calls := calls + [CancelSale(sale.id)];
      if outcome.Completed? {
        toasts := toasts + [Toast.Success(Toast.ToastMessage(
          "Vente annulée avec succès", Some("La vente a été annulée")))];
        if hasOnUpdate {
          updatesNotified := updatesNotified + 1;
        }
      } else {
        toasts := toasts + [Toast.Error(Toast.ToastMessage("Erreur d'annulation",
          Some(ErrorText(outcome.message, "Une erreur est survenue lors de l'annulation"))))];
      }
      isProcessing := false;
    }
  }

  /** The state `SaleDetails` keeps while showing one sale. */
  class SaleDetailsView {
    const sale: Sale
    const hasOnUpdate: bool
    var isPaymentModalOpen: bool
    var selectedPaymentType: PaymentType
    var isProcessing: bool
    var calls: seq<ServiceCall>
    var toasts: seq<Toast.Toast>
    var updatesNotified: nat

    constructor (sale: Sale, hasOnUpdate: bool)
      ensures this.sale == sale && this.hasOnUpdate == hasOnUpdate
      ensures PaymentWire(selectedPaymentType) == InitialPaymentWire(PaymentWire(sale.paymentType))
      ensures !isPaymentModalOpen && !isProcessing
      ensures calls == [] && toasts == [] && updatesNotified == 0
    {
      this.sale := sale;
      this.hasOnUpdate := hasOnUpdate;
      isPaymentModalOpen := false;
      selectedPaymentType := sale.paymentType;
      isProcessing := false;
      calls := [];
      toasts := [];
      updatesNotified := 0;
    }

    /** "Marquer comme payé", rendered only for a pending sale. */
    method OpenPaymentModal()
      requires DetailsOffersPay(StatusWire(sale.status))
      modifies this`isPaymentModalOpen
      ensures isPaymentModalOpen
    {
      isPaymentModalOpen := true;
    }

    /** "Annuler" in the dialog, or the dialog dismissed. */
    method ClosePaymentModal()
      modifies this`isPaymentModalOpen
      ensures !isPaymentModalOpen
    {
      isPaymentModalOpen := false;
    }

    /** The payment select in the dialog. */
    method SelectPaymentType(p: PaymentType)
      modifies this`selectedPaymentType
      ensures selectedPaymentType == p
    {
      selectedPaymentType := p;
    }

    /**
     * `handlePayment`: as in the table view, but with plain toasts (variant
     * `default` on success; on failure `destructive`, titled "Erreur", the
     * message passed through even when empty).
     */
    method HandlePayment(now: Instant, outcome: CallOutcome)
      requires !isProcessing
      modifies this`isProcessing, this`calls, this`toasts, this`isPaymentModalOpen, this`updatesNotified
      ensures !isProcessing
      ensures calls == old(calls) + [MarkAsPaid(sale.id, selectedPaymentType, now)]
      ensures outcome.Completed? ==>
        && !isPaymentModalOpen
        && toasts == old(toasts) + [Toast.Toast("Paiement enregistré avec succès",
             Some("La vente a été marquée comme payée"), Some(Toast.DefaultVariant))]
        && updatesNotified == old(updatesNotified) + (if hasOnUpdate then 1 else 0)
      ensures outcome.Threw? ==>
        && isPaymentModalOpen == old(isPaymentModalOpen)
        && toasts == old(toasts) + [Toast.Toast("Erreur",
             Some(ErrorText(outcome.message, "Une erreur est survenue lors du paiement")), Some(Toast.Destructive))]
        && updatesNotified == old(updatesNotified)
    {
      isProcessing := true;
      calls := calls + [MarkAsPaid(sale.id, selectedPaymentType, now)];
      if outcome.Completed? {
        toasts := toasts + [Toast.Toast("Paiement enregistré avec succès",
          Some("La vente a été marquée comme payée"), Some(Toast.DefaultVariant))];
        isPaymentModalOpen := false;
        if hasOnUpdate {
          updatesNotified := updatesNotified + 1;
        }
      } else {
        toasts := toasts + [Toast.Toast("Erreur",
          Some(ErrorText(outcome.message, "Une erreur est survenue lors du paiement")), Some(Toast.Destructive))];
      }
      isProcessing := false;
    }
  }

  // ---------------------------------------------------------------------------
  // What the views promise, and where they disagree
  // ---------------------------------------------------------------------------

  /** Pay and cancel are offered exactly for PENDING; a settled sale shows its own banner. */
  lemma TableGatingByStatus(s: Status)
    ensures TableActionsFor(StatusWire(s)).pay <==> s == PENDING
    ensures TableActionsFor(StatusWire(s)).cancel <==> s == PENDING
    ensures s == PAID ==> TableActionsFor(StatusWire(s)).banner == PaidBanner
    ensures s == CANCELLED ==> TableActionsFor(StatusWire(s)).banner == CancelledBanner
    ensures DetailsOffersPay(StatusWire(s)) <==> s == PENDING
  {
  }

  /** On every status of the union, the three views print the same label, and no two statuses share one. */
  lemma StatusLabelsAgree(s: Status, t: Status)
    ensures DetailsStatusLabel(StatusWire(s)) == ColumnsStatusLabel(StatusWire(s))
    ensures s != t ==> DetailsStatusLabel(StatusWire(s)) != DetailsStatusLabel(StatusWire(t))
  {
  }

  /**
   * On a string outside the union the views part ways: the details views read
   * it as pending, the list as cancelled, and the table view shows the
   * "cancelled" banner under a "pending" badge with no action offered.
   */
  lemma UnknownStatusDisagreement(status: string)
    requires ParseStatus(status).None?
    ensures DetailsStatusLabel(status) == "En attente"
    ensures ColumnsStatusLabel(status) == "Annulé"
    ensures TableActionsFor(status) == TableActions(false, false, CancelledBanner)
    ensures !DetailsOffersPay(status)
  {
  }

  /** PAID is `success` in the table view and `secondary` in the other two; CANCELLED is `destructive` in all. */
  lemma StatusVariantsByView()
    ensures TableStatusVariant("PAID") == SuccessBadge
    ensures DetailsStatusVariant("PAID") == SecondaryBadge == ColumnsStatusVariant("PAID")
    ensures TableStatusVariant("CANCELLED") == DetailsStatusVariant("CANCELLED")
      == ColumnsStatusVariant("CANCELLED") == DestructiveBadge
    ensures TableStatusVariant("PENDING") == DetailsStatusVariant("PENDING") == DefaultBadge
    ensures ColumnsStatusVariant("PENDING") == OutlineBadge
  {
  }

  /** Payment labels tell the three types apart, and any other string reads as a transfer. */
  lemma PaymentLabels(p: PaymentType, q: PaymentType, other: string)
    requires ParsePaymentType(other).None?
    ensures p != q ==> PaymentLabel(PaymentWire(p)) != PaymentLabel(PaymentWire(q))
    ensures PaymentLabel(other) == PaymentLabel(PaymentWire(TRANSFER)) == "Virement"
  {
  }

  /** The banner's payment word is the badge label with a lower-case initial, for every string. */
  lemma PaymentPhraseIsLabel(paymentType: string)
    ensures PaymentPhrase(paymentType) == LowerInitial(PaymentLabel(paymentType))
  {
    if paymentType == "CASH" {
      assert LowerInitial("Espèces") == ['e'] + "Espèces"[1..];
    } else if paymentType == "CARD" {
      assert LowerInitial("Carte") == ['c'] + "Carte"[1..];
    } else {
      assert LowerInitial("Virement") == ['v'] + "Virement"[1..];
    }
  }

  /**
   * The `|| 'CASH'` fallback never fires for a typed sale, and the payment-type
   * row always shows: every payment string is non-empty.
   */
  lemma TypedPaymentAlwaysPresent(p: PaymentType)
    ensures InitialPaymentWire(PaymentWire(p)) == PaymentWire(p)
    ensures ShowsPaymentTypeRow(PaymentWire(p))
  {
  }

  /** A null payment date reads "Non spécifié" in the details and "-" in the list, and hides the details row. */
  lemma NullPaymentDate()
    ensures PaymentDateCell(None, DetailsNoDate) == Placeholder("Non spécifié")
    ensures PaymentDateCell(None, ColumnsNoDate) == Placeholder("-")
    ensures !ShowsPaymentDateRow(None)
  {
  }
}
