/**
 * The partner (ally) code validation page (components/pages/ally-validation-page.tsx):
 * a code typed by a pharmacy, laboratory or imaging partner is looked up among
 * the prescription codes and then among the order codes; a found code can be
 * redeemed, and a laboratory or imaging order can get a result file.
 *
 * The signed-in user is a parameter, and so are the clock and its ISO form.
 */
module AllyValidation {

  import opened Wrappers
  import opened Text
  import opened Lists
  import opened Types
  import opened Store

  /** The `{ type, data, notFound }` triple, one constructor per shape it takes. */
  datatype SearchResult =
    | Idle
    | NotFound
    | FoundPrescription(prescription: PrescriptionCode)
    | FoundOrder(order: OrderCode)

  datatype CodeKind = PrescriptionKind | OrderKind

  /** The query as it is compared: trimmed and upper-cased. */
  function Normalize(q: string): string {
    Upper(Trim(q))
  }

  /**
   * The lookup: exact equality with the normalised query, prescriptions first,
   * the first matching entry of a table winning.
   */
  function Lookup(prescriptions: seq<PrescriptionCode>, orders: seq<OrderCode>, code: string): (r: SearchResult)
    ensures r != Idle
    ensures r.FoundPrescription? ==> r.prescription in prescriptions && r.prescription.code == code
    ensures r.FoundPrescription? ==> exists k :: 0 <= k < |prescriptions| && prescriptions[k] == r.prescription
                                       && forall j :: 0 <= j < k ==> prescriptions[j].code != code
    ensures (exists p :: p in prescriptions && p.code == code) ==> r.FoundPrescription?
    ensures r.FoundOrder? ==> r.order in orders && r.order.code == code
    ensures r.FoundOrder? ==> forall p :: p in prescriptions ==> p.code != code
    ensures r.FoundOrder? ==> exists k :: 0 <= k < |orders| && orders[k] == r.order
                                       && forall j :: 0 <= j < k ==> orders[j].code != code
    ensures r == NotFound <==> (forall p :: p in prescriptions ==> p.code != code) && (forall o :: o in orders ==> o.code != code)
  {
    var p := FindFirst(prescriptions, (c: PrescriptionCode) => c.code == code);
    if p.Some? then FoundPrescription(p.value)
    else
      var o := FindFirst(orders, (c: OrderCode) => c.code == code);
      if o.Some? then FoundOrder(o.value) else NotFound
  }

  /** A code present in both tables resolves to the prescription. */
  lemma PrescriptionsWin(prescriptions: seq<PrescriptionCode>, orders: seq<OrderCode>, p: PrescriptionCode, o: OrderCode)
    requires p in prescriptions && o in orders && p.code == o.code
    ensures Lookup(prescriptions, orders, p.code).FoundPrescription?
  {
  }

  /** `currentUser?.allyId ? allies.find(...) : null`. */
  function AllyOf(user: Option<User>, allies: seq<Ally>): (r: Option<Ally>)
    ensures r.Some? ==> user.Some? && Present(user.value.allyId) && r.value in allies && r.value.id == user.value.allyId.value
    ensures user.Some? && Present(user.value.allyId) && (exists a :: a in allies && a.id == user.value.allyId.value) ==> r.Some?
  {
    if user.Some? && Present(user.value.allyId) then FindFirst(allies, (a: Ally) => a.id == user.value.allyId.value)
    else None
  }

  /** `isLabOrImaging`. */
  predicate IsLabOrImaging(ally: Option<Ally>) {
    ally.Some? && (ally.value.serviceType == LaboratoryService || ally.value.serviceType == ImagingService)
  }

  /** The redeem button is shown for a found code that is not used yet. */
  predicate ActionsOffered(r: SearchResult) {
    (r.FoundPrescription? && !r.prescription.used) || (r.FoundOrder? && !r.order.used)
  }

  /** Upload is offered for an unused laboratory or imaging order, to a laboratory or imaging partner. */
  predicate UploadOffered(r: SearchResult, ally: Option<Ally>) {
    ActionsOffered(r) && r.FoundOrder? && IsLabOrImaging(ally)
    && (r.order.orderType == Laboratory || r.order.orderType == Imaging)
  }

  /** Upload is never offered to a pharmacy, nor for a prescription or a physiotherapy order. */
  lemma UploadOnlyForResults(r: SearchResult, ally: Option<Ally>)
    ensures UploadOffered(r, ally) ==> ActionsOffered(r) && OrderResultType(r.order.orderType).Some?
    ensures ally.Some? && ally.value.serviceType == PharmacyService ==> !UploadOffered(r, ally)
    ensures r.FoundPrescription? ==> !UploadOffered(r, ally)
  {
  }

  /** The lab result an upload appends. */
  function ResultFor(order: OrderCode, ally: Ally, now: nat, nowIso: string): LabResult
    requires order.orderType != Physiotherapy
  {
    LabResult("result-" + DecimalString(now), order.code, order.patientId, ally.id, ally.name,
              OrderResultType(order.orderType).value,
              "resultado-" + order.code + "-" + DecimalString(now) + ".pdf", nowIso, order.description)
  }

  /** The result points back at its order by code, for the same patient and kind. */
  lemma ResultMatchesOrder(order: OrderCode, ally: Ally, now: nat, nowIso: string)
    requires order.orderType != Physiotherapy
    ensures var r := ResultFor(order, ally, now, nowIso);
      r.orderId == order.code && r.patientId == order.patientId && r.allyId == ally.id
      && ResultOrderType(r.resultType) == order.orderType
  {
  }

  class ValidationPage {
    var searchCode: string
    var searchResult: SearchResult

    constructor ()
      ensures searchCode == "" && searchResult == Idle
    {
      searchCode := "";
      searchResult := Idle;
    }

    /** The input upper-cases what is typed. */
    method SetSearchCode(v: string)
      modifies this
      ensures searchCode == Upper(v) && searchResult == old(searchResult)
    {
      searchCode := Upper(v);
    }

    /** `handleSearch`: a blank query does nothing, otherwise the lookup result is shown. */
    method HandleSearch(store: AppStore)
      modifies this
      ensures Trim(old(searchCode)) == "" ==> searchResult == old(searchResult)
      ensures Trim(old(searchCode)) != "" ==>
        searchResult == Lookup(store.prescriptionCodes, store.orderCodes, Normalize(old(searchCode)))
      ensures searchCode == old(searchCode)
    {
      if Trim(searchCode) == "" {
        return;
      }
      searchResult := Lookup(store.prescriptionCodes, store.orderCodes, Normalize(searchCode));
    }

    /** `handleMarkAsUsed`: redeems the code in the table its kind names, then clears the page. */
    method HandleMarkAsUsed(store: AppStore, code: string, kind: CodeKind, nowIso: string)
      modifies this, store
      ensures kind == PrescriptionKind ==>
        && |store.prescriptionCodes| == |old(store.prescriptionCodes)|
        && (forall i :: 0 <= i < |store.prescriptionCodes| ==>
              store.prescriptionCodes[i] == if old(store.prescriptionCodes)[i].code == code
                                            then RedeemPrescription(old(store.prescriptionCodes)[i], nowIso)
                                            else old(store.prescriptionCodes)[i])
        && store.State() == old(store.State()).(prescriptionCodes := store.prescriptionCodes)
      ensures kind == OrderKind ==>
        && |store.orderCodes| == |old(store.orderCodes)|
        && (forall i :: 0 <= i < |store.orderCodes| ==>
              store.orderCodes[i] == if old(store.orderCodes)[i].code == code
                                     then RedeemOrder(old(store.orderCodes)[i], nowIso)
                                     else old(store.orderCodes)[i])
        && store.State() == old(store.State()).(orderCodes := store.orderCodes)
      ensures searchResult == Idle && searchCode == ""
    {
      if kind == PrescriptionKind {
        store.UsePrescriptionCode(code, nowIso);
      } else {
        store.UseOrderCode(code, nowIso);
      }
      searchResult := Idle;
      searchCode := "";
    }

    /**
     * `handleUploadResult`: without a partner or a user nothing happens;
     * otherwise one lab result is appended and the page is cleared.  The
     * order code itself is left as it was: it is not redeemed.  The upload
     * control is only drawn for laboratory and imaging orders, which is what
     * the precondition on the order's kind records.
     */
    method HandleUploadResult(store: AppStore, user: Option<User>, order: OrderCode, now: nat, nowIso: string)
      requires order.orderType != Physiotherapy
      modifies this, store
      ensures AllyOf(user, old(store.allies)).None? ==>
        store.State() == old(store.State()) && searchResult == old(searchResult) && searchCode == old(searchCode)
      ensures AllyOf(user, old(store.allies)).Some? ==>
        && store.labResults == old(store.labResults) + [ResultFor(order, AllyOf(user, old(store.allies)).value, now, nowIso)]
        && store.State() == old(store.State()).(labResults := store.labResults)
        && searchResult == Idle && searchCode == ""
      ensures store.orderCodes == old(store.orderCodes)
    {
      var ally := AllyOf(user, store.allies);
      if ally.None? || user.None? {
        return;
      }
      store.AddLabResult(ResultFor(order, ally.value, now, nowIso));
      searchResult := Idle;
      searchCode := "";
    }

    /**
     * The upload as the notice beside its button describes it: the result is
     * appended and the order is redeemed as well.  As above, only laboratory
     * and imaging orders reach it.
     */
    method HandleUploadAndRedeem(store: AppStore, user: Option<User>, order: OrderCode, now: nat, nowIso: string)
      requires order.orderType != Physiotherapy
      modifies this, store
      ensures AllyOf(user, old(store.allies)).None? ==>
        store.State() == old(store.State()) && searchResult == old(searchResult) && searchCode == old(searchCode)
      ensures AllyOf(user, old(store.allies)).Some? ==>
        && store.labResults == old(store.labResults) + [ResultFor(order, AllyOf(user, old(store.allies)).value, now, nowIso)]
        && |store.orderCodes| == |old(store.orderCodes)|
        && (forall i :: 0 <= i < |store.orderCodes| ==>
              store.orderCodes[i] == if old(store.orderCodes)[i].code == order.code
                                     then RedeemOrder(old(store.orderCodes)[i], nowIso)
                                     else old(store.orderCodes)[i])
        && (forall c :: c in store.orderCodes && c.code == order.code ==> c.used)
        && store.State() == old(store.State()).(labResults := store.labResults, orderCodes := store.orderCodes)
        && searchResult == Idle && searchCode == ""
    {
      var ally := AllyOf(user, store.allies);
      if ally.None? || user.None? {
        return;
      }
      store.AddLabResult(ResultFor(order, ally.value, now, nowIso));
      store.UseOrderCode(order.code, nowIso);
      searchResult := Idle;
      searchCode := "";
    }
  }

  /**
   * After an upload as written (the store changed as `HandleUploadResult`
   * promises: only the lab results), searching the same code again finds the
   * same order, still unused, and offers the upload once more.
   */
  lemma UploadLeavesOrderOffered(before: StoreState, after: StoreState, code: string, ally: Option<Ally>)
    requires UploadOffered(Lookup(before.prescriptionCodes, before.orderCodes, code), ally)
    requires after == before.(labResults := after.labResults)
    ensures Lookup(after.prescriptionCodes, after.orderCodes, code) == Lookup(before.prescriptionCodes, before.orderCodes, code)
    ensures var r := Lookup(after.prescriptionCodes, after.orderCodes, code);
      r.FoundOrder? && !r.order.used && UploadOffered(r, ally)
  {
  }

  /**
   * After the upload as intended (the result appended and every order with the
   * code redeemed), the same search finds a used order and offers nothing.
   */
  lemma RedeemedUploadNotOffered(before: StoreState, after: StoreState, code: string, ally: Option<Ally>, nowIso: string)
    requires UploadOffered(Lookup(before.prescriptionCodes, before.orderCodes, code), ally)
    requires after.prescriptionCodes == before.prescriptionCodes
    requires |after.orderCodes| == |before.orderCodes|
    requires forall i :: 0 <= i < |after.orderCodes| ==>
               after.orderCodes[i] == if before.orderCodes[i].code == code
                                      then RedeemOrder(before.orderCodes[i], nowIso)
                                      else before.orderCodes[i]
    ensures var r := Lookup(after.prescriptionCodes, after.orderCodes, code);
      r.FoundOrder? && r.order.used && !ActionsOffered(r) && !UploadOffered(r, ally)
  {
    RedeemedStillFound(before.prescriptionCodes, before.orderCodes, after.orderCodes, code, nowIso);
    RedeemedFoundIsUsed(before.prescriptionCodes, before.orderCodes, after.orderCodes, code, nowIso);
  }

  /** After redeeming every order code that matches, an order the search finds is a used one. */
  lemma {:induction false} RedeemedFoundIsUsed(prescriptions: seq<PrescriptionCode>, before: seq<OrderCode>,
                                               after: seq<OrderCode>, code: string, nowIso: string)
    requires Lookup(prescriptions, after, code).FoundOrder?
    requires |after| == |before|
    requires forall i :: 0 <= i < |after| ==>
               after[i] == if before[i].code == code then RedeemOrder(before[i], nowIso) else before[i]
    ensures Lookup(prescriptions, after, code).order.used
  {
    var r := Lookup(prescriptions, after, code);
    var j :| 0 <= j < |after| && after[j] == r.order;
    assert before[j].code == code;
  }

  /** Redeeming every order code that matches keeps the search finding an order. */
  lemma {:induction false} RedeemedStillFound(prescriptions: seq<PrescriptionCode>, before: seq<OrderCode>,
                                              after: seq<OrderCode>, code: string, nowIso: string)
    requires Lookup(prescriptions, before, code).FoundOrder?
    requires |after| == |before|
    requires forall i :: 0 <= i < |after| ==>
               after[i] == if before[i].code == code then RedeemOrder(before[i], nowIso) else before[i]
    ensures Lookup(prescriptions, after, code).FoundOrder?
  {
    var r0 := Lookup(prescriptions, before, code);
    var k :| 0 <= k < |before| && before[k] == r0.order;
    assert after[k].code == code;
    assert after[k] in after;
  }
}
