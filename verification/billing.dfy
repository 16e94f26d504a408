/**
 * The pro-entitlement manager. Its state is the `isPro` flag, the
 * `isProcessing` re-entrancy flag, whether a Digital Goods service has been
 * obtained, and the `'isPro'` entry of `localStorage`, the only place the
 * entitlement is persisted.
 *
 * The payment platform is abstract: every awaited platform call is given
 * as an outcome (resolved with a value, or rejected with a named error).
 */
module Billing {
  import opened JsValues
  import opened Storage

  const ProductId: string := "pro_version"
  const IsProKey: string := "isPro"
  const AbortError: string := "AbortError"

  datatype JsError = JsError(name: string, message: string)

  /** How an awaited call settles. */
  datatype Step<+T> = Resolved(value: T) | Rejected(error: JsError)

  /** The error `new Error('Product not found')` raised for an empty details list. */
  const ProductNotFound: JsError := JsError("Error", "Product not found")

  /** The TypeError of calling `getDetails` on a service that was never obtained. */
  const NoService: JsError := JsError("TypeError", "this.service is undefined")

  /**
   * The outcomes of the awaited calls on the Google Play path, in the order
   * the code makes them. `details` lists the item ids returned for
   * `['pro_version']`; `show` resolves with the purchase token;
   * `acknowledge` is `None` when the service has no `acknowledge` method.
   */
  datatype PlayPlatform = PlayPlatform(
    connect: Step<()>,
    details: Step<seq<string>>,
    show: Step<string>,
    complete: Step<()>,
    acknowledge: Option<Step<()>>)

  /** The `catch` of `purchaseViaPlayBilling`: an AbortError is swallowed, anything else rethrown. */
  function Swallow(e: JsError): (r: Step<()>)
    ensures r.Resolved? <==> e.name == AbortError
    ensures r.Rejected? ==> r.error == e
  {
    if e.name == AbortError then Resolved(()) else Rejected(e)
  }

  /** Whether a service is available for the Play path, obtaining one if needed. */
  predicate ServiceReady(hadService: bool, p: PlayPlatform) {
    hadService || p.connect.Resolved?
  }

  /**
   * The Play path activates pro exactly when the service is available, the
   * details list is non-empty, and payment, completion and (when the
   * service has it) acknowledgement all succeed.
   */
  predicate PlayActivates(hadService: bool, p: PlayPlatform) {
    && ServiceReady(hadService, p)
    && p.details.Resolved? && |p.details.value| > 0
    && p.show.Resolved?
    && p.complete.Resolved?
    && (p.acknowledge.None? || p.acknowledge.value.Resolved?)
  }

  /** Whether the Play path gets as far as showing the payment sheet. */
  predicate PlayRequestsPayment(hadService: bool, p: PlayPlatform) {
    ServiceReady(hadService, p) && p.details.Resolved? && |p.details.value| > 0
  }

  /**
   * How `purchaseViaPlayBilling` settles: resolved on success or after a
   * swallowed AbortError, otherwise rejected with the first error met.
   */
  function PlayOutcome(hadService: bool, p: PlayPlatform): (r: Step<()>)
    ensures PlayActivates(hadService, p) ==> r == Resolved(())
    ensures r.Rejected? ==> r.error.name != AbortError && !PlayActivates(hadService, p)
    ensures ServiceReady(hadService, p) && p.details == Resolved([]) ==> r == Rejected(ProductNotFound)
    ensures !ServiceReady(hadService, p) ==> r == Rejected(NoService)
    // the first step that rejects decides the outcome, an AbortError being swallowed
    ensures ServiceReady(hadService, p) && p.details.Rejected? ==> r == Swallow(p.details.error)
    ensures PlayRequestsPayment(hadService, p) && p.show.Rejected? ==> r == Swallow(p.show.error)
    ensures PlayRequestsPayment(hadService, p) && p.show.Resolved? && p.complete.Rejected?
            ==> r == Swallow(p.complete.error)
    ensures PlayRequestsPayment(hadService, p) && p.show.Resolved? && p.complete.Resolved?
            && p.acknowledge.Some? && p.acknowledge.value.Rejected?
            ==> r == Swallow(p.acknowledge.value.error)
  {
    if !ServiceReady(hadService, p) then Rejected(NoService)
    else if p.details.Rejected? then Swallow(p.details.error)
    else if |p.details.value| == 0 then Swallow(ProductNotFound)
    else if p.show.Rejected? then Swallow(p.show.error)
    else if p.complete.Rejected? then Swallow(p.complete.error)
    else if p.acknowledge.Some? && p.acknowledge.value.Rejected? then Swallow(p.acknowledge.value.error)
    else Resolved(())
  }

  /** Restoring activates pro exactly when a service is available and its listing names `pro_version`. */
  predicate RestoreActivates(hadService: bool, supported: bool, connect: Step<()>, listing: Step<seq<string>>) {
    (hadService || (supported && connect.Resolved?)) && listing.Resolved? && ProductId in listing.value
  }

  class BillingManager {
    var isPro: bool
    var isProcessing: bool
    /** Whether `this.service` holds a Digital Goods service. */
    var hasService: bool
    const storage: LocalStorage
    /** How many purchase attempts have reached a payment path (Play or simulated). */
    ghost var paymentAttempts: nat

    /** The flag and its persisted copy agree. */
    ghost predicate Valid()
      reads this, storage
    {
      isPro <==> IsProKey in storage.items && storage.items[IsProKey] == "true"
    }

    /** `new BillingManager()`: not processing, no service, pro status loaded from storage. */
    constructor (storage: LocalStorage)
      ensures this.storage == storage && Valid()
      ensures isPro <==> IsProKey in storage.items && storage.items[IsProKey] == "true"
      ensures !isProcessing && !hasService && paymentAttempts == 0
    {
      this.storage := storage;
      isPro := false;
      isProcessing := false;
      hasService := false;
      paymentAttempts := 0;
      new;
      LoadProStatus();
    }

    /** `loadProStatus()`: pro exactly when the stored value is the string `'true'`. */
    method LoadProStatus()
      modifies this`isPro
      ensures Valid()
    {
      var saved := storage.GetItem(IsProKey);
      isPro := saved == Some("true");
    }

    /** `saveProStatus()`: persist the flag as `'true'` or `'false'`. */
    method SaveProStatus()
      modifies storage
      ensures storage.items == old(storage.items)[IsProKey := if isPro then "true" else "false"]
    {
      storage.SetItem(IsProKey, if isPro then "true" else "false");
    }

    /**
     * `initializeBilling()`: without Digital Goods support, report false;
     * otherwise try to obtain the service.
     */
    method InitializeBilling(supported: bool, connect: Step<()>) returns (ok: bool)
      modifies this`hasService
      ensures ok <==> supported && connect.Resolved?
      ensures hasService == (old(hasService) || ok)
    {
      if !supported {
        return false;
      }
      match connect
      case Resolved(_) =>
        hasService := true;
        ok := true;
      case Rejected(_) =>
        ok := false;
    }

    /** `activatePro()`: set the flag and persist `'true'`; activating again changes nothing. */
    method ActivatePro()
      requires Valid()
      modifies this`isPro, storage
      ensures Valid() && isPro
      ensures storage.items == old(storage.items)[IsProKey := "true"]
      ensures old(isPro) ==> storage.items == old(storage.items)
    {
      isPro := true;
      SaveProStatus();
    }

    /** `simulatePurchase()`: after the delay, activate unconditionally. */
    method SimulatePurchase()
      requires Valid()
      modifies this`isPro, this`paymentAttempts, storage
      ensures Valid() && isPro
      ensures storage.items == old(storage.items)[IsProKey := "true"]
      ensures paymentAttempts == old(paymentAttempts) + 1
    {
      paymentAttempts := paymentAttempts + 1;
      ActivatePro();
    }

    /**
     * `purchaseViaPlayBilling()`: obtain the service if needed, fetch the
     * product details, show the payment sheet, complete, acknowledge and
     * only then activate. The result is how the returned promise settles.
     */
    method PurchaseViaPlayBilling(p: PlayPlatform) returns (outcome: Step<()>)
      requires Valid()
      modifies this`isPro, this`hasService, this`paymentAttempts, storage
      ensures Valid()
      ensures outcome == PlayOutcome(old(hasService), p)
      ensures isPro == (old(isPro) || PlayActivates(old(hasService), p))
      ensures storage.items == if PlayActivates(old(hasService), p) then old(storage.items)[IsProKey := "true"] else old(storage.items)
      ensures hasService == ServiceReady(old(hasService), p)
      ensures paymentAttempts == old(paymentAttempts) + if PlayRequestsPayment(old(hasService), p) then 1 else 0
    {
      if !hasService {
        var _ := InitializeBilling(true, p.connect);
      }
      if !hasService {
        return Rejected(NoService);
      }
      match p.details
      case Rejected(e) =>
        return Swallow(e);
      case Resolved(items) =>
        if |items| == 0 {
          return Swallow(ProductNotFound);
        }
      paymentAttempts := paymentAttempts + 1;
      match p.show
      case Rejected(e) =>
        return Swallow(e);
      case Resolved(token) =>
      match p.complete
      case Rejected(e) =>
        return Swallow(e);
      case Resolved(_) =>
      if p.acknowledge.Some? && p.acknowledge.value.Rejected? {
        return Swallow(p.acknowledge.value.error);
      }
      ActivatePro();
      outcome := Resolved(());
    }

    /**
     * The synchronous start of `purchasePro()`: the re-entrancy guard. A call
     * made while another purchase is in flight returns at once and changes
     * nothing; otherwise the flag is raised and the purchase proceeds.
     */
    method BeginPurchase() returns (proceed: bool)
      modifies this`isProcessing
      ensures proceed <==> !old(isProcessing)
      ensures isProcessing
    {
      if isProcessing {
        return false;
      }
      isProcessing := true;
      proceed := true;
    }

    /**
     * The rest of `purchasePro()`: take the Play path when Digital Goods are
     * supported and the simulated path otherwise; a rejection lands in the
     * `catch` (an alert), and the `finally` lowers the flag whatever happened.
     */
    method FinishPurchase(supported: bool, p: PlayPlatform)
      requires Valid() && isProcessing
      modifies this`isPro, this`isProcessing, this`hasService, this`paymentAttempts, storage
      ensures Valid() && !isProcessing
      ensures isPro == (old(isPro) || !supported || PlayActivates(old(hasService), p))
      ensures storage.items == if !supported || PlayActivates(old(hasService), p)
                               then old(storage.items)[IsProKey := "true"] else old(storage.items)
      ensures hasService == if supported then ServiceReady(old(hasService), p) else old(hasService)
      ensures paymentAttempts == old(paymentAttempts) + if !supported || PlayRequestsPayment(old(hasService), p) then 1 else 0
    {
      if supported {
        var _ := PurchaseViaPlayBilling(p);
      } else {
        SimulatePurchase();
      }
      isProcessing := false;
    }

    /** `purchasePro()` run to completion without interleaving. */
    method PurchasePro(supported: bool, p: PlayPlatform)
      requires Valid()
      modifies this`isPro, this`isProcessing, this`hasService, this`paymentAttempts, storage
      ensures Valid()
      ensures old(isProcessing) ==>
                isPro == old(isPro) && isProcessing && hasService == old(hasService)
                && storage.items == old(storage.items) && paymentAttempts == old(paymentAttempts)
      ensures !old(isProcessing) ==> !isProcessing
      ensures !old(isProcessing) ==> isPro == (old(isPro) || !supported || PlayActivates(old(hasService), p))
      ensures !old(isProcessing) ==>
                storage.items == if !supported || PlayActivates(old(hasService), p)
                                 then old(storage.items)[IsProKey := "true"] else old(storage.items)
      ensures old(isPro) ==> isPro
    {
      var proceed := BeginPurchase();
      if proceed {
        FinishPurchase(supported, p);
      }
    }

    /**
     * `restorePurchases()`: obtain the service if needed; without one, return.
     * Activate when the listed purchases include `pro_version`; a listing
     * error is logged and changes nothing.
     */
    method RestorePurchases(supported: bool, connect: Step<()>, listing: Step<seq<string>>)
      requires Valid()
      modifies this`isPro, this`hasService, storage
      ensures Valid()
      ensures isPro == (old(isPro) || RestoreActivates(old(hasService), supported, connect, listing))
      ensures storage.items == if RestoreActivates(old(hasService), supported, connect, listing)
                               then old(storage.items)[IsProKey := "true"] else old(storage.items)
      ensures hasService == (old(hasService) || (supported && connect.Resolved?))
    {
      if !hasService {
        var _ := InitializeBilling(supported, connect);
      }
      if !hasService {
        return;
      }
      match listing
      case Rejected(_) =>
      case Resolved(items) =>
        if ProductId in items {
          ActivatePro();
        }
    }
  }

  /**
   * A double click: the first `purchasePro()` call is suspended at its first
   * await when the second arrives. The second call is a no-op, and exactly
   * one payment path is reached.
   */
  method DoubleClick(m: BillingManager, supported: bool, p: PlayPlatform)
    requires m.Valid() && !m.isProcessing
    modifies m, m.storage
    ensures m.Valid() && !m.isProcessing
    ensures m.paymentAttempts <= old(m.paymentAttempts) + 1
    ensures !supported ==> m.paymentAttempts == old(m.paymentAttempts) + 1
  {
    var first := m.BeginPurchase();
    assert first;
    m.PurchasePro(supported, p);
    m.FinishPurchase(supported, p);
  }

  /** The entitlement, once granted, survives every later operation on the manager. */
  method ProIsNeverRevoked(m: BillingManager, supported: bool, p: PlayPlatform, connect: Step<()>, listing: Step<seq<string>>)
    requires m.Valid() && m.isPro
    modifies m, m.storage
    ensures m.Valid() && m.isPro
    ensures m.storage.items == old(m.storage.items)
  {
    m.PurchasePro(supported, p);
    m.RestorePurchases(supported, connect, listing);
    var _ := m.InitializeBilling(supported, connect);
    m.ActivatePro();
  }
}
