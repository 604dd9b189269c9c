/**
 * The buyer's confirmation page, reached from the agent's QR link: the
 * buyer confirms receipt by scanning the agent's code or typing it, which
 * completes the order and releases the payment.
 */
module ConfirmDelivery {
  import opened Wrappers
  import opened Types
  import opened Feedback
  import Text
  import Seqs
  import Storage

  datatype ConfirmMethod = Select | Qr | Otp

  /** What the scanner hands over: text that is no URL, or a URL with or without a `code` query parameter. */
  datatype ScanResult = NotAUrl | Url(code: Option<string>)

  class ConfirmDeliveryPage {
    const transactionId: string
    var transaction: Option<Transaction>
    var confirmMethod: ConfirmMethod
    var otpInput: string
    var isConfirmed: bool
    var isLoading: bool

    /** The code field only ever holds at most six upper-case characters. */
    predicate Valid()
      reads this
    {
      Text.ToUpper(otpInput) == otpInput && |otpInput| <= 6
    }

    constructor(transactionId: string)
      ensures this.transactionId == transactionId
      ensures transaction.None? && confirmMethod == Select && otpInput == "" && !isConfirmed && !isLoading
      ensures Valid()
    {
      this.transactionId := transactionId;
      transaction := None;
      confirmMethod := Select;
      otpInput := "";
      isConfirmed := false;
      isLoading := false;
    }

    /**
     * The confirmation as seen by a handler that captured `snapshot` as
     * the page's transaction: nothing without one; otherwise the stored
     * record is completed through the notifying status update, whatever
     * its status and whoever is signed in.
     */
    method ConfirmDeliveryWith(snapshot: Option<Transaction>, store: Storage.LocalStore, now: Time,
                               idOf: nat -> string)
      returns (toast: Option<Toast>)
      modifies this`isConfirmed, this`isLoading, store`transactions, store.notifications
      ensures snapshot.None? ==>
        toast.None? && isConfirmed == old(isConfirmed) && isLoading == old(isLoading)
        && store.transactions == old(store.transactions)
        && store.notifications.items == old(store.notifications.items)
      ensures snapshot.Some? ==>
        toast == Some(Success("Delivery confirmed! Funds released to seller.")) && isConfirmed && isLoading
        && store.transactions == Storage.WithStatus(old(store.transactions), snapshot.value.id, Completed, now)
        && store.notifications.items ==
           Storage.NotificationsAfterUpdate(old(store.notifications.items), old(store.transactions),
             snapshot.value.id, Completed, false, store.GetSessionId(), now, idOf)
    {
      if snapshot.None? {
        return None;
      }
      isLoading := true;
      store.UpdateTransactionStatus(snapshot.value.id, Completed, false, now, idOf);
      isConfirmed := true;
      toast := Some(Success("Delivery confirmed! Funds released to seller."));
    }

    /**
     * Opening the page as written: the transaction is loaded, and a
     * matching `code` in the link calls the confirmation, but through the
     * handler of the first render, which captured no transaction, so the
     * order is never completed this way.
     */
    method MountAsWritten(store: Storage.LocalStore, codeFromUrl: Option<string>, now: Time, idOf: nat -> string)
      returns (toast: Option<Toast>, leave: bool)
      requires transaction.None? && !isConfirmed
      modifies this`transaction, this`isConfirmed, this`isLoading, store`transactions, store.notifications
      ensures transactionId == "" ==> leave && toast.None? && transaction.None?
      ensures transactionId != "" && store.GetTransaction(transactionId).None? ==>
        leave && toast == Some(Failure("Transaction not found")) && transaction.None?
      ensures transactionId != "" && store.GetTransaction(transactionId).Some? ==>
        !leave && toast.None? && transaction == store.GetTransaction(transactionId)
      ensures !isConfirmed && store.transactions == old(store.transactions)
      ensures store.notifications.items == old(store.notifications.items)
    {
      if transactionId == "" {
        return None, true;
      }
      var tx := store.GetTransaction(transactionId);
      if tx.None? {
        return Some(Failure("Transaction not found")), true;
      }
      var firstRender := transaction;
      transaction := tx;
      toast, leave := None, false;
      if Present(codeFromUrl) && codeFromUrl.value == tx.value.confirmationCode {
        var ignored := ConfirmDeliveryWith(firstRender, store, now, idOf);
      }
    }

    /** Opening the page with the loaded transaction handed to the confirmation. */
    method Mount(store: Storage.LocalStore, codeFromUrl: Option<string>, now: Time, idOf: nat -> string)
      returns (toast: Option<Toast>, leave: bool)
      requires transaction.None? && !isConfirmed
      modifies this`transaction, this`isConfirmed, this`isLoading, store`transactions, store.notifications
      ensures transactionId == "" ==> leave && toast.None? && transaction.None?
      ensures transactionId != "" && old(store.GetTransaction(transactionId)).None? ==>
        leave && toast == Some(Failure("Transaction not found")) && transaction.None?
      ensures transactionId != "" && old(store.GetTransaction(transactionId)).Some? ==>
        !leave && transaction == old(store.GetTransaction(transactionId))
      ensures transactionId != "" && old(store.GetTransaction(transactionId)).Some? &&
              Present(codeFromUrl) && codeFromUrl.value == transaction.value.confirmationCode ==>
        isConfirmed && toast == Some(Success("Delivery confirmed! Funds released to seller."))
        && store.transactions == Storage.WithStatus(old(store.transactions), transactionId, Completed, now)
      ensures !(transactionId != "" && old(store.GetTransaction(transactionId)).Some? &&
                Present(codeFromUrl) && codeFromUrl.value == transaction.value.confirmationCode) ==>
        !isConfirmed && store.transactions == old(store.transactions)
    {
      if transactionId == "" {
        return None, true;
      }
      var tx := store.GetTransaction(transactionId);
      if tx.None? {
        return Some(Failure("Transaction not found")), true;
      }
      transaction := tx;
      toast, leave := None, false;
      if Present(codeFromUrl) && codeFromUrl.value == tx.value.confirmationCode {
        toast := ConfirmDeliveryWith(tx, store, now, idOf);
      }
    }

    method ChooseMethod(m: ConfirmMethod)
      requires confirmMethod == Select && m != Select
      modifies this`confirmMethod
      ensures confirmMethod == m
    {
      confirmMethod := m;
    }

    method Back()
      requires confirmMethod != Select
      modifies this`confirmMethod
      ensures confirmMethod == Select
    {
      confirmMethod := Select;
    }

    /** Typing into the code field: at most six characters, upper-cased as typed. */
    method TypeOtp(value: string)
      requires confirmMethod == Otp
      modifies this`otpInput
      ensures otpInput == Text.ToUpper(Seqs.Take(value, 6))
      ensures Valid()
    {
      otpInput := Text.ToUpper(Seqs.Take(value, 6));
      Text.ToUpperIdempotent(Seqs.Take(value, 6));
    }

    function SubmitEnabled(): (b: bool)
      reads this
      ensures b ==> |otpInput| == 6
    {
      !isLoading && |otpInput| == 6
    }

    /**
     * Check the typed code: the order completes exactly when the code
     * field equals the transaction's code; otherwise only the error shows.
     */
    method HandleOtpSubmit(store: Storage.LocalStore, now: Time, idOf: nat -> string)
      returns (toast: Option<Toast>)
      requires confirmMethod == Otp && !isConfirmed && Valid()
      modifies this`isConfirmed, this`isLoading, store`transactions, store.notifications
      ensures transaction.None? ==> toast.None? && !isConfirmed && store.transactions == old(store.transactions)
      ensures transaction.Some? && otpInput == transaction.value.confirmationCode ==>
        isConfirmed && toast == Some(Success("Delivery confirmed! Funds released to seller."))
        && store.transactions == Storage.WithStatus(old(store.transactions), transaction.value.id, Completed, now)
      ensures transaction.Some? && otpInput != transaction.value.confirmationCode ==>
        !isConfirmed && toast == Some(Failure("Invalid confirmation code"))
        && store.transactions == old(store.transactions)
        && store.notifications.items == old(store.notifications.items)
    {
      if transaction.None? {
        return None;
      }
      if Text.ToUpper(otpInput) == transaction.value.confirmationCode {
        toast := ConfirmDeliveryWith(transaction, store, now, idOf);
      } else {
        toast := Some(Failure("Invalid confirmation code"));
      }
    }

    /**
     * Check a scan: text that is no URL stops the handler before any
     * message; a URL completes the order exactly when its `code`
     * parameter equals the transaction's code.
     */
    method HandleQrScan(scan: ScanResult, store: Storage.LocalStore, now: Time, idOf: nat -> string)
      returns (toast: Option<Toast>)
      requires confirmMethod == Qr && !isConfirmed
      modifies this`isConfirmed, this`isLoading, store`transactions, store.notifications
      ensures transaction.None? || scan.NotAUrl? ==>
        toast.None? && !isConfirmed && store.transactions == old(store.transactions)
      ensures transaction.Some? && scan.Url? && scan.code == Some(transaction.value.confirmationCode) ==>
        isConfirmed && toast == Some(Success("Delivery confirmed! Funds released to seller."))
        && store.transactions == Storage.WithStatus(old(store.transactions), transaction.value.id, Completed, now)
      ensures transaction.Some? && scan.Url? && scan.code != Some(transaction.value.confirmationCode) ==>
        !isConfirmed && toast == Some(Failure("Invalid QR code"))
        && store.transactions == old(store.transactions)
    {
      if transaction.None? || scan.NotAUrl? {
        return None;
      }
      if scan.code == Some(transaction.value.confirmationCode) {
        toast := ConfirmDeliveryWith(transaction, store, now, idOf);
      } else {
        toast := Some(Failure("Invalid QR code"));
      }
    }
  }
}
