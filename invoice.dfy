/**
 * Invoice numbering (`PL-<year>-<sequence padded to six digits>`, from a
 * persisted counter) and the one-time attachment of an invoice to a
 * stored transaction.
 */
module Invoice {
  import opened Wrappers
  import opened Types
  import Text
  import Storage

  /** The sequence field of an invoice number: the counter as at least six decimal digits, which read back as the counter. */
  function SequenceField(sequence: nat): (r: string)
    ensures |r| >= 6
    ensures forall i :: 0 <= i < |r| ==> Text.IsDigit(r[i])
    ensures Text.ParseDecimal(r) == sequence
  {
    var digits := Text.NatToString(sequence);
    var padded := Text.PadStart(digits, 6, '0');
    var zeros := padded[..|padded| - |digits|];
    assert padded == zeros + digits;
    Text.ParseLeadingZeros(zeros, digits);
    Text.ParseNatToString(sequence);
    padded
  }

  /** `PL-<year>-<sequence>`: the prefix, the year's digits, a dash, and the sequence field at the end. */
  function InvoiceNumber(year: nat, sequence: nat): (r: string)
    ensures |r| == 3 + |Text.NatToString(year)| + 1 + |SequenceField(sequence)|
    ensures |r| >= 11 && r[..3] == "PL-"
    ensures r[|r| - |SequenceField(sequence)|..] == SequenceField(sequence)
    ensures r[|r| - |SequenceField(sequence)| - 1] == '-'
  {
    var digits := Text.NatToString(year);
    var field := SequenceField(sequence);
    var head := "PL-" + digits + "-";
    assert |head| == 4 + |digits|;
    var r := head + field;
    assert r[|head|..] == field;
    assert r[|head| - 1] == '-';
    assert r[..3] == "PL-";
    r
  }

  /** The length of the run of digits `t` starts with. */
  function DigitRun(t: string): nat
    decreases |t|
  {
    if t == [] || !Text.IsDigit(t[0]) then 0 else 1 + DigitRun(t[1..])
  }

  lemma {:induction false} DigitsEndAtDash(a: string, rest: string)
    requires forall i :: 0 <= i < |a| ==> Text.IsDigit(a[i])
    ensures DigitRun(a + ("-" + rest)) == |a|
    decreases |a|
  {
    if a != [] {
      assert (a + ("-" + rest))[1..] == a[1..] + ("-" + rest);
      DigitsEndAtDash(a[1..], rest);
    }
  }

  /** A digit string followed by a dash can be split off unambiguously. */
  lemma SplitAtDash(a: string, r1: string, b: string, r2: string)
    requires forall i :: 0 <= i < |a| ==> Text.IsDigit(a[i])
    requires forall i :: 0 <= i < |b| ==> Text.IsDigit(b[i])
    requires a + ("-" + r1) == b + ("-" + r2)
    ensures a == b && r1 == r2
  {
    DigitsEndAtDash(a, r1);
    DigitsEndAtDash(b, r2);
    var t := a + ("-" + r1);
    assert a == t[..|a|] && b == t[..|b|];
    assert r1 == t[|a| + 1..] && r2 == t[|b| + 1..];
  }

  /** The year and sequence fields of an invoice number can be read back from it. */
  lemma SplitInvoiceNumber(a: string, f1: string, b: string, f2: string)
    requires forall i :: 0 <= i < |a| ==> Text.IsDigit(a[i])
    requires forall i :: 0 <= i < |b| ==> Text.IsDigit(b[i])
    requires "PL-" + a + "-" + f1 == "PL-" + b + "-" + f2
    ensures a == b && f1 == f2
  {
    var s := "PL-" + a + "-" + f1;
    assert s[3..] == a + ("-" + f1);
    assert s[3..] == b + ("-" + f2);
    SplitAtDash(a, f1, b, f2);
  }

  /** Different (year, sequence) pairs never share an invoice number. */
  lemma InvoiceNumberInjective(y1: nat, q1: nat, y2: nat, q2: nat)
    requires InvoiceNumber(y1, q1) == InvoiceNumber(y2, q2)
    ensures y1 == y2 && q1 == q2
  {
    SplitInvoiceNumber(Text.NatToString(y1), SequenceField(q1), Text.NatToString(y2), SequenceField(q2));
    Text.ParseNatToString(y1);
    Text.ParseNatToString(y2);
  }

  /**
   * The invoice generated for `tx` under `number` at `issuedAt`. Its total
   * is its item price plus its delivery fee, both copied from the
   * transaction; both cities are the delivery location, and missing buyer
   * details fall back to "Unknown Buyer" and "".
   */
  function InvoiceFor(tx: Transaction, number: string, issuedAt: Time): (inv: Invoice)
    ensures inv.invoiceNumber == number && inv.transactionId == tx.id
    ensures inv.deliveryFeeXAF.Some? && inv.totalXAF == inv.itemPriceXAF + inv.deliveryFeeXAF.value
    ensures inv.itemPriceXAF == tx.price && inv.deliveryFeeXAF == Some(tx.deliveryFee)
    ensures inv.sellerCity == inv.buyerCity == Some(tx.deliveryLocation)
    ensures !Present(tx.buyerName) ==> inv.buyerName == "Unknown Buyer"
    ensures !Present(tx.buyerPhone) ==> inv.buyerPhone == ""
  {
    Invoice(
      number, issuedAt, tx.sellerName, Some(tx.sellerPhone), Some(tx.deliveryLocation),
      if Present(tx.buyerName) then tx.buyerName.value else "Unknown Buyer",
      if Present(tx.buyerPhone) then tx.buyerPhone.value else "",
      Some(tx.deliveryLocation), tx.productName, tx.price, Some(tx.deliveryFee),
      tx.price + tx.deliveryFee, tx.id,
      if Present(tx.postId) then tx.postId.value else "",
      tx.isPreOrder)
  }

  /** The persisted invoice counter. */
  class InvoiceCounter {
    var sequence: nat

    /** The counter as read from storage when the module loads. */
    constructor(stored: nat)
      ensures sequence == stored
    {
      sequence := stored;
    }

    /** Advance the counter by one and return the number it now stands for. */
    method GenerateInvoiceNumber(year: nat) returns (number: string)
      modifies this
      ensures sequence == old(sequence) + 1
      ensures number == InvoiceNumber(year, sequence)
    {
      sequence := sequence + 1;
      number := InvoiceNumber(year, sequence);
    }

    method GenerateInvoice(tx: Transaction, year: nat, now: Time) returns (inv: Invoice)
      modifies this
      ensures sequence == old(sequence) + 1
      ensures inv == InvoiceFor(tx, InvoiceNumber(year, sequence), now)
    {
      var number := GenerateInvoiceNumber(year);
      inv := InvoiceFor(tx, number, now);
    }

    /**
     * Give the stored transaction `id` an invoice unless it has one. An
     * unknown id yields nothing; an existing invoice is returned as it is,
     * without advancing the counter; otherwise a new invoice is generated
     * and the transaction is saved back with it and nothing else changed.
     */
    method AttachInvoiceToTransaction(store: Storage.LocalStore, id: string, year: nat, now: Time)
      returns (r: Option<Invoice>)
      modifies this, store`transactions
      ensures old(store.GetTransaction(id)).None? ==>
        r.None? && sequence == old(sequence) && store.transactions == old(store.transactions)
      ensures old(store.GetTransaction(id)).Some? && old(store.GetTransaction(id)).value.invoice.Some? ==>
        r == old(store.GetTransaction(id)).value.invoice
        && sequence == old(sequence) && store.transactions == old(store.transactions)
      ensures old(store.GetTransaction(id)).Some? && old(store.GetTransaction(id)).value.invoice.None? ==>
        sequence == old(sequence) + 1
        && r == Some(InvoiceFor(old(store.GetTransaction(id)).value, InvoiceNumber(year, sequence), now))
        && store.transactions == Storage.Upsert(old(store.transactions), old(store.GetTransaction(id)).value.(invoice := r), Storage.TxKey, true)
        && store.GetTransaction(id) == Some(old(store.GetTransaction(id)).value.(invoice := r))
    {
      var found := store.GetTransaction(id);
      if found.None? {
        return None;
      }
      var tx := found.value;
      if tx.invoice.Some? {
        return tx.invoice;
      }
      var inv := GenerateInvoice(tx, year, now);
      r := Some(inv);
      Storage.UpsertThenFind(store.transactions, tx.(invoice := r), Storage.TxKey, true);
      store.SaveTransaction(tx.(invoice := r));
    }
  }
}
