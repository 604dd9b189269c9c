/**
 * The agent's hand-over screen: a small step machine in which the agent
 * picks a method (show a QR code, scan the buyer's QR code, or type the
 * buyer's code), and a code check that ends in the confirmed step.
 */
module AgentDeliveryWorkflow {
  import opened Types
  import opened Feedback
  import Text
  import Seqs

  datatype WorkflowStep = Select | ShowQr | ScanQr | EnterOtp | Confirmed

  /** The code every transaction accepts at the hand-over. */
  const DemoOtp: string := "123456"

  /** A typed code is accepted when it is the demo code, or when its upper-case form is the transaction's code. */
  predicate OtpAccepted(input: string, code: string)
    ensures input == DemoOtp ==> OtpAccepted(input, code)
    ensures OtpAccepted(input, code) && input != DemoOtp ==>
      |input| == |code| && forall i :: 0 <= i < |code| ==> !('a' <= code[i] <= 'z')
  {
    input == DemoOtp || Text.ToUpper(input) == code
  }

  /** A scanned text is accepted when it contains the transaction's code, or is that code. */
  predicate QrAccepted(result: string, code: string)
    ensures QrAccepted(result, code) ==> |code| <= |result|
    ensures code == "" ==> QrAccepted(result, code)
  {
    Text.Contains(result, code) || result == code
  }

  /** The text of the QR code the agent shows: the buyer's confirmation link with the code as a query parameter. */
  function QrValue(origin: string, tx: Transaction): (r: string)
    ensures |r| >= |origin| + |tx.confirmationCode| && r[..|origin|] == origin
    ensures r[|r| - |tx.confirmationCode|..] == tx.confirmationCode
  {
    origin + "/confirm/" + tx.id + "?code=" + tx.confirmationCode
  }

  /** The link the agent shows passes the agent's own scan check. */
  lemma OwnQrAccepted(origin: string, tx: Transaction)
    ensures QrAccepted(QrValue(origin, tx), tx.confirmationCode)
  {
    var prefix := origin + "/confirm/" + tx.id + "?code=";
    var s := QrValue(origin, tx);
    assert s == prefix + tx.confirmationCode;
    assert s[|prefix|..|prefix| + |tx.confirmationCode|] == tx.confirmationCode;
    Text.ContainsAt(s, tx.confirmationCode, |prefix|);
  }

  /**
   * Only the demo code gets through when the transaction's code holds a
   * lower-case letter (upper-casing never produces one) or when the typed
   * code has a different length (upper-casing keeps the length).
   */
  lemma OnlyDemoOtpOtherwise(input: string, code: string, k: nat)
    requires (k < |code| && 'a' <= code[k] <= 'z') || |input| != |code|
    ensures OtpAccepted(input, code) ==> input == DemoOtp
  {
  }

  class AgentDeliveryWorkflow {
    const transaction: Transaction
    var step: WorkflowStep
    var otpInput: string
    var isConfirming: bool

    constructor(transaction: Transaction)
      ensures this.transaction == transaction
      ensures step == Select && otpInput == "" && !isConfirming
    {
      this.transaction := transaction;
      step := Select;
      otpInput := "";
      isConfirming := false;
    }

    /** One of the three method cards of the selection step. */
    method Choose(target: WorkflowStep)
      requires step == Select
      requires target == ShowQr || target == ScanQr || target == EnterOtp
      modifies this`step
      ensures step == target
    {
      step := target;
    }

    /** The back button: leaves the screen from the selection step, else returns to it. */
    method Back() returns (leave: bool)
      requires step != Confirmed
      modifies this`step
      ensures step == Select
      ensures leave <==> old(step) == Select
    {
      leave := step == Select;
      step := Select;
    }

    /** Typing into the code field, which holds at most six characters. */
    method TypeOtp(value: string)
      requires step == EnterOtp
      modifies this`otpInput
      ensures otpInput == Seqs.Take(value, 6)
    {
      otpInput := Seqs.Take(value, 6);
    }

    /** The submit button is enabled only on six characters and while no confirmation runs. */
    function SubmitEnabled(): (b: bool)
      reads this
      ensures b ==> |otpInput| == 6
    {
      !isConfirming && |otpInput| == 6
    }

    /**
     * Check the typed code: an accepted code moves to the confirmed step
     * and asks the parent to confirm the delivery; a rejected one only
     * shows the error, and the step stays.
     */
    method HandleOtpSubmit() returns (toast: Toast, confirm: bool)
      requires step == EnterOtp
      modifies this`step, this`isConfirming
      ensures OtpAccepted(otpInput, transaction.confirmationCode) ==>
        step == Confirmed && isConfirming && confirm && toast == Success("Delivery confirmed!")
      ensures !OtpAccepted(otpInput, transaction.confirmationCode) ==>
        step == EnterOtp && isConfirming == old(isConfirming) && !confirm
        && toast == Failure("Invalid OTP. Demo OTP is 123456")
    {
      if otpInput == DemoOtp || Text.ToUpper(otpInput) == transaction.confirmationCode {
        isConfirming := true;
        step := Confirmed;
        toast, confirm := Success("Delivery confirmed!"), true;
      } else {
        toast, confirm := Failure("Invalid OTP. Demo OTP is 123456"), false;
      }
    }

    /** Check a scanned text (the scanner reports only non-empty ones), as the typed code is checked. */
    method HandleQrScan(result: string) returns (toast: Toast, confirm: bool)
      requires step == ScanQr && result != ""
      modifies this`step, this`isConfirming
      ensures QrAccepted(result, transaction.confirmationCode) ==>
        step == Confirmed && isConfirming && confirm && toast == Success("QR verified - Delivery confirmed!")
      ensures !QrAccepted(result, transaction.confirmationCode) ==>
        step == ScanQr && isConfirming == old(isConfirming) && !confirm && toast == Failure("Invalid QR code")
    {
      if Text.Contains(result, transaction.confirmationCode) || result == transaction.confirmationCode {
        isConfirming := true;
        step := Confirmed;
        toast, confirm := Success("QR verified - Delivery confirmed!"), true;
      } else {
        toast, confirm := Failure("Invalid QR code"), false;
      }
    }
  }
}
