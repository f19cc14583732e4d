/** The life cycle of a payment transaction and the message both payment
    engines attach to each state when asked for a transaction's status. */
module PaymentStatus {

  /** "pending", "completed" or "failed": the only values either engine writes. */
  datatype Status = Pending | Completed | Failed

  /** The string stored in the `status` column and sent in JSON. */
  function StatusName(s: Status): string {
    match s
    case Pending => "pending"
    case Completed => "completed"
    case Failed => "failed"
  }

  const CompletedMessage := "Payment completed successfully"
  const PendingMessage := "Payment is still being processed"
  const FailedMessage := "Payment failed"
  const NotFoundMessage := "Transaction not found"

  /** The three-way message mapping: "completed" and "pending" have their own
      text, anything else reads as a failure. */
  function StatusMessage(s: Status): (m: string)
    ensures m == CompletedMessage <==> s == Completed
    ensures m == PendingMessage <==> s == Pending
    ensures m == FailedMessage <==> s == Failed
    ensures m != NotFoundMessage
  {
    assert |CompletedMessage| == 30 && |PendingMessage| == 32 && |FailedMessage| == 14;
    match s
    case Completed => CompletedMessage
    case Pending => PendingMessage
    case Failed => FailedMessage
  }
}
