/** The status a bill carries in the controllers' view of the billing store. */
module Billing {

  datatype BillStatus = Pending | Partial | Paid

  /** The string the store keeps for a status. */
  function StatusName(s: BillStatus): string {
    match s
    case Pending => "Pending"
    case Partial => "Partial"
    case Paid => "Paid"
  }
}
