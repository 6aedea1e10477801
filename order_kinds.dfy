/**
 * The order status and order type vocabularies. Every backend stores them by the same
 * names; the Java entity declares them as enums and parses names with `valueOf`.
 */
module OrderKinds {
  import opened Wrappers

  /** Exactly five statuses. */
  datatype OrderStatus = Pending | Preparing | Served | Completed | Cancelled

  /** Exactly two order types. */
  datatype OrderType = DineIn | Takeaway

  function StatusName(s: OrderStatus): string {
    match s
    case Pending => "PENDING"
    case Preparing => "PREPARING"
    case Served => "SERVED"
    case Completed => "COMPLETED"
    case Cancelled => "CANCELLED"
  }

  function TypeName(t: OrderType): string {
    match t
    case DineIn => "DINE_IN"
    case Takeaway => "TAKEAWAY"
  }

  /** `OrderStatus.valueOf(name)`: `None` stands for the IllegalArgumentException of an unknown name. */
  function ParseStatus(name: string): (r: Option<OrderStatus>)
    ensures r.Some? ==> StatusName(r.value) == name
  {
    if name == "PENDING" then Some(Pending)
    else if name == "PREPARING" then Some(Preparing)
    else if name == "SERVED" then Some(Served)
    else if name == "COMPLETED" then Some(Completed)
    else if name == "CANCELLED" then Some(Cancelled)
    else None
  }

  /** `OrderType.valueOf(name)`: `None` stands for the IllegalArgumentException of an unknown name. */
  function ParseType(name: string): (r: Option<OrderType>)
    ensures r.Some? ==> TypeName(r.value) == name
  {
    if name == "DINE_IN" then Some(DineIn)
    else if name == "TAKEAWAY" then Some(Takeaway)
    else None
  }

  /** Every status's name parses back to it, so `valueOf` fails exactly on names that are no status's. */
  lemma StatusNamesRoundTrip(s: OrderStatus)
    ensures ParseStatus(StatusName(s)) == Some(s)
  {
  }

  lemma TypeNamesRoundTrip(t: OrderType)
    ensures ParseType(TypeName(t)) == Some(t)
  {
  }

  /** The five names are distinct, so a stored name identifies its status. */
  lemma StatusNamesDistinct(s: OrderStatus, t: OrderStatus)
    ensures StatusName(s) == StatusName(t) ==> s == t
  {
    StatusNamesRoundTrip(s);
    StatusNamesRoundTrip(t);
  }
}
