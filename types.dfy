/**
 * The closed sets of values the client shares with its backend: response
 * codes, order statuses, scan statuses and order types, and the User and
 * Order records.
 */
module Types {
  import opened Wrappers

  /** The `ResponseStatus` enum: each member names one backend code. */
  datatype ResponseStatus =
    | Success | Created | BadRequest | Unauthorized
    | Forbidden | NotFound | Conflict | ServerError

  /** The numeric value each enum member stands for. */
  function Code(s: ResponseStatus): (c: int)
    ensures IsResponseStatusType(c)
  {
    match s
    case Success => 200
    case Created => 201
    case BadRequest => 400
    case Unauthorized => 401
    case Forbidden => 403
    case NotFound => 404
    case Conflict => 409
    case ServerError => 500
  }

  /** The `ResponseStatusType` union of numeric literal types. */
  predicate IsResponseStatusType(c: int) {
    c in {200, 201, 400, 401, 403, 404, 409, 500}
  }

  /** Reverse lookup of the enum by value (a TypeScript numeric enum is bidirectional). */
  function StatusOf(c: int): (r: Option<ResponseStatus>)
    ensures r.Some? <==> IsResponseStatusType(c)
    ensures r.Some? ==> Code(r.value) == c
  {
    if c == 200 then Some(Success)
    else if c == 201 then Some(Created)
    else if c == 400 then Some(BadRequest)
    else if c == 401 then Some(Unauthorized)
    else if c == 403 then Some(Forbidden)
    else if c == 404 then Some(NotFound)
    else if c == 409 then Some(Conflict)
    else if c == 500 then Some(ServerError)
    else None
  }

  /** Every member is found again from its code, so `Code` is one-to-one. */
  lemma CodeRoundTrip(s: ResponseStatus)
    ensures StatusOf(Code(s)) == Some(s)
  {
  }

  lemma CodeInjective(s: ResponseStatus, t: ResponseStatus)
    ensures Code(s) == Code(t) <==> s == t
  {
    CodeRoundTrip(s);
    CodeRoundTrip(t);
  }

  /** Among the declared codes, only SUCCESS and CREATED are in the 2xx range. */
  lemma DeclaredSuccessCodes(c: int)
    requires IsResponseStatusType(c)
    ensures 200 <= c < 300 <==> StatusOf(c) == Some(Success) || StatusOf(c) == Some(Created)
  {
  }

  /** The `OrderStatus` string union. */
  datatype OrderStatus = Pending | Scanned | Paid | Cancelled | Failed

  /** `ScanStatus`: the part of `OrderStatus` extracted for the scan page. */
  predicate IsScanStatus(s: OrderStatus) {
    s == Pending || s == Scanned || s == Paid
  }

  type ScanStatus = s: OrderStatus | IsScanStatus(s) witness Pending

  /** The string literal each `OrderStatus` member is on the wire. */
  function OrderStatusName(s: OrderStatus): (name: string)
    ensures name != ""
  {
    match s
    case Pending => "pending"
    case Scanned => "scanned"
    case Paid => "paid"
    case Cancelled => "cancelled"
    case Failed => "failed"
  }

  /** Reads an `OrderStatus` literal; any other string is not one. */
  function ParseOrderStatus(name: string): Option<OrderStatus> {
    if name == "pending" then Some(Pending)
    else if name == "scanned" then Some(Scanned)
    else if name == "paid" then Some(Paid)
    else if name == "cancelled" then Some(Cancelled)
    else if name == "failed" then Some(Failed)
    else None
  }

  /** `OrderStatus` is exactly the five literals: parsing inverts naming both ways. */
  lemma OrderStatusNames(name: string, s: OrderStatus)
    ensures ParseOrderStatus(OrderStatusName(s)) == Some(s)
    ensures ParseOrderStatus(name) == Some(s) <==> name == OrderStatusName(s)
  {
  }

  /** Reads a `ScanStatus` literal: `cancelled` and `failed` are order statuses but not scan statuses. */
  function ParseScanStatus(name: string): (r: Option<ScanStatus>)
    ensures r.Some? <==> name in {"pending", "scanned", "paid"}
    ensures r.Some? ==> ParseOrderStatus(name) == Some(r.value)
  {
    match ParseOrderStatus(name)
    case Some(s) => if IsScanStatus(s) then Some(s) else None
    case None => None
  }

  /** The `OrderType` string union. */
  datatype OrderType = Monthly | Yearly

  function OrderTypeName(t: OrderType): string {
    match t
    case Monthly => "monthly"
    case Yearly => "yearly"
  }

  function ParseOrderType(name: string): (r: Option<OrderType>)
    ensures r.Some? <==> name in {"monthly", "yearly"}
    ensures r.Some? ==> OrderTypeName(r.value) == name
  {
    if name == "monthly" then Some(Monthly)
    else if name == "yearly" then Some(Yearly)
    else None
  }

  datatype Gender = Male | Female | Unknown

  /** The `User` record; `token` and `refresh` are the session's access and refresh tokens. */
  datatype User = User(
    id: int,
    nickname: string,
    avatar: string,
    gender: Gender,
    email: string,
    isMember: bool,
    memberExpiredTime: string,
    bio: string,
    location: string,
    token: string,
    refresh: string,
    lastLoginIp: string,
    lastLoginTime: string)

  /** The `Order` record: only `paidTime` may be null. */
  datatype Order = Order(
    orderNo: string,
    amount: int,
    status: OrderStatus,
    orderType: OrderType,
    qrCode: string,
    createdAt: string,
    updatedAt: string,
    paidTime: Option<string>,
    expireTime: string,
    signature: string)
}
