/** How one item of a `_bulk` response is read: its status, its outcome and its reject bucket. */
module BulkOutcome {
  import opened Wrappers

  /** The single key of a response item. `OpOther` is any key the connector never sent. */
  datatype OpType = OpIndex | OpCreate | OpDelete | OpOther

  datatype Outcome = Written | Deleted | Ignored | Error

  /** `EmptyItem` is the malformed item `{}`; a missing or null status is `None`. */
  datatype Item = EmptyItem | Item(op: OpType, status: Option<int>)

  datatype Bucket = Rejected429 | Rejected409 | Rejected4xxOther | Rejected5xx

  const MISSING_STATUS := 500

  predicate Is2xx(status: int) {
    200 <= status < 300
  }

  /** A missing, null or zero status falls closed to 500. */
  function StatusOf(item: Item): int {
    match item
    case EmptyItem => MISSING_STATUS
    case Item(_, status) =>
      var s := status.GetOr(MISSING_STATUS);
      if s == 0 then MISSING_STATUS else s
  }

  function ClassifyBulkResult(ok: bool, op: OpType, status: int): Outcome {
    if ok then
      if op == OpDelete then Deleted else Written
    else if op == OpDelete && status == 404 then Ignored
    else if op == OpCreate && status == 409 then Ignored
    else Error
  }

  function OutcomeOf(item: Item): Outcome {
    match item
    case EmptyItem => Error
    case Item(op, _) => ClassifyBulkResult(Is2xx(StatusOf(item)), op, StatusOf(item))
  }

  /** A rejection is any non-2xx item that is not an expected no-op. */
  predicate IsRejection(item: Item) {
    !(item.Item? && Is2xx(StatusOf(item))) && OutcomeOf(item) != Ignored
  }

  function RejectBucket(status: int): Bucket {
    if status == 429 then Rejected429
    else if status == 409 then Rejected409
    else if 400 <= status < 500 then Rejected4xxOther
    else Rejected5xx
  }
}
