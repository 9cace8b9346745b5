/** Action lines and the index they act on. */
module Documents {
  import opened Wrappers
  import opened BulkOutcome

  type Id = string
  type Doc = string

  /** One pre-built action line. An index line without an id lets Elasticsearch assign one. */
  datatype Line = Index(id: Option<Id>, doc: Doc) | Create(cid: Id, doc: Doc) | Delete(did: Id)

  function OpOf(line: Line): OpType {
    match line
    case Index(_, _) => OpIndex
    case Create(_, _) => OpCreate
    case Delete(_) => OpDelete
  }

  /** The id the line names, if it names one. */
  function IdOf(line: Line): Option<Id> {
    match line
    case Index(id, _) => id
    case Create(id, _) => Some(id)
    case Delete(id) => Some(id)
  }
}
