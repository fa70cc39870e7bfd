/**
 * The `file_identifier` schema tags of the message types declared beside
 * `RatekeeperInterface`. `TransactionCommitCostEstimation` and
 * `BlobGranuleChunk` declare none.
 */
module FileIdentifiers {
  import opened FixedWidth

  datatype MessageKind =
    | RatekeeperInterfaceMsg
    | GetRateInfoReplyMsg
    | GetRateInfoRequestMsg
    | HaltRatekeeperRequestMsg
    | ReportCommitCostEstimationRequestMsg
    | MutationAndVersionMsg
    | BlobGranuleFileReplyMsg
    | BlobGranuleFileRequestMsg

  /** The `file_identifier` constant each message type declares; its tag names it back. */
  function FileIdentifier(k: MessageKind): (id: uint32)
    ensures KindOf(id) == Some(k)
  {
    match k
    case RatekeeperInterfaceMsg => 5983305
    case GetRateInfoReplyMsg => 7845006
    case GetRateInfoRequestMsg => 9068521
    case HaltRatekeeperRequestMsg => 6997218
    case ReportCommitCostEstimationRequestMsg => 8314904
    case MutationAndVersionMsg => 4268041
    case BlobGranuleFileReplyMsg => 6858612
    case BlobGranuleFileRequestMsg => 4150141
  }

  datatype Option<T> = None | Some(value: T)

  /** The message type whose declared `file_identifier` is `id`, if any; the table above read backwards. */
  function KindOf(id: uint32): Option<MessageKind>
  {
    if id == 5983305 then Some(RatekeeperInterfaceMsg)
    else if id == 7845006 then Some(GetRateInfoReplyMsg)
    else if id == 9068521 then Some(GetRateInfoRequestMsg)
    else if id == 6997218 then Some(HaltRatekeeperRequestMsg)
    else if id == 8314904 then Some(ReportCommitCostEstimationRequestMsg)
    else if id == 4268041 then Some(MutationAndVersionMsg)
    else if id == 6858612 then Some(BlobGranuleFileReplyMsg)
    else if id == 4150141 then Some(BlobGranuleFileRequestMsg)
    else None
  }

  /** No two message types share a schema tag, so a tag names its message type. */
  lemma FileIdentifiersDistinct(a: MessageKind, b: MessageKind)
    ensures FileIdentifier(a) == FileIdentifier(b) <==> a == b
  {
  }
}
