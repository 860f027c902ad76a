/** The inbound message, restricted to the fields the decision path reads. */
module Messages {
  import opened Prelude

  datatype Message = Message(
    chatKey: string,
    isSelf: bool,
    text: string,
    id: Option<string>,
    replyTo: Option<string>,
    mentions: seq<string>,
    recvTs: Option<real>,
    rowId: Option<nat>)
}
