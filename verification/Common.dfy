/** What several modules share. */
module Common {

  datatype Option<T> = None | Some(value: T)

  const MAX_MSG_SIZE := 4096
  const UINT32 := 0x1_0000_0000
  const UINT64 := 0x1_0000_0000_0000_0000

  /** The contents of one message buffer; relays always send the whole buffer. */
  datatype Message = Message(bytes: string)
}
