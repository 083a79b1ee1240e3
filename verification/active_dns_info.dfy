/** The key-value slot that persists the active selection, read with a
    fallback to the system default pair. */
module ActiveDnsInfoStorage {
  import opened DnsTypes

  /** What the slot may hold: nothing, something that does not decode to an
      `ActiveDnsInfo`, or an encoded selection. */
  datatype Slot = Missing | Undecodable | Encoded(info: ActiveDnsInfo)

  /** The getter: the stored selection when it decodes, the system default otherwise. */
  function Read(slot: Slot, systemDefault: ActiveDnsInfo): (info: ActiveDnsInfo)
    ensures slot.Encoded? ==> info == slot.info
    ensures !slot.Encoded? ==> info == systemDefault
  {
    match slot
    case Encoded(stored) => stored
    case _ => systemDefault
  }

  /** The setter: overwrites the slot, whatever it held, so that the getter returns `info`. */
  function Write(info: ActiveDnsInfo): (slot: Slot)
    ensures forall systemDefault :: Read(slot, systemDefault) == info
  {
    Encoded(info)
  }
}
