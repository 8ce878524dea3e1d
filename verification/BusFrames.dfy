/** The bytes on the bus: the register number with the direction and the set/clear bit. */
module BusFrames {
  import opened Common

  datatype Access =
    | SetBits(reg: bv8, payload: u16)
    | ClearBits(reg: bv8, payload: u16)
    | Write(reg: bv8, payload: u16)
    | Read(reg: bv8)

  datatype Frame = Frame(command: bv8, payload: Option<u16>)

  const REGISTER_MASK: bv8 := 0x3F
  const SET_BIT: bv8 := 0x40
  const READ_BIT: bv8 := 0x80

  predicate ValidRegister(reg: bv8) {
    reg & !REGISTER_MASK == 0
  }

  function Command(reg: bv8, direction: bv8, setClear: bv8): bv8 {
    (reg & REGISTER_MASK) | direction | setClear
  }

  /** What is sent for an access; nothing for a register number that does not exist. */
  function Sent(a: Access): Option<Frame> {
    if !ValidRegister(a.reg) then None
    else
      match a
      case SetBits(reg, p) => Some(Frame(Command(reg, 0, SET_BIT), Some(p)))
      case ClearBits(reg, p) => Some(Frame(Command(reg, 0, 0), Some(p)))
      case Write(reg, p) => Some(Frame(Command(reg, 0, 0), Some(p)))
      case Read(reg) => Some(Frame(Command(reg, READ_BIT, 0), None))
  }

  function Kind(a: Access): nat {
    match a
    case SetBits(_, _) => 0
    case ClearBits(_, _) => 1
    case Write(_, _) => 1
    case Read(_) => 2
  }

  function Payload(a: Access): Option<u16> {
    if a.Read? then None else Some(a.payload)
  }

  lemma CommandFields(reg: bv8)
    requires ValidRegister(reg)
    ensures Command(reg, 0, SET_BIT) & REGISTER_MASK == reg && Command(reg, 0, SET_BIT) & !REGISTER_MASK == SET_BIT
    ensures Command(reg, 0, 0) & REGISTER_MASK == reg && Command(reg, 0, 0) & !REGISTER_MASK == 0
    ensures Command(reg, READ_BIT, 0) & REGISTER_MASK == reg && Command(reg, READ_BIT, 0) & !REGISTER_MASK == READ_BIT
  {
  }

  /**
   Two accesses are the same on the bus exactly when they agree on register, payload and kind,
   where a plain write and a clearing of bits are of the same kind: which of the two happens is
   up to the register.
   */
  lemma SameFrameIff(a: Access, b: Access)
    requires ValidRegister(a.reg) && ValidRegister(b.reg)
    ensures Sent(a) == Sent(b) <==> a.reg == b.reg && Kind(a) == Kind(b) && Payload(a) == Payload(b)
  {
    CommandFields(a.reg);
    CommandFields(b.reg);
    hide Command;
    hide ValidRegister;
  }

  /** The bytes in numbers: the register, with 64 added for setting bits and 128 for reading, and the payload. */
  lemma FrameBytes(a: Access)
    ensures Sent(a).Some? <==> a.reg < 64
    ensures Sent(a).Some? ==> Sent(a).value == match a
                                               case SetBits(reg, p) => Frame(reg + 64, Some(p))
                                               case ClearBits(reg, p) => Frame(reg, Some(p))
                                               case Write(reg, p) => Frame(reg, Some(p))
                                               case Read(reg) => Frame(reg + 128, None)
  {
  }
}
