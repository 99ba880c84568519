/** The fixed-width unsigned integers of the Windows audio structures. */
module MachineInts {

  type byte = x: int | 0 <= x < 0x100
  type uint16 = x: int | 0 <= x < 0x1_0000
  type uint32 = x: int | 0 <= x < 0x1_0000_0000
}
