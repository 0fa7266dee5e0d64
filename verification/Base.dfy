/** Types that several components share. */
module Base {

  datatype Option<+T> = None | Some(value: T)

  /** `uint32_t` */
  type Uint32 = x: int | 0 <= x < 0x1_0000_0000

  /** A `can_frame`. */
  datatype Frame = Frame(id: nat, payload: nat)

  /** HC_MAX_STD_CAN_ID: the length of a dispatcher's callback table. */
  const MAX_ID := 2048

  /** An eventfd counter read into a `can_frame`: its low word lands in can_id. */
  function CounterFrame(counter: nat): Frame
  {
    Frame(counter % 0x1_0000_0000, counter / 0x1_0000_0000)
  }
}
