/** Register bytes, bit by bit, with the operations the firmware applies to them. */
module Bits {
  datatype Byte = Byte(b7: bool, b6: bool, b5: bool, b4: bool, b3: bool, b2: bool, b1: bool, b0: bool) {
    /** this | o */
    function Or(o: Byte): Byte {
      Byte(b7 || o.b7, b6 || o.b6, b5 || o.b5, b4 || o.b4, b3 || o.b3, b2 || o.b2, b1 || o.b1, b0 || o.b0)
    }

    /** this & o */
    function And(o: Byte): Byte {
      Byte(b7 && o.b7, b6 && o.b6, b5 && o.b5, b4 && o.b4, b3 && o.b3, b2 && o.b2, b1 && o.b1, b0 && o.b0)
    }

    /** this & ~o */
    function Minus(o: Byte): Byte {
      Byte(b7 && !o.b7, b6 && !o.b6, b5 && !o.b5, b4 && !o.b4, b3 && !o.b3, b2 && !o.b2, b1 && !o.b1, b0 && !o.b0)
    }

    /** this ^ o */
    function Xor(o: Byte): Byte {
      Byte(b7 != o.b7, b6 != o.b6, b5 != o.b5, b4 != o.b4, b3 != o.b3, b2 != o.b2, b1 != o.b1, b0 != o.b0)
    }

    /** (this & ~o) == 0 */
    predicate Within(o: Byte) {
      && (b7 ==> o.b7) && (b6 ==> o.b6) && (b5 ==> o.b5) && (b4 ==> o.b4)
      && (b3 ==> o.b3) && (b2 ==> o.b2) && (b1 ==> o.b1) && (b0 ==> o.b0)
    }

    /** (this & o) == 0 */
    predicate Misses(o: Byte) {
      !(|| (b7 && o.b7) || (b6 && o.b6) || (b5 && o.b5) || (b4 && o.b4)
        || (b3 && o.b3) || (b2 && o.b2) || (b1 && o.b1) || (b0 && o.b0))
    }
  }

  const X00: Byte := Byte(false, false, false, false, false, false, false, false)
  const XFF: Byte := Byte(true, true, true, true, true, true, true, true)
  const XE0: Byte := Byte(true, true, true, false, false, false, false, false)
  const X1F: Byte := Byte(false, false, false, true, true, true, true, true)
  const X01: Byte := X00.(b0 := true)
  const X02: Byte := X00.(b1 := true)
  const X04: Byte := X00.(b2 := true)
  const X08: Byte := X00.(b3 := true)
  const X10: Byte := X00.(b4 := true)
}
