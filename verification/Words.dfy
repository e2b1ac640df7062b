/** Machine words of 32 bits, as integers. */
module Words {

  const TOP := 0x1_0000_0000

  type Word = x: int | 0 <= x < TOP
}
