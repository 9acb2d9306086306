/** Bytes, and the two fixed-width numbers that travel between the client library and the switchboard. */
module Wire {

  type byte = x: int | 0 <= x < 256
  /** A C `short`. */
  type Short = x: int | -0x8000 <= x < 0x8000

  const IOSHORT := 2
  const IOLONG := 4
  const NAME_LENGTH := 15

  /** An unsigned short, low byte first. */
  function ToShort(b: seq<byte>, at: nat): (r: int)
    requires at + IOSHORT <= |b|
    ensures 0 <= r < 0x1_0000
  {
    (b[at] as int) + 256 * (b[at + 1] as int)
  }

  /** The unsigned short `u` stored in a C `short`. */
  function AsShort(u: int): (r: Short)
    requires 0 <= u < 0x1_0000
  {
    if u < 0x8000 then u else u - 0x1_0000
  }

  /** A long: the high half is shifted into the sign bit of an `int`, so the result is signed. */
  function ToLong(b: seq<byte>, at: nat): (r: int)
    requires at + IOLONG <= |b|
    ensures -0x8000_0000 <= r < 0x8000_0000
  {
    ToShort(b, at) + 0x1_0000 * AsShort(ToShort(b, at + 2))
  }

  /** A service name as `strncmp` sees it: cut at the first NUL, at most fifteen bytes. */
  type Name = n: seq<byte> | |n| <= NAME_LENGTH && 0 !in n

  function CutName(b: seq<byte>, n: nat := NAME_LENGTH): (r: Name)
    requires n <= NAME_LENGTH
    ensures |r| <= n && r <= b
    decreases n
  {
    if n == 0 || b == [] || b[0] == 0 then []
    else [b[0]] + CutName(b[1..], n - 1)
  }
}
