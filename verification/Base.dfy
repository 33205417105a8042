/** Machine words and the result types shared by every component. */
module Base {
  const TWO16: nat := 0x1_0000
  const TWO32: nat := 0x1_0000_0000
  const TWO39: nat := 0x80_0000_0000
  const TWO44: nat := 0x1000_0000_0000
  const TWO56: nat := 0x100_0000_0000_0000
  const TWO64: nat := 0x1_0000_0000_0000_0000

  type byte = x: nat | x < 256
  type u32 = x: nat | x < TWO32
  type u64 = x: nat | x < TWO64

  const PAGE_SIZE: nat := 4096

  datatype Option<+T> = None | Some(value: T)
  datatype Result<+T, +E> = Ok(value: T) | Err(error: E)

  lemma OkIsUnit<E>(r: Result<(), E>)
    ensures r.Ok? ==> r == Ok(())
  {
    match r
    case Ok(x) => match x { case () => }
    case Err(_) =>
  }

  function PageBase(v: nat): nat { v - v % PAGE_SIZE }

  /** A key and its value in a text line. */
  type Field = (string, string)

  predicate PageAligned(addr: nat) { addr % PAGE_SIZE == 0 }

  /** Overwrites a stretch of a buffer. */
  method CopyInto<T>(dst: array<T>, at: nat, s: seq<T>)
    requires at + |s| <= dst.Length
    modifies dst
    ensures dst[..] == old(dst[..at]) + s + old(dst[at + |s|..])
  {
    for i := 0 to |s|
      invariant dst[..at] == old(dst[..at]) && dst[at + |s|..] == old(dst[at + |s|..])
      invariant dst[at..at + i] == s[..i]
    {
      dst[at + i] := s[i];
      assert dst[at..at + i + 1] == dst[at..at + i] + [dst[at + i]];
    }
    assert dst[..] == dst[..at] + dst[at..at + |s|] + dst[at + |s|..];
    assert s[..|s|] == s;
  }
}
