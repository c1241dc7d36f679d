/** Small vocabulary shared by the other modules. */
module Common {

  datatype Option<+T> = None | Some(value: T)

  datatype Result<+T, +E> = Ok(value: T) | Err(error: E)

  /** The two worlds of operational data: OperationalDataMode in schema.prisma. */
  datatype DataMode = TEST | LIVE

  /** Removing elements never makes a finite set larger. */
  lemma SubsetSize<T>(small: set<T>, big: set<T>)
    requires small <= big
    ensures |small| <= |big|
  {
    if small != {} {
      var x :| x in small;
      SubsetSize(small - {x}, big - {x});
    }
  }

  function Min(a: int, b: int): int { if a <= b then a else b }

  // ---- Strings ----

  predicate IsSpace(c: char) { c in {' ', '\t', '\n', '\r'} }

  function TrimLeft(s: string): string {
    if s != [] && IsSpace(s[0]) then TrimLeft(s[1..]) else s
  }

  function TrimRight(s: string): string {
    if s != [] && IsSpace(s[|s| - 1]) then TrimRight(s[..|s| - 1]) else s
  }

  function Trim(s: string): string { TrimRight(TrimLeft(s)) }
}
