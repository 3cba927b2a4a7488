/** `ram_read` and `ram_write`: RAM access through Python list indexing. */
module Memory {
  import opened Machine

  /** `ram_read(MAR)`: the cell at `mar`, or `OutOfRange` when Python would
      raise `IndexError`. */
  function RamRead(c: Cpu, mar: int): (r: Result<int>)
    requires WellFormed(c)
    ensures r.Ok? <==> ValidIndex(RamSize, mar)
    ensures r.Err? ==> r.error == OutOfRange
    ensures r.Ok? ==> r.value == c.ram[Resolve(RamSize, mar)]
  {
    if ValidIndex(RamSize, mar) then Ok(c.ram[Resolve(RamSize, mar)]) else Err(OutOfRange)
  }

  /** `ram_write(MDR, MAR)`: the value comes first, the address second.
      Only RAM changes, and only the addressed cell. */
  function RamWrite(c: Cpu, mdr: int, mar: int): (r: Result<Cpu>)
    requires WellFormed(c)
    ensures r.Ok? <==> ValidIndex(RamSize, mar)
    ensures r.Err? ==> r.error == OutOfRange
    ensures r.Ok? ==> WellFormed(r.value)
    ensures r.Ok? ==> r.value.reg == c.reg && r.value.pc == c.pc && r.value.fl == c.fl
  {
    if ValidIndex(RamSize, mar) then
      Ok(c.(ram := c.ram[Resolve(RamSize, mar) := mdr]))
    else
      Err(OutOfRange)
  }

  /** Reading back the address just written yields the value written. */
  lemma ReadAfterWrite(c: Cpu, mdr: int, mar: int)
    requires WellFormed(c)
    requires ValidIndex(RamSize, mar)
    ensures RamWrite(c, mdr, mar).Ok?
    ensures RamRead(RamWrite(c, mdr, mar).value, mar) == Ok(mdr)
  {
  }

  /** Every address that denotes a different cell reads as it did before the write. */
  lemma ReadOtherAfterWrite(c: Cpu, mdr: int, mar: int, other: int)
    requires WellFormed(c)
    requires ValidIndex(RamSize, mar)
    requires ValidIndex(RamSize, other) && Resolve(RamSize, other) != Resolve(RamSize, mar)
    ensures RamWrite(c, mdr, mar).Ok?
    ensures RamRead(RamWrite(c, mdr, mar).value, other) == RamRead(c, other)
  {
  }

  /** A negative address aliases the cell 256 places above it, as Python lists do. */
  lemma NegativeAddressAliases(c: Cpu, mdr: int, mar: int)
    requires WellFormed(c)
    requires 0 <= mar < RamSize
    ensures RamRead(RamWrite(c, mdr, mar - RamSize).value, mar) == Ok(mdr)
  {
  }
}
