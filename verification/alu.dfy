/** `alu(op, reg_a, reg_b)`: only "ADD" exists, and nothing masks its sum. */
module Alu {
  import opened Machine

  /** ADD adds `reg[b]` into `reg[a]`; the operation is checked before the
      registers are touched, so an unknown operation fails whatever the
      indices are. A failure carries no state: the exception is raised
      before any register is written. */
  function Alu(c: Cpu, op: string, a: int, b: int): (r: Result<Cpu>)
    requires WellFormed(c)
    ensures op != "ADD" ==> r == Err(UnsupportedOperation)
    ensures op == "ADD" ==> (r.Ok? <==> ValidIndex(RegCount, a) && ValidIndex(RegCount, b))
    ensures r.Err? && op == "ADD" ==> r.error == OutOfRange
    ensures r.Ok? ==> WellFormed(r.value)
    ensures r.Ok? ==> r.value.ram == c.ram && r.value.pc == c.pc && r.value.fl == c.fl
    ensures r.Ok? ==>
              var ka, kb := Resolve(RegCount, a), Resolve(RegCount, b);
              r.value.reg[ka] == c.reg[ka] + c.reg[kb] &&
              forall j :: 0 <= j < RegCount && j != ka ==> r.value.reg[j] == c.reg[j]
  {
    if op == "ADD" then
      if ValidIndex(RegCount, a) && ValidIndex(RegCount, b) then
        var ka, kb := Resolve(RegCount, a), Resolve(RegCount, b);
        Ok(c.(reg := c.reg[ka := c.reg[ka] + c.reg[kb]]))
      else
        Err(OutOfRange)
    else
      Err(UnsupportedOperation)
  }

  /** The sum is not reduced modulo 256: 200 + 100 leaves 300 in the register. */
  lemma AddDoesNotWrap(c: Cpu)
    requires WellFormed(c)
    requires c.reg[0] == 200 && c.reg[1] == 100
    ensures Alu(c, "ADD", 0, 1).Ok?
    ensures Alu(c, "ADD", 0, 1).value.reg[0] == 300
  {
  }

  /** Adding a register to itself doubles it. */
  lemma AddSelfDoubles(c: Cpu, a: int)
    requires WellFormed(c)
    requires ValidIndex(RegCount, a)
    ensures Alu(c, "ADD", a, a).Ok?
    ensures Alu(c, "ADD", a, a).value.reg[Resolve(RegCount, a)] == 2 * c.reg[Resolve(RegCount, a)]
  {
  }

  /** There is no SUB (nor MUL): it fails with every register content and index. */
  lemma SubIsUnsupported(c: Cpu, a: int, b: int)
    requires WellFormed(c)
    ensures Alu(c, "SUB", a, b) == Err(UnsupportedOperation)
    ensures Alu(c, "MUL", a, b) == Err(UnsupportedOperation)
  {
  }
}
