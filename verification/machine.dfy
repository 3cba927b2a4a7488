/** The state of the LS-8 emulator: eight registers, 256 cells of RAM, the
    program counter and an eight-cell flags array that no instruction uses.
    Python lists become sequences of unbounded integers; nothing masks a
    cell to eight bits, because the emulator never does. */
module Machine {

  const RegCount: nat := 8
  const RamSize: nat := 256
  const FlagCount: nat := 8

  /** The three opcodes `run` recognises. */
  const Hlt: int := 0x01
  const Ldi: int := 0x82
  const Prn: int := 0x47

  /** The two ways the emulator can die: an `IndexError` from a list access
      and the exception `alu` raises for an operation it does not know. */
  datatype Error = OutOfRange | UnsupportedOperation

  datatype Result<T> = Ok(value: T) | Err(error: Error)

  datatype Cpu = Cpu(reg: seq<int>, ram: seq<int>, pc: nat, fl: seq<int>)

  /** The lists are only ever updated in place, so their lengths never change. */
  predicate WellFormed(c: Cpu) {
    |c.reg| == RegCount && |c.ram| == RamSize && |c.fl| == FlagCount
  }

  /** Python accepts an index `i` into a list of length `n` when
      `-n <= i < n`; anything else raises `IndexError`. */
  predicate ValidIndex(n: nat, i: int) {
    -(n as int) <= i < n
  }

  /** The cell a valid Python index denotes: negative indices count from the end. */
  function Resolve(n: nat, i: int): (k: nat)
    requires ValidIndex(n, i)
    ensures k < n
    ensures 0 <= i ==> k == i
    ensures i < 0 ==> k == i + n
  {
    if i < 0 then i + n else i
  }

  /** A freshly constructed CPU: every register, RAM cell and flag is 0 and PC is 0. */
  function Init(): (c: Cpu)
    ensures WellFormed(c)
    ensures c.pc == 0
    ensures forall i :: 0 <= i < RegCount ==> c.reg[i] == 0
    ensures forall i :: 0 <= i < RamSize ==> c.ram[i] == 0
    ensures forall i :: 0 <= i < FlagCount ==> c.fl[i] == 0
  {
    Cpu(seq(RegCount, _ => 0), seq(RamSize, _ => 0), 0, seq(FlagCount, _ => 0))
  }
}
