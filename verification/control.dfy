/** The body of `run`: fetch, prefetch of two operands, dispatch on
    HLT/LDI/PRN, then the unconditional `PC += 1`; and the loop around it. */
module Control {
  import opened Machine
  import opened Memory

  /** One trip round the loop: HLT ends it, an `IndexError` kills it, and
      otherwise the loop goes on from `next` having printed `out`. */
  datatype StepResult = Halted | Running(next: Cpu, out: seq<int>) | Fault(error: Error)

  /** The if/elif chain on `IR`, before the trailing `PC += 1`. LDI and PRN
      index the register file with the operand byte, so a byte Python rejects
      as an index faults; an unrecognised opcode does nothing here. */
  function Dispatch(c: Cpu, ir: int, a: int, b: int): (r: StepResult)
    requires WellFormed(c)
  {
    if ir == Hlt then Halted
    else if ir == Ldi then
      if ValidIndex(RegCount, a) then Running(c.(reg := c.reg[Resolve(RegCount, a) := b], pc := c.pc + 3), [])
      else Fault(OutOfRange)
    else if ir == Prn then
      if ValidIndex(RegCount, a) then Running(c.(pc := c.pc + 2), [c.reg[Resolve(RegCount, a)]])
      else Fault(OutOfRange)
    else Running(c, [])
  }

  /** One cycle. `IR`, `operand_a` and `operand_b` are all read before the
      opcode is looked at, so a step needs `PC + 2 < 256` even for HLT.
      RAM and the flags are never written, PC strictly grows, and at most one
      value is printed, by a PRN that moved PC by 3. */
  function Step(c: Cpu): (r: StepResult)
    requires WellFormed(c)
    ensures r.Fault? ==> r.error == OutOfRange
    ensures r.Halted? ==> c.pc + 2 < RamSize && c.ram[c.pc] == Hlt
    ensures r.Running? ==> WellFormed(r.next) && r.next.ram == c.ram && r.next.fl == c.fl
    ensures r.Running? ==> c.pc + 2 < RamSize && c.pc < r.next.pc <= c.pc + 4
    ensures r.Running? ==> |r.out| <= 1 && (|r.out| == 1 ==> r.next.pc == c.pc + 3)
  {
    var ir := RamRead(c, c.pc);
    var a := RamRead(c, c.pc + 1);
    var b := RamRead(c, c.pc + 2);
    if ir.Err? || a.Err? || b.Err? then Fault(OutOfRange)
    else
      match Dispatch(c, ir.value, a.value, b.value)
      case Running(n, out) => Running(n.(pc := n.pc + 1), out)
      case other => other
  }

  /** How a run of the loop ends: at a HLT, in state `final`, or killed by an
      exception raised in state `at`; `out` is everything PRN printed. */
  datatype Outcome = Halt(final: Cpu, out: seq<int>) | Crash(error: Error, at: Cpu, out: seq<int>)
  {
    /** The state the machine was in when the loop stopped. */
    function Last(): Cpu {
      if Halt? then final else at
    }
  }

  function Prepend(out: seq<int>, r: Outcome): (r': Outcome)
    ensures r'.Last() == r.Last() && r'.out == out + r.out
    ensures r'.Halt? == r.Halt? && (r.Crash? ==> r'.error == r.error)
  {
    match r
    case Halt(final, rest) => Halt(final, out + rest)
    case Crash(e, at, rest) => Crash(e, at, out + rest)
  }

  lemma PrependTwice(first: seq<int>, second: seq<int>, r: Outcome)
    ensures Prepend(first, Prepend(second, r)) == Prepend(first + second, r)
  {
    assert first + (second + r.out) == (first + second) + r.out;
  }

  /** The `while True` loop of `run`, with no cycle limit. It is total because
      every cycle that continues raises PC and a cycle at `PC >= 254` faults.
      No run writes RAM or the flags, no run raises the ALU's exception, a
      halt happens at a HLT byte, PC never passes 257 (an LDI at 253), and
      each printed value cost three bytes of PC. */
  function Execution(c: Cpu): (r: Outcome)
    requires WellFormed(c)
    ensures WellFormed(r.Last()) && r.Last().ram == c.ram && r.Last().fl == c.fl
    ensures c.pc <= r.Last().pc
    ensures r.Last().pc <= c.pc || r.Last().pc <= RamSize + 1
    ensures r.Crash? ==> r.error == OutOfRange
    ensures r.Halt? ==> r.final.pc + 2 < RamSize && r.final.ram[r.final.pc] == Hlt
    ensures 3 * |r.out| <= r.Last().pc - c.pc
    decreases RamSize - c.pc
  {
    match Step(c)
    case Halted => Halt(c, [])
    case Fault(e) => Crash(e, c, [])
    case Running(next, out) => Prepend(out, Execution(next))
  }

  /** `run()` as a loop over `Step`; it ends exactly as `Execution` says. */
  method Run(c: Cpu) returns (r: Outcome)
    requires WellFormed(c)
    ensures r == Execution(c)
  {
    var cur := c;
    var printed: seq<int> := [];
    while true
      invariant WellFormed(cur)
      invariant Execution(c) == Prepend(printed, Execution(cur))
      decreases RamSize - cur.pc
    {
      match Step(cur)
      case Halted =>
        assert printed + [] == printed;
        return Halt(cur, printed);
      case Fault(e) =>
        assert printed + [] == printed;
        return Crash(e, cur, printed);
      case Running(next, out) =>
        PrependTwice(printed, out, Execution(next));
        printed := printed + out;
        cur := next;
    }
  }

  /** With `PC >= 254` the prefetch of `PC + 2` is out of range, whatever the
      opcode: a HLT at address 254 or 255 faults instead of halting. */
  lemma StepOutOfRange(c: Cpu)
    requires WellFormed(c) && RamSize <= c.pc + 2
    ensures Step(c) == Fault(OutOfRange)
  {
  }

  /** A cycle faults exactly when the prefetch runs off RAM or LDI/PRN name
      a register Python cannot index. */
  lemma StepFaults(c: Cpu)
    requires WellFormed(c)
    ensures Step(c).Fault? <==>
              RamSize <= c.pc + 2 ||
              ((c.ram[c.pc] == Ldi || c.ram[c.pc] == Prn) && !ValidIndex(RegCount, c.ram[c.pc + 1]))
  {
  }

  /** HLT stops the loop and changes nothing, provided the prefetch fits. */
  lemma StepHlt(c: Cpu)
    requires WellFormed(c) && c.pc + 2 < RamSize
    ensures Step(c) == Halted <==> c.ram[c.pc] == Hlt
  {
  }

  /** LDI loads `ram[PC+2]` into the register `ram[PC+1]` names and moves PC
      by 4 (3 in its branch plus the trailing 1); a bad register index faults. */
  lemma StepLdi(c: Cpu)
    requires WellFormed(c) && c.pc + 2 < RamSize && c.ram[c.pc] == Ldi
    ensures !ValidIndex(RegCount, c.ram[c.pc + 1]) <==> Step(c) == Fault(OutOfRange)
    ensures ValidIndex(RegCount, c.ram[c.pc + 1]) ==>
              var k := Resolve(RegCount, c.ram[c.pc + 1]);
              var r := Step(c);
              r.Running? && r.out == [] && r.next.pc == c.pc + 4 &&
              r.next.ram == c.ram && r.next.fl == c.fl &&
              r.next.reg[k] == c.ram[c.pc + 2] &&
              forall j :: 0 <= j < RegCount && j != k ==> r.next.reg[j] == c.reg[j]
  {
  }

  /** For a non-negative register byte, LDI faults exactly when it is 8 or more. */
  lemma StepLdiByte(c: Cpu)
    requires WellFormed(c) && c.pc + 2 < RamSize && c.ram[c.pc] == Ldi
    requires 0 <= c.ram[c.pc + 1]
    ensures Step(c).Fault? <==> c.ram[c.pc + 1] >= RegCount
  {
  }

  /** PRN prints the register `ram[PC+1]` names and moves PC by 3 (2 in its
      branch plus the trailing 1); nothing else changes; a bad index faults. */
  lemma StepPrn(c: Cpu)
    requires WellFormed(c) && c.pc + 2 < RamSize && c.ram[c.pc] == Prn
    ensures !ValidIndex(RegCount, c.ram[c.pc + 1]) <==> Step(c) == Fault(OutOfRange)
    ensures ValidIndex(RegCount, c.ram[c.pc + 1]) ==>
              Step(c) == Running(c.(pc := c.pc + 3), [c.reg[Resolve(RegCount, c.ram[c.pc + 1])]])
  {
  }

  /** Any other byte is skipped: PC moves by 1 and nothing else happens. */
  lemma StepOther(c: Cpu)
    requires WellFormed(c) && c.pc + 2 < RamSize
    requires c.ram[c.pc] != Hlt && c.ram[c.pc] != Ldi && c.ram[c.pc] != Prn
    ensures Step(c) == Running(c.(pc := c.pc + 1), [])
  {
  }

  /** The bound 257 is reached: an LDI at 253 still fits its prefetch, moves
      PC to 257, and only the next fetch raises. */
  lemma LdiAtEndOverrunsRam(c: Cpu)
    requires WellFormed(c) && c.pc == RamSize - 3 && c.ram[c.pc] == Ldi
    requires ValidIndex(RegCount, c.ram[c.pc + 1])
    ensures Execution(c).Crash? && Execution(c).error == OutOfRange
    ensures Execution(c).at.pc == RamSize + 1 && Execution(c).out == []
  {
    var next := Step(c).next;
    assert Step(next) == Fault(OutOfRange);
  }

  /** All-zero RAM holds no opcode, so PC walks up one cell at a time until
      the prefetch at 254 runs off the end, printing nothing. */
  lemma {:induction false} ZeroRamCrashes(c: Cpu)
    requires WellFormed(c) && c.pc <= RamSize - 2
    requires forall i :: 0 <= i < RamSize ==> c.ram[i] == 0
    ensures Execution(c) == Crash(OutOfRange, c.(pc := RamSize - 2), [])
    decreases RamSize - c.pc
  {
    if c.pc < RamSize - 2 {
      assert Step(c) == Running(c.(pc := c.pc + 1), []);
      ZeroRamCrashes(c.(pc := c.pc + 1));
    }
  }
}
