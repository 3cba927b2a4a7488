/** The hardcoded print8 program, loaded into a fresh CPU and run. */
module Print8 {
  import opened Machine
  import opened Loader
  import opened Control

  /** LDI at address 0 moves PC to 4, skipping the PRN at address 3; the
      operand byte 0 at address 4 is skipped by one; HLT at 5 stops the loop.
      So `reg[0]` ends as 8 and nothing is printed. */
  lemma LoadedProgramRun()
    ensures var r := Execution(Load(Init()));
            r.Halt? && r.out == [] && r.final.pc == 5 &&
            r.final.reg[0] == 8 &&
            (forall j :: 1 <= j < RegCount ==> r.final.reg[j] == 0) &&
            r.final.ram == Load(Init()).ram
  {
    InitThenLoad();
    var c0 := Load(Init());
    var c4 := c0.(reg := c0.reg[0 := 8], pc := 4);
    var c5 := c4.(pc := 5);
    assert Step(c0) == Running(c4, []);
    assert Step(c4) == Running(c5, []);
    assert Step(c5) == Halted;
  }
}
