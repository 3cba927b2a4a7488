/** `load`: copies the hardcoded print8 program into RAM from address 0. */
module Loader {
  import opened Machine

  /** The print8 program: LDI R0,8 / PRN R0 / HLT. */
  const Program: seq<int> := [Ldi, 0x00, 0x08, Prn, 0x00, Hlt]

  /** The `for instruction in program` loop: each byte goes to `ram[address]`
      and the address moves on by one. */
  function LoadFrom(ram: seq<int>, program: seq<int>, address: nat): (r: seq<int>)
    requires address + |program| <= |ram|
    ensures |r| == |ram|
    decreases |program|
  {
    if program == [] then ram
    else LoadFrom(ram[address := program[0]], program[1..], address + 1)
  }

  /** The cells from `address` on hold the program and no other cell changes. */
  lemma {:induction false} LoadFromContents(ram: seq<int>, program: seq<int>, address: nat)
    requires address + |program| <= |ram|
    ensures forall i :: address <= i < address + |program| ==>
              LoadFrom(ram, program, address)[i] == program[i - address]
    ensures forall i :: 0 <= i < |ram| && !(address <= i < address + |program|) ==>
              LoadFrom(ram, program, address)[i] == ram[i]
    decreases |program|
  {
    if program != [] {
      var ram' := ram[address := program[0]];
      LoadFromContents(ram', program[1..], address + 1);
      forall i | address <= i < address + |program|
        ensures LoadFrom(ram, program, address)[i] == program[i - address]
      {
        if i > address {
          assert program[1..][i - (address + 1)] == program[i - address];
        }
      }
    }
  }

  /** `load()`: only RAM changes; its first six cells hold the program and
      the rest keep their contents. */
  function Load(c: Cpu): (r: Cpu)
    requires WellFormed(c)
    ensures WellFormed(r)
    ensures r.reg == c.reg && r.pc == c.pc && r.fl == c.fl
    ensures r.ram[..|Program|] == Program
    ensures r.ram[|Program|..] == c.ram[|Program|..]
  {
    LoadFromContents(c.ram, Program, 0);
    var r := c.(ram := LoadFrom(c.ram, Program, 0));
    assert r.ram[..|Program|] == Program;
    assert r.ram[|Program|..] == c.ram[|Program|..];
    r
  }

  /** Construction followed by `load`: the program at addresses 0..5, every
      other cell, every register and every flag 0, PC 0. */
  lemma InitThenLoad()
    ensures WellFormed(Load(Init()))
    ensures Load(Init()).pc == 0
    ensures forall i :: 0 <= i < |Program| ==> Load(Init()).ram[i] == Program[i]
    ensures forall i :: |Program| <= i < RamSize ==> Load(Init()).ram[i] == 0
    ensures forall i :: 0 <= i < RegCount ==> Load(Init()).reg[i] == 0
    ensures forall i :: 0 <= i < FlagCount ==> Load(Init()).fl[i] == 0
  {
    var c := Load(Init());
    forall i | |Program| <= i < RamSize ensures c.ram[i] == 0 {
      assert c.ram[i] == c.ram[|Program|..][i - |Program|];
    }
    forall i | 0 <= i < |Program| ensures c.ram[i] == Program[i] {
      assert c.ram[i] == c.ram[..|Program|][i];
    }
  }
}
