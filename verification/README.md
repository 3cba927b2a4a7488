# LS-8 emulator core in Dafny

A model of the LS-8 8-bit CPU emulator in `ls8/cpu.py`. The model follows the code as written:

- **Machine state** (`Machine`). `Cpu` holds `reg` (8 cells), `ram` (256 cells), `pc` and the flags array `fl` (8 cells). `fl` is carried along but never read or written. Cells are unbounded integers, as Python's are.
- **Python list indexing** (`Machine.ValidIndex`, `Machine.Resolve`). For a list of length `n`, an index `i` is accepted when `-n <= i < n`, and a negative index counts from the end. Any other index raises `IndexError`, which the model reports as `Error.OutOfRange`.
- **Memory accessors** (`Memory`). `ram_read(MAR)` and `ram_write(MDR, MAR)` are modelled; note that the value comes before the address.
- **Loader** (`Loader`). It copies the hardcoded six-byte print8 program (LDI R0,8 / PRN R0 / HLT) into RAM starting at address 0.
- **ALU** (`Alu`). Only `"ADD"` exists, and the sum is not reduced modulo 256. Any other operation fails with `UnsupportedOperation` before any register is touched.
- **Control unit** (`Control`).
  - `Step` is one pass through the body of `run`. It fetches `IR` and prefetches `ram[PC+1]` and `ram[PC+2]`. It then dispatches on HLT (`0x01`), LDI (`0x82`) and PRN (`0x47`). After every branch except HLT it adds 1 to PC unconditionally.
  - So LDI moves PC by 4, PRN by 3 and any other byte by 1.
  - A step at `PC >= 254` faults, because the prefetch reads past RAM, even when the opcode is HLT.
- **The run loop** (`Control.Execution`, `Control.Run`).
  - `Execution` is the unbounded `while True` loop, with no cycle limit. It is still total: every step that continues raises PC, and a step at `PC >= 254` faults.
  - `Run` is the same loop written as a Dafny `while` over `Step`, and it is proved to end exactly as `Execution` does.
  - HLT becomes the outcome `Halt`. An exception becomes `Crash`, which carries the state it was raised in. Everything PRN prints is collected in `out`.

Where this code differs from the LS-8 instruction set it is meant to emulate, the model follows the code:

- ADD does not wrap modulo 256 (`Alu.AddDoesNotWrap`).
- There is no MUL.
- `alu` is never called from `run`, so neither ADD nor MUL is an instruction. A run never fails with `UnsupportedOperation` (`Control.Execution`).
- The extra `PC += 1` makes LDI 4 bytes long and PRN 3 bytes long. As a result, the print8 program jumps from address 0 to address 4 and skips its PRN. It halts at PC 5 with `reg[0] == 8` and prints nothing (`Print8.LoadedProgramRun`).
- The loop has no jumps, so no program can run forever. A continuing step needs `PC + 2 < 256` and moves PC by at most 4, so every run halts or faults by the time PC reaches 257. An LDI at address 253 does reach 257 (`Control.LdiAtEndOverrunsRam`).

## Model

| member | source | states |
|---|---|---|
| Machine.Init | ls8/cpu.py:9-15 | A new CPU has 8 zero registers, 256 zero RAM cells, 8 zero flags and PC 0. |
| Memory.RamRead | ls8/cpu.py:47-49 | A read succeeds exactly for Python-valid addresses (-256..255) and returns the cell that address names: `ram[a]` for `a >= 0`, `ram[a + 256]` for a negative `a`. Any other address fails with OutOfRange. |
| Memory.RamWrite | ls8/cpu.py:51-54 | A write succeeds exactly for Python-valid addresses. Otherwise it fails with OutOfRange. Registers, PC and flags never change. |
| Memory.ReadAfterWrite | ls8/cpu.py:47-54 | `ram_write(v, a)` followed by `ram_read(a)` returns `v` for every valid `a`. |
| Memory.ReadOtherAfterWrite | ls8/cpu.py:47-54 | Every address naming a different cell reads the same before and after a write. |
| Memory.NegativeAddressAliases | ls8/cpu.py:47-54 | Writing at `a - 256` is read back at `a`, because Python negative indexing wraps. |
| Loader.LoadFromContents | ls8/cpu.py:34-36 | The copy loop puts `program[i]` at `address + i` and leaves every other cell as it was. |
| Loader.Load | ls8/cpu.py:17-36 | After `load`, `ram[0..5]` is the print8 program and the rest of RAM is unchanged. Registers, PC and flags are untouched. |
| Loader.InitThenLoad | ls8/cpu.py:9-36 | Construction followed by `load` gives the six program bytes at 0..5 and zero in every other cell, every register and every flag, with PC 0. |
| Alu.Alu | ls8/cpu.py:38-45 | An operation other than "ADD" fails with UnsupportedOperation, whatever the indices. ADD succeeds exactly when both indices are valid and otherwise fails with OutOfRange. On success, `reg[a]` becomes `reg[a] + reg[b]`, no other register changes, and RAM, PC and flags are kept. |
| Alu.AddDoesNotWrap | ls8/cpu.py:41-42 | 200 + 100 leaves 300 in the register, so there is no 8-bit masking. |
| Alu.AddSelfDoubles | ls8/cpu.py:41-42 | ADD of a register with itself doubles it. |
| Alu.SubIsUnsupported | ls8/cpu.py:43-45 | "SUB" and "MUL" fail with UnsupportedOperation for every state and index. |
| Control.Step | ls8/cpu.py:82-100 | One cycle. It only fails with OutOfRange and halts only at a HLT byte. A continuing step needs `PC + 2 < 256`, raises PC by 1 to 4, and keeps RAM and flags. It prints at most one value, and only when PC moved by 3. |
| Control.StepOutOfRange | ls8/cpu.py:85-89 | At `PC >= 254` the step faults with OutOfRange, whatever the opcode, so a HLT at 254 or 255 faults instead of halting. |
| Control.StepFaults | ls8/cpu.py:85-99 | A step faults exactly when the prefetch leaves RAM, or when LDI/PRN name a register index Python rejects. |
| Control.StepHlt | ls8/cpu.py:91-92 | With the prefetch in range, the step halts exactly when `ram[PC]` is HLT, and nothing changes. |
| Control.StepLdi | ls8/cpu.py:93-100 | LDI sets `reg[ram[PC+1]]` to `ram[PC+2]` and moves PC by 4. Other registers, RAM and flags are unchanged and nothing is printed. An invalid register index faults. |
| Control.StepLdiByte | ls8/cpu.py:93-94 | For a non-negative register byte, LDI faults exactly when the byte is 8 or more. |
| Control.StepPrn | ls8/cpu.py:96-100 | PRN prints `reg[ram[PC+1]]` and moves PC by 3, changing nothing else. An invalid index faults. |
| Control.StepOther | ls8/cpu.py:91-100 | Any byte other than HLT/LDI/PRN only moves PC by 1. |
| Control.Execution | ls8/cpu.py:79-100 | The whole loop terminates. It never writes RAM or flags, never lowers PC, and never fails with UnsupportedOperation. It halts only at a HLT byte with `PC + 2 < 256`. PC ends no higher than 257 (unless it started higher). Each printed value accounts for 3 bytes of PC advance. |
| Control.Run | ls8/cpu.py:79-100 | The loop, driven step by step, ends with the same outcome and output as `Execution`. |
| Control.LdiAtEndOverrunsRam | ls8/cpu.py:85-100 | An LDI with a valid register at address 253 moves PC to 257, and the next fetch crashes with OutOfRange having printed nothing. |
| Control.ZeroRamCrashes | ls8/cpu.py:82-100 | On all-zero RAM, PC climbs one cell at a time and the run crashes with OutOfRange at PC 254, printing nothing. |
| Print8.LoadedProgramRun | ls8/cpu.py:24-100 | The loaded print8 program halts at PC 5 with `reg[0] == 8`, all other registers 0 and RAM unchanged, and prints nothing, because PRN is skipped. |

## Left out

- `trace`: it only formats hex to standard output and has no effect on the state.
- `hlt` and the `sys.exit()` in the HLT branch are modelled as the `Halt` outcome, not as a process exit.
- The `print` in PRN is modelled as appending the register value to the output sequence `out`. Decimal formatting is not modelled.
- Python's dynamic typing is not modelled. Cells and indices are integers only, so a non-integer written by `ram_write` (which would raise `TypeError` when used as an index) is outside the model.
- The LS-8 instruction set's MUL, SUB, ADD-as-instruction, flag semantics, interrupts and loading programs from files do not exist in this code.
