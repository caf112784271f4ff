# Argument frames, character classes and limits of the ECL runtime

This project models part of the runtime core of ECL (Embeddable Common Lisp),
as configured for the iPhone simulator. It covers four pieces:

- **Variable-argument frames** (`Frames`). `ECL_STACK_FRAME_VARARGS_BEGIN` builds the
  frame through which a variadic function reads its arguments. Below
  `C_ARGUMENTS_LIMIT` the arguments are copied in call order into the thread's
  multiple-values buffer. At or above the limit nothing is copied: the frame lies
  over the top `narg` slots of the operand stack, where the caller left them.
  Neither path moves the stack top, and `ECL_STACK_FRAME_VARARGS_END` does nothing.
  `ECL_STACK_FRAME_FROM_VA_LIST` opens a frame on the stack and fills it from a
  `cl_va_list` in order. The execution context is a class `Env` with the `values`
  and `stack` arrays and the `stackTop` index. A frame is a record holding its
  type tag, stack mark, context, size and base.
- **Unicode classes** (`Unicode`): the noncharacter, private-use and surrogate
  predicates on character codes.
- **Lock macros** (`Locks`): hash-table locking, which does nothing for a table whose
  lock is nil, and the package and error-handler locks, which are the global lock.
- **Configuration** (`Config`): the feature switches and numeric limits of
  `config.h`, with lemmas for the relations between them that the code relies on.

The active variant of each macro is the one this configuration compiles:
- The switch that makes the frame macros read a `va_list` in place as an array is not defined, so the copying frame variant is the one modelled.
- `ECL_THREADS` is defined, so the lock macros are the threaded ones.
- `GBC_BOEHM` is defined, so the array limits are the large ones.
- `ECL_UNICODE` is not defined. In this build characters are 8 bits wide and the Unicode
  predicates are not compiled. They are modelled anyway, for the Unicode build, and
  `NarrowCodesUnclassified` states how they relate to the 8-bit codes.

Three facts about the frame code shape the model:
- Large varargs frames use the caller's top stack slots and reserve no new ones.
- `ECL_STACK_FRAME_VARARGS_END` releases nothing.
- `ECL_STACK_FRAME_VARARGS_BEGIN` does not check `narg` against `CALL_ARGUMENTS_LIMIT`.

## Model

| member | source | states |
|---|---|---|
| `Frames.Env.VarargsBegin` | iphone/simulator/include/ecl/internal.h:142-162 | frame tag is `t_frame`, env is the context, size is the original `narg`; below `C_ARGUMENTS_LIMIT` the base is the values buffer, slots 0..narg-1 hold the first `narg` variadic arguments in call order, later slots are untouched, the stack mark is 0x1 and the caller's `narg` ends at -1; otherwise nothing is written, the base is `stack_top - narg`, the mark is 0 and the frame's arguments are exactly the top `narg` stack slots; the stack top never moves |
| `Frames.Env.VarargsEnd` | iphone/simulator/include/ecl/internal.h:163-164 | ending a varargs frame changes neither the context nor its buffers |
| `Frames.Env.StackFrameOpen` | iphone/simulator/include/ecl/internal.h:116 | opening a frame of `size` slots puts its base at the old stack top, raises the top by `size`, keeps every slot below the old top, and grows the stack when needed |
| `Frames.Env.FrameFromVaList` | iphone/simulator/include/ecl/internal.h:113-120 | the frame has size `va.narg`, lies at the old stack top, and slot i holds the i-th argument of the list for every i < narg; the values buffer is untouched |
| `Config.FunctionLimitsFitInt` | iphone/simulator/include/ecl/config.h:183-199 | every function limit fits in a signed 32-bit `int` |
| `Config.SmallFramesFitValues` | iphone/simulator/include/ecl/config.h:194-199 | `C_ARGUMENTS_LIMIT` ≤ `ECL_MULTIPLE_VALUES_LIMIT`, so a small frame fits in the values buffer |
| `Config.LambdaParametersMatchCalls` | iphone/simulator/include/ecl/config.h:188-196 | `LAMBDA_PARAMETERS_LIMIT` = `CALL_ARGUMENTS_LIMIT`, and `C_ARGUMENTS_LIMIT` < `CALL_ARGUMENTS_LIMIT` |
| `Config.SlotsWithinCallLimit` | iphone/simulator/include/ecl/config.h:205-211 | `ECL_SLOTS_LIMIT` ≤ `CALL_ARGUMENTS_LIMIT`, as constructors require |
| `Config.FixnumRange` | iphone/simulator/include/ecl/config.h:152-158 | `MOST_NEGATIVE_FIXNUM` = −(`MOST_POSITIVE_FIXNUM` + 1) with `MOST_POSITIVE_FIXNUM` = 2^29 − 1, and both fit in the 32-bit `cl_fixnum` |
| `Config.ArrayLimitsAreFixnums` | iphone/simulator/include/ecl/config.h:171-181 | with the Boehm collector `ADIMLIM` and `ATOTLIM` both equal `MOST_POSITIVE_FIXNUM` |
| `Config.CharCodeLimit` | iphone/simulator/include/ecl/config.h:165-169 | `CHAR_CODE_LIMIT` in either build: every character code is a fixnum, and every 8-bit code is a character |
| `Config.ArrayDimensionLimit` | iphone/simulator/include/ecl/config.h:175-181 | `ADIMLIM` in either build: positive, and every array index is a fixnum |
| `Config.ArrayTotalLimit` | iphone/simulator/include/ecl/config.h:175-181 | `ATOTLIM` in either build: no smaller than `ADIMLIM`, and still a fixnum |
| `Config.CharCodeLimits` | iphone/simulator/include/ecl/config.h:162-169 | with Unicode `CHAR_CODE_LIMIT` is one past U+10FFFF; without it, 2^8; this build has 256 |
| `Unicode.Low16` | iphone/simulator/include/ecl/internal.h:84-86 | `c & 0xFFFF` lies in 0..0xFFFF and differs from `c` by a multiple of 0x10000 |
| `Unicode.NonCharacter` | iphone/simulator/include/ecl/internal.h:84-86 | `ECL_UCS_NONCHARACTER`: every noncharacter lies at or above offset 0xFDD0 within its plane |
| `Unicode.PrivateUseAsWritten` | iphone/simulator/include/ecl/internal.h:87-90 | `ECL_UCS_PRIVATE` as written: everything it accepts is private use |
| `Unicode.PrivateUse` | iphone/simulator/include/ecl/internal.h:87-90 | `ECL_UCS_PRIVATE` as intended: every private-use code lies in E000..10FFFD and is never one of the last two code points of a plane |
| `Unicode.HighSurrogate` | iphone/simulator/include/ecl/internal.h:91 | `ECL_UCS_HIGH_SURROGATE`: a high surrogate is not a low surrogate, a noncharacter or private use |
| `Unicode.LowSurrogate` | iphone/simulator/include/ecl/internal.h:92 | `ECL_UCS_LOW_SURROGATE`: a low surrogate is not a noncharacter or private use |
| `Unicode.NonCharacterByPlane` | iphone/simulator/include/ecl/internal.h:84-86 | within the Unicode code space, the noncharacters are U+FDD0..U+FDEF and the last two code points of each of the 17 planes |
| `Unicode.PrivateUseAsWrittenSkipsPlane15` | iphone/simulator/include/ecl/internal.h:87-90 | the private-use predicate as written accepts exactly E000..F8FF and 100000..10FFFD, and rejects every plane-15 private-use code |
| `Unicode.PrivateUseCorrected` | iphone/simulator/include/ecl/internal.h:87-90 | the corrected predicate accepts what the source accepts plus exactly U+F0000..U+FFFFD, none of which the source accepts |
| `Unicode.PrivateUseIsAssignable` | iphone/simulator/include/ecl/internal.h:87-90 | every private-use code (E000..F8FF, F0000..FFFFD, 100000..10FFFD) is below the Unicode `CHAR_CODE_LIMIT` and is neither a noncharacter nor a surrogate |
| `Unicode.SurrogatesPartition` | iphone/simulator/include/ecl/internal.h:91-92 | the high (D800..DBFF) and low (DC00..DFFF) surrogate ranges are disjoint, together cover D800..DFFF, and contain no noncharacter |
| `Unicode.NarrowCodesUnclassified` | iphone/simulator/include/ecl/config.h:165-169 | no code below this build's `CHAR_CODE_LIMIT` of 256 falls in any of the four classes |
| `Locks.HashTableLock` | iphone/simulator/include/ecl/internal.h:267-270 | locking a table waits for its lock exactly when the lock is not nil, and does nothing otherwise |
| `Locks.HashTableUnlock` | iphone/simulator/include/ecl/internal.h:271-274 | unlocking a table gives up its lock exactly when the lock is not nil, and does nothing otherwise |
| `Locks.ThreadOpLock` | iphone/simulator/include/ecl/internal.h:275 | `THREAD_OP_LOCK` adds the global lock to the held set and changes nothing else |
| `Locks.ThreadOpUnlock` | iphone/simulator/include/ecl/internal.h:276 | `THREAD_OP_UNLOCK` removes the global lock from the held set and changes nothing else |
| `Locks.PackageOpLock` | iphone/simulator/include/ecl/internal.h:277 | `PACKAGE_OP_LOCK` adds the global lock to the held set and changes nothing else |
| `Locks.PackageOpUnlock` | iphone/simulator/include/ecl/internal.h:278 | `PACKAGE_OP_UNLOCK` removes the global lock from the held set and changes nothing else |
| `Locks.ErrorHandlerLock` | iphone/simulator/include/ecl/internal.h:279 | `ERROR_HANDLER_LOCK` adds the global lock to the held set and changes nothing else |
| `Locks.ErrorHandlerUnlock` | iphone/simulator/include/ecl/internal.h:280 | `ERROR_HANDLER_UNLOCK` removes the global lock from the held set and changes nothing else |
| `Locks.HashTableBracket` | iphone/simulator/include/ecl/internal.h:267-274 | lock then unlock of a table restores the set of held locks (for a shared table, when its lock was not already held); a locked shared table adds its own lock to the held set, an unshared one adds nothing |
| `Locks.HashTableLockIsLocal` | iphone/simulator/include/ecl/internal.h:267-274 | the table lock macros acquire or release no lock but the table's own |
| `Locks.PackageAndErrorHandlerUseGlobalLock` | iphone/simulator/include/ecl/internal.h:275-280 | package and error-handler lock and unlock are the global lock's wait and give-up |

## Left out

- Foreign-call engine (`struct ecl_fficall` and the `ecl_fficall_*` and callback prototypes): only declarations are present, and the behaviour is native calling-convention plumbing.
- Boot, allocator and compiler-environment declarations, file-stream accessors and open modes, the print and read-table constants, and the time macro: declarations or I/O with no logic.
- Floating-point environment, π constants, math shims and `edit_double`: floating-point numerics.
- What `mp_get_lock_wait` and `mp_giveup_lock` do beyond the held-lock bookkeeping: blocking, fairness, threads and interrupt delivery are concurrency. These macros enforce no order between the global lock and table locks.
- The non-threaded lock macros, which expand to nothing: this configuration defines `ECL_THREADS`.
- The frame macros that read a `va_list` in place as an array (internal.h lines 102-111 and 123-140): they are inactive in this configuration and depend on the platform's `va_list` layout.
- `ecl_stack_frame_open` is not part of this model's source. `Frames.Env.StackFrameOpen` gives it the behaviour that `ECL_STACK_FRAME_FROM_VA_LIST` relies on. It reserves the slots on top of the stack and grows the stack when they do not fit. Any maximum stack size or overflow error of the real function is not modelled. `ecl_stack_frame_close` is not modelled.
- `cl_va_arg` is not part of this model's source. A `cl_va_list` is modelled as its count and the sequence of values it yields.
- `Frames.Env.VarargsBegin`: the large path requires `narg` ≤ `stackTop`. The calling convention puts the arguments of a large call on the stack before the call, and the macro itself does not check this.
- The build-configuration parts of `config.h` (DLL export, GC, network, mprotect and platform detection) and the integer typedefs: build configuration.
- `gmp-mparam.h` and `popham.c`: bignum tuning thresholds and a file that only re-includes another; bignums are an external library.

## Findings

| source | as written | input that shows it | evidently intended | confidence | as-written member | corrected member |
|---|---|---|---|---|---|---|
| iphone/simulator/include/ecl/internal.h:89 | `ECL_UCS_PRIVATE` tests `(c) >= 0xF0000 && (c) <= 0xFFFD`, a range that is empty | U+F0000, the first code point of Supplementary Private Use Area-A, is not classed as private use | `(c) <= 0xFFFFD`, covering U+F0000..U+FFFFD | high; not executed | `Unicode.PrivateUseAsWrittenSkipsPlane15` | `Unicode.PrivateUseCorrected` |
