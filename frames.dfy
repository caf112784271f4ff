/** Argument frames for variable-argument calls.

    A frame describes where a call's `size` arguments can be read: either the
    thread's multiple-values buffer (`env->values`, MultipleValuesLimit slots),
    or a slice of the operand stack ending at or below `env->stack_top`. */
module Frames {
  import opened Config
  import opened Objects

  /** Type tag of a frame object (`t_frame`). */
  datatype ObjectTag = TFrame

  /** Where a frame's argument slots start. */
  datatype Base =
    | ValuesBuffer                // env->values
    | OperandStack(offset: nat)   // &env->stack[offset]

  /** What a frame's `stack` field holds. */
  datatype StackMark =
    | StackNull    // 0: the slots are borrowed from the stack, nothing was reserved
    | StackOne     // (void*)0x1: the slots are the values buffer
    | StackOfEnv   // env->stack: the slots were reserved on the stack by opening the frame

  /** `struct ecl_frame` */
  datatype Frame = Frame(t: ObjectTag, stack: StackMark, env: Env, size: nat, base: Base)

  /** The argument list a `cl_va_list` still holds: its count `narg` and the
      values `cl_va_arg` yields in turn. */
  datatype VaList = VaList(narg: nat, args: seq<Object>)

  /** The per-thread execution context: the operand stack with its top index
      and the multiple-values buffer. */
  class Env {
    var values: array<Object>
    var stack: array<Object>
    var stackTop: nat

    ghost predicate Valid()
      reads this
    {
      values.Length == MultipleValuesLimit && stackTop <= stack.Length && values != stack
    }

    constructor (stackSize: nat)
      ensures Valid() && fresh(values) && fresh(stack)
      ensures stack.Length == stackSize && stackTop == 0
    {
      values := new Object[MultipleValuesLimit];
      stack := new Object[stackSize];
      stackTop := 0;
    }

    /** The slots frame `f` lies over lie within this context's storage. */
    ghost predicate InBounds(f: Frame)
      reads this
    {
      match f.base
      case ValuesBuffer => f.size <= values.Length
      case OperandStack(o) => o + f.size <= stack.Length
    }

    /** The arguments frame `f` presents, read from the slots it lies over. */
    ghost function Arguments(f: Frame): seq<Object>
      reads this, values, stack
      requires InBounds(f)
    {
      match f.base
      case ValuesBuffer => values[..f.size]
      case OperandStack(o) => stack[o..o + f.size]
    }

    /** ECL_STACK_FRAME_VARARGS_BEGIN. Below the C argument limit the `narg`
        variadic arguments `args` are copied in order into the values buffer;
        at or above it the caller has already left the arguments on top of the
        operand stack and the frame lies over them. Neither path moves the
        stack top. Only the first `narg` of `args` are read. `nargAfter` is the
        caller's `narg` variable afterwards: the copy loop `while (narg--)` leaves it at -1. */
    method VarargsBegin(narg: nat, args: seq<Object>) returns (f: Frame, nargAfter: int)
      requires Valid()
      requires narg < CArgumentsLimit ==> |args| >= narg
      requires narg >= CArgumentsLimit ==> narg <= stackTop
      modifies values
      ensures Valid() && unchanged(this) && unchanged(stack)
      ensures f.t == TFrame && f.env == this && f.size == narg && InBounds(f)
      ensures narg < CArgumentsLimit ==>
        && f.base == ValuesBuffer && f.stack == StackOne
        && values[..narg] == args[..narg]
        && values[narg..] == old(values[narg..])
        && nargAfter == -1
      ensures narg >= CArgumentsLimit ==>
        && f.base == OperandStack(stackTop - narg) && f.stack == StackNull
        && values[..] == old(values[..])
        && nargAfter == narg
      ensures Arguments(f) == if narg < CArgumentsLimit then args[..narg] else stack[stackTop - narg..stackTop]
    {
      var n: int := narg;
      if narg < CArgumentsLimit {
        SmallFramesFitValues();
        var p := 0;
        while n != 0
          invariant 0 <= n && p + n == narg
          invariant values[..p] == args[..p]
          invariant values[p..] == old(values[p..])
        {
          values[p] := args[p];
          p := p + 1;
          n := n - 1;
        }
        n := n - 1;  // the test that ends `while (narg--)` decrements too
        f := Frame(TFrame, StackOne, this, narg, ValuesBuffer);
      } else {
        f := Frame(TFrame, StackNull, this, narg, OperandStack(stackTop - narg));
      }
      nargAfter := n;
    }

    /** ECL_STACK_FRAME_VARARGS_END: no stack was reserved, so there is nothing
        to release and the context is left as it is. */
    method VarargsEnd(f: Frame)
      requires Valid()
      ensures Valid() && unchanged(this) && unchanged(values) && unchanged(stack)
    {
    }

    /** ecl_stack_frame_open as ECL_STACK_FRAME_FROM_VA_LIST uses it: reserve
        `size` slots on top of the operand stack, growing the stack when they do
        not fit, and return a frame over them. The slots below the old top keep
        their contents; the reserved ones are not initialised. */
    method StackFrameOpen(size: nat) returns (f: Frame)
      requires Valid()
      modifies this
      ensures Valid() && values == old(values)
      ensures f == Frame(TFrame, StackOfEnv, this, size, OperandStack(old(stackTop)))
      ensures InBounds(f)
      ensures stackTop == old(stackTop) + size
      ensures stack[..old(stackTop)] == old(stack[..stackTop])
      ensures stack == old(stack) || fresh(stack)
    {
      if stack.Length - stackTop < size {
        var grown := new Object[stackTop + size];
        var i := 0;
        while i < stackTop
          invariant 0 <= i <= stackTop
          invariant Valid() && stack == old(stack) && stackTop == old(stackTop) && values == old(values)
          invariant grown.Length == stackTop + size && grown != values
          invariant grown[..i] == stack[..i]
        {
          grown[i] := stack[i];
          i := i + 1;
        }
        stack := grown;
      }
      f := Frame(TFrame, StackOfEnv, this, size, OperandStack(stackTop));
      stackTop := stackTop + size;
    }

    /** ECL_STACK_FRAME_FROM_VA_LIST: open a stack frame of `va.narg` slots and
        fill slot i with the i-th argument of `va`, in increasing order. */
    method FrameFromVaList(va: VaList) returns (f: Frame)
      requires Valid()
      requires va.narg <= |va.args|
      modifies this, stack
      ensures Valid() && values == old(values) && unchanged(values)
      ensures f.t == TFrame && f.env == this && f.size == va.narg && f.stack == StackOfEnv
      ensures f.base == OperandStack(old(stackTop)) && InBounds(f)
      ensures stackTop == old(stackTop) + va.narg
      ensures stack[..old(stackTop)] == old(stack[..stackTop])
      ensures Arguments(f) == va.args[..va.narg]
    {
      var nargs := va.narg;
      f := StackFrameOpen(nargs);
      var base := f.base.offset;
      var i := 0;
      while i < nargs
        invariant 0 <= i <= nargs
        invariant Valid() && stackTop == base + nargs && values == old(values)
        invariant stack == old(stack) || fresh(stack)
        invariant stack[..base] == old(stack[..stackTop])
        invariant stack[base..base + i] == va.args[..i]
      {
        stack[base + i] := va.args[i];
        i := i + 1;
      }
    }
  }

  /** A client of the frame protocol. A three-argument call is copied into the
      first three slots of the values buffer and leaves the stack top where it
      was. A 70-argument call whose arguments were first placed on the operand
      stack with FrameFromVaList finds exactly those arguments in its frame. */
  method VarargsScenario()
  {
    var env := new Env(16);
    var small, after := env.VarargsBegin(3, [Ref(1), Ref(2), Ref(3)]);
    assert env.values[..3] == [Ref(1), Ref(2), Ref(3)];
    assert env.stackTop == 0 && after == -1;
    env.VarargsEnd(small);

    var args := seq(70, (i: nat) => Ref(i));
    var pushed := env.FrameFromVaList(VaList(70, args));
    assert env.stackTop == 70;
    var large, after2 := env.VarargsBegin(70, []);
    assert large.base == OperandStack(0) && large.stack == StackNull;
    assert env.Arguments(large) == args && env.stackTop == 70 && after2 == 70;
  }
}
