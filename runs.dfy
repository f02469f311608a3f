/** Properties of whole runs of the main loop. */
module Runs {
  import opened Memory
  import opened ProgramCounter
  import opened Cycle
  import opened Instructions

  /** Running for |a| + |b| cycles is running for |a| cycles and then, unless that halted, for |b|
      more from where it stopped. */
  lemma {:induction false} RunSplits(s: State, a: seq<Stale>, b: seq<Stale>)
    requires RunDefined(s, a + b)
    ensures RunDefined(s, a)
    ensures RunSpec(s, a).outcome == Continue ==> RunDefined(RunSpec(s, a).state, b)
    ensures RunSpec(s, a + b) ==
      if RunSpec(s, a).outcome.Halt? then RunSpec(s, a) else RunSpec(RunSpec(s, a).state, b)
    decreases |a|
  {
    if |a| > 0 {
      assert (a + b)[0] == a[0];
      assert (a + b)[1..] == a[1..] + b;
      var r := StepSpec(s, a[0]);
      if r.outcome == Continue {
        RunSplits(r.state, a[1..], b);
      }
    } else {
      assert a + b == b;
    }
  }

  /** A cycle that starts on a multiple of 4 and goes on ends on a multiple of 4. */
  lemma StepKeepsAlignment(s: State, stale: Stale)
    requires StepDefined(s, stale)
    requires s.pc & 3 == 0
    requires StepSpec(s, stale).outcome == Continue
    ensures StepSpec(s, stale).state.pc & 3 == 0
  {
    var instruction := Fetch(s.pc, s.mem).value;
    var e := Execute(instruction, s.reg, stale).value;
    StepOfExecuted(s, stale, instruction);
    PcUpdateKeepsAlignment(s.pc, e.fields.jsec, e.extended, e.controls.branch, e.controls.jump, e.alu.zero);
  }

  /** A run that starts on a multiple of 4 never stops on a misaligned fetch: jumps, branches and
      PC + 4 all keep the PC a multiple of 4. */
  lemma {:induction false} AlignedRunNeverMisfetches(s: State, stales: seq<Stale>)
    requires RunDefined(s, stales)
    requires s.pc & 3 == 0
    ensures RunSpec(s, stales).outcome != Halt(MisalignedFetch)
    ensures RunSpec(s, stales).state.pc & 3 == 0
    decreases |stales|
  {
    if |stales| > 0 {
      var r := StepSpec(s, stales[0]);
      if r.outcome == Continue {
        StepKeepsAlignment(s, stales[0]);
        AlignedRunNeverMisfetches(r.state, stales[1..]);
      }
    }
  }
}
