/**
 * LabelInfo: what the IL builder knows about a label: the block it marks (once
 * marked), the stack depth every jump to it must agree on, and whether a
 * conditional branch targets it.
 */
module LabelInfo {
  import opened Wrappers

  /** A basic block, known by its identity. */
  type BasicBlock = nat

  datatype LabelInfo = LabelInfo(bb: Option<BasicBlock>, stack: int, targetOfConditionalBranches: bool)
  {
    /** The same label, now marked at `newBlock`. */
    function WithNewTarget(newBlock: Option<BasicBlock>): (r: LabelInfo)
      ensures r.bb == newBlock
      ensures r.stack == stack && r.targetOfConditionalBranches == targetOfConditionalBranches
    {
      LabelInfo(newBlock, stack, targetOfConditionalBranches)
    }

    /** The same label, now known to be the target of a conditional branch. */
    function SetTargetOfConditionalBranches(): (r: LabelInfo)
      ensures r.targetOfConditionalBranches
      ensures r.bb == bb && r.stack == stack
    {
      LabelInfo(bb, stack, true)
    }
  }

  /** A label seen in a branch before it is marked: no block yet. */
  function Unmarked(stack: int, targetOfConditionalBranches: bool): (r: LabelInfo)
    ensures r.bb.None? && r.stack == stack && r.targetOfConditionalBranches == targetOfConditionalBranches
  {
    LabelInfo(None, stack, targetOfConditionalBranches)
  }

  /** A label marked in the code. */
  function Marked(bb: BasicBlock, stack: int, targetOfConditionalBranches: bool): (r: LabelInfo)
    ensures r.bb == Some(bb) && r.stack == stack && r.targetOfConditionalBranches == targetOfConditionalBranches
  {
    LabelInfo(Some(bb), stack, targetOfConditionalBranches)
  }

  /** Marking a conditional target twice is marking it once; it is independent of retargeting; marking an unmarked label gives the marked one. */
  lemma {:induction false} LabelUpdateLaws(l: LabelInfo, b: BasicBlock)
    ensures l.SetTargetOfConditionalBranches().SetTargetOfConditionalBranches() == l.SetTargetOfConditionalBranches()
    ensures l.WithNewTarget(Some(b)).SetTargetOfConditionalBranches() == l.SetTargetOfConditionalBranches().WithNewTarget(Some(b))
    ensures Unmarked(l.stack, l.targetOfConditionalBranches).WithNewTarget(Some(b)) == Marked(b, l.stack, l.targetOfConditionalBranches)
    ensures l.targetOfConditionalBranches ==> l.SetTargetOfConditionalBranches() == l
  {
  }
}
