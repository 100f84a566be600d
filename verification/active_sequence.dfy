/** internal/engine/active_sequence.go: the live sequence behind its accessors. */
module ActiveSequences {
  import opened Tables
  import opened Machine

  class ActiveSequence {
    const id: SeqId
    const plan: Plan
    var row: SeqRow
    var abortRequested: bool
    var proceedRequested: bool

    /** The machine's view of this sequence, standing at `pc`. */
    ghost function View(pc: Pc): Active
      reads this
    {
      Active(id, row, abortRequested, proceedRequested, pc)
    }

    constructor (id: SeqId, row: SeqRow, plan: Plan)
      ensures forall pc :: View(pc) == Active(id, row, false, false, pc)
      ensures this.plan == plan
    {
      this.id, this.row, this.plan := id, row, plan;
      abortRequested, proceedRequested := false, false;
    }

    method MarkAborted()
      modifies this`row
      ensures row == old(row).(aborted := true)
    {
      row := row.(aborted := true);
    }

    /** Claims the post-shutdown action: only the first caller wins. */
    method MarkPostShutdownRun() returns (won: bool)
      modifies this`row
      ensures won == !old(row).postRun
      ensures row == old(row).(postRun := true)
    {
      if row.postRun {
        return false;
      }
      row := row.(postRun := true);
      return true;
    }

    method RequestProceed()
      modifies this`proceedRequested
      ensures proceedRequested
    {
      proceedRequested := true;
    }

    /** A request releases one stage only. */
    method ConsumeProceed() returns (asked: bool)
      modifies this`proceedRequested
      ensures asked == old(proceedRequested)
      ensures !proceedRequested
    {
      if !proceedRequested {
        return false;
      }
      proceedRequested := false;
      return true;
    }

    method SetCurrentStage(i: nat)
      modifies this`row
      ensures row == old(row).(stage := i)
    {
      row := row.(stage := i);
    }

    method SetState(phase: Phase)
      modifies this`row
      ensures row == old(row).(phase := phase)
    {
      row := row.(phase := phase);
    }

    /** Reports whether this call was the one that crossed. */
    method CrossPonr() returns (crossed: bool)
      modifies this`row
      ensures crossed == !old(row).ponr
      ensures row == old(row).(ponr := true)
    {
      if row.ponr {
        return false;
      }
      row := row.(ponr := true);
      return true;
    }

    /** Refused once the point of no return is crossed. */
    method RequestAbort() returns (accepted: bool)
      modifies this`abortRequested
      ensures accepted == !old(row).ponr
      ensures abortRequested == (old(abortRequested) || accepted)
    {
      if row.ponr {
        return false;
      }
      abortRequested := true;
      return true;
    }
  }
}
