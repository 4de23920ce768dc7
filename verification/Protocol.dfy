/** Vocabulary shared by the control workflow and the guest supervisor: launch modes and the
    terminal report of one guest turn. */
module Protocol {

  datatype Option<+T> = None | Some(value: T)

  // internal/supervisor modes: how a guest was launched.
  datatype Mode = Initial | Resume | Plan | Execute

  // The four terminal guest events; a lost guest is reported as AgentFailed.
  datatype Outcome = PROpened | PushDone | NeedsInput | AgentFailed

  // Spend of one turn. Costs are reals; rounding is not modelled.
  type Usd = r: real | r >= 0.0 witness 0.0

  datatype PhaseResult = PhaseResult(outcome: Outcome, prNumber: int, cost: Usd)

  const FAILED: PhaseResult := PhaseResult(AgentFailed, 0, 0.0)

  // An initial or execute guest opens the PR on its first changing turn; a resume guest never does.
  predicate ShouldOpenPR(mode: Mode, prOpened: bool) {
    (mode == Initial || mode == Execute) && !prOpened
  }
}
