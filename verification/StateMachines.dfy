/** The three transition tables, and the measures that bound how often a row can move. */
module StateMachines {

  /** Client.stage. A stage arrives as free text; the table's CHECK constraint knows six of them. */
  datatype Stage =
    | LeadStage | DiscoveryScheduled | DiscoveryDone | ProposalSent | Active | Lost
    | UnknownStage(text: string)

  function StageTargets(s: Stage): set<Stage> {
    match s
    case LeadStage => {DiscoveryScheduled, Lost}
    case DiscoveryScheduled => {DiscoveryDone, Lost}
    case DiscoveryDone => {ProposalSent, Lost}
    case ProposalSent => {Active, Lost}
    case Active => {Lost}
    case Lost => {}
    case UnknownStage(_) => {}
  }

  /** assert_can_transition passes: force opens the way out of lost, to anything. */
  predicate CanMoveStage(from: Stage, to: Stage, force: bool) {
    (force && from.Lost?) || to in StageTargets(from)
  }

  /** ck_client_stage */
  predicate KnownStage(s: Stage) { !s.UnknownStage? }

  /** How many stage changes a client at this stage can still make. */
  function StageRank(s: Stage): nat {
    match s
    case LeadStage => 5
    case DiscoveryScheduled => 4
    case DiscoveryDone => 3
    case ProposalSent => 2
    case Active => 1
    case _ => 0
  }

  /** Service.state, also free text until the CHECK constraint. */
  datatype ServiceState =
    | Scoping | Running | Review | Completed | Maintenance | Paused
    | UnknownState(text: string)

  function StateTargets(s: ServiceState): set<ServiceState> {
    match s
    case Scoping => {Running, Paused}
    case Running => {Review, Paused}
    case Review => {Completed, Paused}
    case Completed => {Maintenance}
    case Maintenance => {}
    case Paused => {Scoping, Running, Review}
    case UnknownState(_) => {}
  }

  /** Lead.status, a closed set already in the request schema. */
  datatype LeadStatus = New | Contacted | Qualified | Disqualified | Converted

  function StatusTargets(s: LeadStatus): set<LeadStatus> {
    match s
    case New => {Contacted, Disqualified}
    case Contacted => {Qualified, Disqualified}
    case Qualified => {LeadStatus.Converted, Disqualified}
    case Disqualified => {}
    case Converted => {}
  }

  function StatusRank(s: LeadStatus): nat {
    match s
    case New => 3
    case Contacted => 2
    case Qualified => 1
    case _ => 0
  }

  /** Every unforced stage change spends rank, so a client makes at most five. */
  lemma StageMoveDescends(from: Stage, to: Stage)
    requires to in StageTargets(from)
    ensures StageRank(to) < StageRank(from) <= 5 && KnownStage(to)
  {
  }

  lemma StatusMoveDescends(from: LeadStatus, to: LeadStatus)
    requires to in StatusTargets(from)
    ensures StatusRank(to) < StatusRank(from) <= 3
  {
  }
}
