/** Fault types, severities and recovery decisions: the vocabulary of the fault path. */
module Fault {
  import opened Base

  datatype FaultType =
    | IllegalSyscall | InvalidCapability | PageFault | IllegalInstruction
    | WatchdogTimeout | DeadlineMiss | IPCViolation | KernelInvariantViolation

  datatype Severity = Info | Error | Critical | Fatal

  datatype Decision = Kill | Restart | Suspend | Quarantine | Escalate

  datatype EventState = Created | Queued | Delivered | Acknowledged

  /** Severity is derived from the type, never chosen. */
  function SeverityOf(t: FaultType): Severity {
    match t
    case WatchdogTimeout => Critical
    case KernelInvariantViolation => Fatal
    case _ => Error
  }

  function DefaultDecision(t: FaultType): Option<Decision> {
    match t
    case IllegalSyscall => Some(Kill)
    case InvalidCapability => Some(Escalate)
    case PageFault => Some(Kill)
    case IllegalInstruction => Some(Kill)
    case WatchdogTimeout => Some(Restart)
    case DeadlineMiss => Some(Escalate)
    case IPCViolation => Some(Kill)
    case KernelInvariantViolation => None
  }
}
