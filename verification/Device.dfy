/** The Device row of one thing, as far as commands and state uplinks read and write it. */
module Device {
  import opened Common
  import opened Led
  import opened Lamp

  datatype Lifecycle = Bootstrapped | RuntimeAuthorized | Active | Revoked

  /** Where the state stream stands: boot time, boot id, and sequence within the boot. */
  datatype Position = Position(bootAt: int, bootId: string, sequence: nat)

  datatype Row = Row(certificate: string, lifecycle: Lifecycle,
                     observed: LedState, applied: Option<string>,
                     stream: Option<Position>, lastMessage: Option<MessageId>,
                     commandSequence: Option<nat>, lastCommandId: Option<string>, desired: Option<LedState>)

  /** The two lifecycles that accept commands and uplinks. */
  predicate Live(r: Row) { r.lifecycle == RuntimeAuthorized || r.lifecycle == Active }

  /** The row that a bootstrap transaction puts, once the runtime is authorized. */
  function NewRow(certificate: string): Row {
    Row(certificate, RuntimeAuthorized, OFF, None, None, None, None, None, None)
  }
}
