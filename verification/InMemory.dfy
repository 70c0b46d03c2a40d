/** The in-memory repository's device record: commands and state uplinks update its fields in place, each call in one
    critical section. It is the atomic form that the DynamoDB loops refine. */
module InMemory {
  import opened Common
  import opened Led
  import opened Lamp
  import opened Device
  import R = Reservation
  import P = ReservationProofs
  import I = Ingest

  datatype Answer = Classified(disposition: I.Disposition) | NotReady | ClaimInconsistent

  /** The ledger is kept under the certificate generation and the request id together. */
  datatype Key = Key(generation: string, requestId: string)

  /** What one generation sees of it. */
  ghost function LedgerOf(reservations: map<Key, R.Entry>, generation: string): map<string, R.Entry> {
    map k | k in reservations && k.generation == generation :: k.requestId := reservations[k]
  }

  lemma LedgerReads(reservations: map<Key, R.Entry>, k: Key)
    ensures k.requestId in LedgerOf(reservations, k.generation) <==> k in reservations
    ensures k in reservations ==> LedgerOf(reservations, k.generation)[k.requestId] == reservations[k]
  {
    assert k == Key(k.generation, k.requestId);
  }

  /** A new entry is seen by its own generation and by no other. */
  lemma LedgerGrows(reservations: map<Key, R.Entry>, k: Key, e: R.Entry)
    ensures LedgerOf(reservations[k := e], k.generation) == LedgerOf(reservations, k.generation)[k.requestId := e]
    ensures forall other :: other != k.generation ==> LedgerOf(reservations[k := e], other) == LedgerOf(reservations, other)
  {
  }

  class DeviceRecord {
    const certificate: string
    var lifecycle: Lifecycle
    var observed: LedState
    var applied: Option<string>
    var stream: Option<Position>
    var lastMessage: Option<MessageId>
    var commandSequence: Option<nat>
    var lastCommandId: Option<string>
    var desired: Option<LedState>
    var reservations: map<Key, R.Entry>
    /** The claim this device was bound for is RUNTIME_AUTHORIZED, or already ONLINE. */
    var claimAuthorized: bool
    var claimOnline: bool

    constructor (certificate: string)
      ensures Row() == NewRow(certificate) && reservations == map[] && claimAuthorized && !claimOnline
    {
      this.certificate, lifecycle, observed := certificate, RuntimeAuthorized, OFF;
      applied, stream, lastMessage, commandSequence, lastCommandId, desired := None, None, None, None, None, None;
      reservations, claimAuthorized, claimOnline := map[], true, false;
    }

    function Row(): Device.Row
      reads this
    {
      Device.Row(certificate, lifecycle, observed, applied, stream, lastMessage, commandSequence, lastCommandId, desired)
    }

    /** The ledger answers a request id known to this generation; otherwise the next sequence and the merged state are taken
        at once. What other generations asked for stays as it is. */
    method ReserveCommand(generation: string, requestId: string, commandId: string, patch: Patch) returns (pc: R.Pc)
      modifies this
      ensures var a := P.Atomic(Some(old(Row())), LedgerOf(old(reservations), generation), generation, R.Caller(requestId, commandId, patch, 0, R.Reading));
              pc == a.pc && Some(Row()) == a.row && LedgerOf(reservations, generation) == a.ledger
      ensures forall other :: other != generation ==> LedgerOf(reservations, other) == LedgerOf(old(reservations), other)
      ensures claimAuthorized == old(claimAuthorized) && claimOnline == old(claimOnline)
    {
      var key := Key(generation, requestId);
      LedgerReads(reservations, key);
      hide LedgerOf;
      if key in reservations {
        var current := reservations[key];
        return if current.patch == patch then R.Returned(current) else R.Failed(R.RequestIdReused);
      }
      if certificate != generation || (lifecycle != RuntimeAuthorized && lifecycle != Active) {
        return R.Failed(R.DeviceConflict);
      }
      var sequence := 1 + if commandSequence.Some? then commandSequence.value else 0;
      if sequence > MAX_SEQUENCE {
        return R.Failed(R.SequenceExhausted);
      }
      var base := if desired.Some? then desired.value else observed;
      var next := Merge(base, patch);
      commandSequence, lastCommandId, desired := Some(sequence), Some(commandId), Some(next);
      var entry := R.Entry(requestId, commandId, sequence, patch, next);
      LedgerGrows(reservations, key, entry);
      reservations := reservations[key := entry];
      return R.Returned(entry);
    }

    /** A message that is newer than the stream position is taken whole, and the first one brings the claim online;
        any other changes nothing. */
    method ApplyState(m: StateMessage) returns (d: Answer)
      modifies this
      ensures reservations == old(reservations)
      ensures d == NotReady <==> !Live(old(Row()))
      ensures d == ClaimInconsistent <==> old(lifecycle) == RuntimeAuthorized && I.Classify(m, old(Row())) == I.Applied && !old(claimAuthorized)
      ensures d.Classified? ==> d.disposition == I.Classify(m, old(Row())) && Row() == I.ApplyAtomic(old(Row()), m)
      ensures !d.Classified? ==> Row() == old(Row()) && claimOnline == old(claimOnline) && claimAuthorized == old(claimAuthorized)
      ensures d.Classified? ==> claimOnline == (old(claimOnline) || (old(lifecycle) == RuntimeAuthorized && d.disposition == I.Applied))
    {
      if lifecycle != RuntimeAuthorized && lifecycle != Active {
        return NotReady;
      }
      var disposition := I.Classify(m, Row());
      if disposition != I.Applied {
        return Classified(disposition);
      }
      var first := lifecycle == RuntimeAuthorized;
      if first && !claimAuthorized {
        return ClaimInconsistent;
      }
      observed, lastMessage, stream := m.led, Some(m.messageId), Some(Position(m.bootAt, m.bootId, m.sequence));
      lifecycle := Active;
      if m.applied.Some? {
        applied := m.applied;
      }
      if first {
        claimAuthorized, claimOnline := false, true;
      }
      return Classified(I.Applied);
    }
  }
}
