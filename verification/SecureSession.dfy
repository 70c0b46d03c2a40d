/** The secure provisioning session of the Android module. Each handler runs on the main thread as one step; callbacks
    carry what they captured when they were made. */
module SecureSession {
  import opened Common

  /** What the callbacks and the timeout of one promise captured. */
  datatype Closure = Closure(operation: nat, device: Option<nat>, claimId: string)

  /** A Wi-Fi provisioning request that went out, with the session it belongs to. */
  datatype Sent = Sent(generation: nat, device: nat, bound: Option<string>)

  /** The module's fields. `closures`, `resolved`, `rejected`, `sent` and `products` are history: per promise what was captured
      and how often it was settled in either way, and per device object whether its QR was a product's. */
  datatype State = State(
    generation: nat, pending: Option<nat>, claimBind: Option<nat>, wifiScan: Option<nat>, wifiProvision: Option<nat>,
    device: Option<nat>, connectedDeviceId: Option<string>, productRegistration: bool, claimBindingRequired: bool, boundClaimId: Option<string>,
    closures: map<nat, Closure>, resolved: multiset<nat>, rejected: multiset<nat>, sent: set<Sent>, products: map<nat, bool>)

  const FRESH := State(0, None, None, None, None, None, None, false, false, None, map[], multiset{}, multiset{}, {}, map[])

  datatype Event =
    | Connect(promise: nat, allowed: bool, qrFree: bool)
    | QrRead(promise: nat, usable: bool, device: nat, deviceId: string, product: bool)
    | PendingFails(promise: nat)
    | PingReply(promise: nat, device: nat, pong: bool)
    | Disconnect
    | BindClaim(promise: nat, deviceId: string, claimId: string, valid: bool)
    | BindReply(promise: nat, matches: bool)
    | BindFails(promise: nat)
    | ScanWifi(promise: nat)
    | ScanEnds(promise: nat, ok: bool)
    | ProvisionWifi(promise: nat, deviceId: string, valid: bool)
    | ProvisionEnds(promise: nat, ok: bool)

  function Resolve(s: State, p: nat): State { s.(resolved := s.resolved + multiset{p}) }

  function Reject(s: State, p: nat): State { s.(rejected := s.rejected + multiset{p}) }

  /** How often a promise was settled. */
  function Settled(s: State, p: nat): nat { s.resolved[p] + s.rejected[p] }

  function With(rejected: multiset<nat>, p: Option<nat>): multiset<nat> { if p.Some? then rejected + multiset{p.value} else rejected }

  function Capture(s: State, p: nat, claimId: string): State {
    s.(closures := s.closures[p := Closure(s.generation, s.device, claimId)])
  }

  /** A promise that is settled at once captures nothing that could still act. */
  function Handed(s: State, p: nat): State { s.(closures := s.closures[p := Closure(s.generation, None, "")]) }

  function Refuse(s: State, p: nat): State { Reject(Handed(s, p), p) }

  function Confirm(s: State, p: nat): State { Resolve(Handed(s, p), p) }

  function Cleanup(s: State): State {
    s.(rejected := With(With(With(s.rejected, s.claimBind), s.wifiScan), s.wifiProvision),
       generation := s.generation + 1, claimBind := None, wifiScan := None, wifiProvision := None, device := None,
       connectedDeviceId := None, productRegistration := false, claimBindingRequired := false, boundClaimId := None)
  }

  predicate IsPending(s: State, p: nat) { p in s.closures && s.generation == s.closures[p].operation && s.pending == Some(p) }

  /** `isCurrentClaimBind` and its two siblings. */
  predicate IsCurrent(s: State, field: Option<nat>, p: nat) {
    p in s.closures && s.generation == s.closures[p].operation && field == Some(p) && s.device == s.closures[p].device
  }

  function Fail(s: State, p: nat): State {
    if IsPending(s, p) then Reject(Cleanup(s.(pending := None)), p) else s
  }

  function OnConnect(s: State, p: nat, allowed: bool, qrFree: bool): State {
    if s.pending.Some? || s.device.Some? || !allowed then Refuse(s, p)
    else
      var t := s.(generation := s.generation + 1);
      if !qrFree then Refuse(t, p) else Capture(t.(pending := Some(p)), p, "")
  }

  function OnQrRead(s: State, p: nat, usable: bool, d: nat, deviceId: string, product: bool): State {
    if !IsPending(s, p) then s
    else if !usable then Fail(s, p)
    else s.(device := Some(d), connectedDeviceId := Some(deviceId), productRegistration := product, claimBindingRequired := product,
            boundClaimId := None, products := s.products[d := product])
  }

  function OnPingReply(s: State, p: nat, d: nat, pong: bool): State {
    if !IsPending(s, p) || s.device != Some(d) then s
    else if pong then Resolve(s.(pending := None, productRegistration := false), p)
    else Fail(s, p)
  }

  predicate Busy(s: State) { s.claimBind.Some? || s.wifiScan.Some? || s.wifiProvision.Some? }

  predicate InSession(s: State, deviceId: string) {
    s.device.Some? && s.pending.None? && s.connectedDeviceId == Some(deviceId)
  }

  function OnBindClaim(s: State, p: nat, deviceId: string, claimId: string, valid: bool): State {
    if !InSession(s, deviceId) || !s.claimBindingRequired || !valid then Refuse(s, p)
    else if s.boundClaimId.Some? then if s.boundClaimId.value == claimId then Confirm(s, p) else Refuse(s, p)
    else if Busy(s) then Refuse(s, p)
    else Capture(s.(claimBind := Some(p)), p, claimId)
  }

  function OnBindFails(s: State, p: nat): State {
    if IsCurrent(s, s.claimBind, p) then Reject(Cleanup(s.(claimBind := None)), p) else s
  }

  function OnBindReply(s: State, p: nat, matches: bool): State {
    if !IsCurrent(s, s.claimBind, p) then s
    else if !matches then OnBindFails(s, p)
    else Resolve(s.(claimBind := None, boundClaimId := Some(s.closures[p].claimId)), p)
  }

  function OnScanWifi(s: State, p: nat): State {
    if s.device.None? || s.pending.Some? || Busy(s) then Refuse(s, p) else Capture(s.(wifiScan := Some(p)), p, "")
  }

  function OnScanEnds(s: State, p: nat, ok: bool): State {
    if !IsCurrent(s, s.wifiScan, p) then s
    else if ok then Resolve(s.(wifiScan := None), p)
    else Reject(Cleanup(s.(wifiScan := None)), p)
  }

  function OnProvisionWifi(s: State, p: nat, deviceId: string, valid: bool): State {
    if !InSession(s, deviceId) || (s.claimBindingRequired && s.boundClaimId.None?) || Busy(s) || !valid || s.device.None? then Refuse(s, p)
    else Capture(s.(wifiProvision := Some(p), sent := s.sent + {Sent(s.generation, s.device.value, s.boundClaimId)}), p, "")
  }

  function OnProvisionEnds(s: State, p: nat, ok: bool): State {
    if !IsCurrent(s, s.wifiProvision, p) then s
    else if ok then
      Resolve(s.(wifiProvision := None, device := None, connectedDeviceId := None, claimBindingRequired := false, boundClaimId := None,
                generation := s.generation + 1), p)
    else Reject(Cleanup(s.(wifiProvision := None)), p)
  }

  function OnDisconnect(s: State): State {
    if s.pending.Some? then Fail(s, s.pending.value) else Cleanup(s)
  }

  /** Promises and device objects are new ones. */
  predicate Allowed(s: State, e: Event) {
    match e
    case Connect(p, _, _) => p !in s.closures
    case BindClaim(p, _, _, _) => p !in s.closures
    case ScanWifi(p) => p !in s.closures
    case ProvisionWifi(p, _, _) => p !in s.closures
    case QrRead(_, _, d, _, _) => d !in s.products
    case _ => true
  }

  function Next(s: State, e: Event): State {
    if !Allowed(s, e) then s
    else match e
      case Connect(p, allowed, qrFree) => OnConnect(s, p, allowed, qrFree)
      case QrRead(p, usable, d, deviceId, product) => OnQrRead(s, p, usable, d, deviceId, product)
      case PendingFails(p) => Fail(s, p)
      case PingReply(p, d, pong) => OnPingReply(s, p, d, pong)
      case Disconnect => OnDisconnect(s)
      case BindClaim(p, deviceId, claimId, valid) => OnBindClaim(s, p, deviceId, claimId, valid)
      case BindReply(p, matches) => OnBindReply(s, p, matches)
      case BindFails(p) => OnBindFails(s, p)
      case ScanWifi(p) => OnScanWifi(s, p)
      case ScanEnds(p, ok) => OnScanEnds(s, p, ok)
      case ProvisionWifi(p, deviceId, valid) => OnProvisionWifi(s, p, deviceId, valid)
      case ProvisionEnds(p, ok) => OnProvisionEnds(s, p, ok)
  }

  function Run(s: State, events: seq<Event>): State {
    if events == [] then s else Next(Run(s, events[..|events| - 1]), events[|events| - 1])
  }

  predicate Outstanding(s: State, p: nat) {
    s.pending == Some(p) || s.claimBind == Some(p) || s.wifiScan == Some(p) || s.wifiProvision == Some(p)
  }

  function Count(field: Option<nat>): nat { if field.Some? then 1 else 0 }

  /** Every promise ever handed in is either outstanding and unsettled, or settled once. */
  predicate PromiseOk(s: State, p: nat) {
    if p !in s.closures then Settled(s, p) == 0 && !Outstanding(s, p)
    else Settled(s, p) == if Outstanding(s, p) then 0 else 1
  }

  /** What is outstanding was made for the current session. */
  predicate FieldOk(s: State, field: Option<nat>) {
    field.Some? ==> field.value in s.closures && s.closures[field.value].operation == s.generation && s.device.Some? && s.closures[field.value].device == s.device
  }

  predicate SentOk(s: State, x: Sent) {
    x.device in s.products && (s.products[x.device] ==> x.bound.Some?)
  }

  ghost predicate Inv(s: State) {
    && Count(s.pending) + Count(s.claimBind) + Count(s.wifiScan) + Count(s.wifiProvision) <= 1
    && (forall p :: PromiseOk(s, p))
    && (s.pending.Some? ==> s.pending.value in s.closures && s.closures[s.pending.value].operation == s.generation)
    && FieldOk(s, s.claimBind) && FieldOk(s, s.wifiScan) && FieldOk(s, s.wifiProvision)
    && (s.device.Some? ==> s.device.value in s.products && s.claimBindingRequired == s.products[s.device.value])
    && (s.boundClaimId.Some? ==> s.device.Some?)
    && (forall x :: x in s.sent ==> SentOk(s, x))
  }

  /** A cleanup settles what is outstanding and ends the session. */
  lemma CleanupKeepsInv(s: State)
    requires Inv(s) && s.pending.None?
    ensures Inv(Cleanup(s))
  {
    forall q ensures PromiseOk(Cleanup(s), q) { assert PromiseOk(s, q); }
  }

  lemma RefuseKeepsInv(s: State, p: nat)
    requires Inv(s) && p !in s.closures
    ensures Inv(Refuse(s, p))
  {
    assert PromiseOk(s, p);
    forall q ensures PromiseOk(Refuse(s, p), q) { assert PromiseOk(s, q); }
  }

  lemma ConfirmKeepsInv(s: State, p: nat)
    requires Inv(s) && p !in s.closures
    ensures Inv(Confirm(s, p))
  {
    assert PromiseOk(s, p);
    forall q ensures PromiseOk(Confirm(s, p), q) { assert PromiseOk(s, q); }
  }

  lemma FailKeepsInv(s: State, p: nat)
    requires Inv(s)
    ensures Inv(Fail(s, p))
  {
    forall q ensures PromiseOk(Fail(s, p), q) { assert PromiseOk(s, q); }
  }

  lemma ConnectKeepsInv(s: State, p: nat, allowed: bool, qrFree: bool)
    requires Inv(s) && p !in s.closures
    ensures Inv(OnConnect(s, p, allowed, qrFree))
  {
    forall q ensures PromiseOk(OnConnect(s, p, allowed, qrFree), q) { assert PromiseOk(s, q); }
  }

  lemma QrReadKeepsInv(s: State, p: nat, usable: bool, d: nat, deviceId: string, product: bool)
    requires Inv(s) && d !in s.products
    ensures Inv(OnQrRead(s, p, usable, d, deviceId, product))
  {
    forall q ensures PromiseOk(OnQrRead(s, p, usable, d, deviceId, product), q) { assert PromiseOk(s, q); }
  }

  lemma PingKeepsInv(s: State, p: nat, d: nat, pong: bool)
    requires Inv(s)
    ensures Inv(OnPingReply(s, p, d, pong))
  {
    forall q ensures PromiseOk(OnPingReply(s, p, d, pong), q) { assert PromiseOk(s, q); }
  }

  lemma BindClaimKeepsInv(s: State, p: nat, deviceId: string, claimId: string, valid: bool)
    requires Inv(s) && p !in s.closures
    ensures Inv(OnBindClaim(s, p, deviceId, claimId, valid))
  {
    RefuseKeepsInv(s, p);
    ConfirmKeepsInv(s, p);
    if OnBindClaim(s, p, deviceId, claimId, valid) != Refuse(s, p) && OnBindClaim(s, p, deviceId, claimId, valid) != Confirm(s, p) {
      assert PromiseOk(s, p);
      forall q ensures PromiseOk(OnBindClaim(s, p, deviceId, claimId, valid), q) { assert PromiseOk(s, q); }
    }
  }

  lemma BindReplyKeepsInv(s: State, p: nat, matches: bool)
    requires Inv(s)
    ensures Inv(OnBindReply(s, p, matches))
  {
    forall q ensures PromiseOk(OnBindReply(s, p, matches), q) { assert PromiseOk(s, q); }
  }

  lemma BindFailsKeepsInv(s: State, p: nat)
    requires Inv(s)
    ensures Inv(OnBindFails(s, p))
  {
    forall q ensures PromiseOk(OnBindFails(s, p), q) { assert PromiseOk(s, q); }
  }

  lemma ScanKeepsInv(s: State, p: nat)
    requires Inv(s) && p !in s.closures
    ensures Inv(OnScanWifi(s, p))
  {
    RefuseKeepsInv(s, p);
    if OnScanWifi(s, p) != Refuse(s, p) {
      assert PromiseOk(s, p);
      forall q ensures PromiseOk(OnScanWifi(s, p), q) { assert PromiseOk(s, q); }
    }
  }

  lemma ScanEndsKeepsInv(s: State, p: nat, ok: bool)
    requires Inv(s)
    ensures Inv(OnScanEnds(s, p, ok))
  {
    forall q ensures PromiseOk(OnScanEnds(s, p, ok), q) { assert PromiseOk(s, q); }
  }

  lemma ProvisionKeepsInv(s: State, p: nat, deviceId: string, valid: bool)
    requires Inv(s) && p !in s.closures
    ensures Inv(OnProvisionWifi(s, p, deviceId, valid))
  {
    RefuseKeepsInv(s, p);
    if OnProvisionWifi(s, p, deviceId, valid) != Refuse(s, p) {
      assert PromiseOk(s, p);
      forall q ensures PromiseOk(OnProvisionWifi(s, p, deviceId, valid), q) { assert PromiseOk(s, q); }
    }
  }

  lemma ProvisionEndsKeepsInv(s: State, p: nat, ok: bool)
    requires Inv(s)
    ensures Inv(OnProvisionEnds(s, p, ok))
  {
    forall q ensures PromiseOk(OnProvisionEnds(s, p, ok), q) { assert PromiseOk(s, q); }
  }

  lemma NextKeepsInv(s: State, e: Event)
    requires Inv(s)
    ensures Inv(Next(s, e))
  {
    if Allowed(s, e) {
      hide Inv, OnConnect, OnQrRead, OnPingReply, OnBindClaim, OnBindReply, OnBindFails, OnScanWifi, OnScanEnds, OnProvisionWifi, OnProvisionEnds, Fail;
      match e
      case Connect(p, allowed, qrFree) => ConnectKeepsInv(s, p, allowed, qrFree);
      case QrRead(p, usable, d, deviceId, product) => QrReadKeepsInv(s, p, usable, d, deviceId, product);
      case PendingFails(p) => FailKeepsInv(s, p);
      case PingReply(p, d, pong) => PingKeepsInv(s, p, d, pong);
      case Disconnect => if s.pending.Some? { FailKeepsInv(s, s.pending.value); } else { CleanupKeepsInv(s); }
      case BindClaim(p, deviceId, claimId, valid) => BindClaimKeepsInv(s, p, deviceId, claimId, valid);
      case BindReply(p, matches) => BindReplyKeepsInv(s, p, matches);
      case BindFails(p) => BindFailsKeepsInv(s, p);
      case ScanWifi(p) => ScanKeepsInv(s, p);
      case ScanEnds(p, ok) => ScanEndsKeepsInv(s, p, ok);
      case ProvisionWifi(p, deviceId, valid) => ProvisionKeepsInv(s, p, deviceId, valid);
      case ProvisionEnds(p, ok) => ProvisionEndsKeepsInv(s, p, ok);
    }
  }

  lemma {:induction false} RunKeepsInv(events: seq<Event>)
    ensures Inv(Run(FRESH, events))
  {
    if events != [] {
      RunKeepsInv(events[..|events| - 1]);
      NextKeepsInv(Run(FRESH, events[..|events| - 1]), events[|events| - 1]);
    }
  }

  ghost predicate Reachable(s: State) { exists events :: s == Run(FRESH, events) }

  lemma ReachableIsGood(s: State)
    requires Reachable(s)
    ensures Inv(s)
  {
    var events :| s == Run(FRESH, events);
    RunKeepsInv(events);
  }

  /** At most one of the four operations is outstanding, and every promise handed in is either outstanding and unsettled, or
      was settled exactly once. */
  lemma OneAtATime(s: State, p: nat, q: nat)
    requires Reachable(s)
    ensures Outstanding(s, p) && Outstanding(s, q) ==> p == q
    ensures p in s.closures ==> Settled(s, p) == if Outstanding(s, p) then 0 else 1
    ensures p !in s.closures ==> Settled(s, p) == 0
  {
    ReachableIsGood(s);
    assert PromiseOk(s, p);
  }

  /** The event is a callback or a timeout of promise `p`. */
  predicate IsCallbackOf(e: Event, p: nat) {
    || (e.QrRead? && e.promise == p) || (e.PendingFails? && e.promise == p) || (e.PingReply? && e.promise == p)
    || (e.BindReply? && e.promise == p) || (e.BindFails? && e.promise == p)
    || (e.ScanEnds? && e.promise == p) || (e.ProvisionEnds? && e.promise == p)
  }

  /** A callback acts only while its own promise is outstanding; so none of an earlier generation, and none that comes a
      second time, changes anything. */
  lemma StaleCallbacksAreInert(s: State, e: Event, p: nat)
    requires IsCallbackOf(e, p)
    requires !Outstanding(s, p) || (p in s.closures && s.closures[p].operation != s.generation)
    ensures Next(s, e) == s
  {
  }

  function TimeoutOf(s: State, p: nat): Event {
    if s.pending == Some(p) then PendingFails(p) else if s.claimBind == Some(p) then BindFails(p)
    else if s.wifiScan == Some(p) then ScanEnds(p, false) else ProvisionEnds(p, false)
  }

  /** The timeout of an outstanding promise rejects it, and ends the session with nothing outstanding. */
  lemma TimeoutSettles(s: State, p: nat)
    requires Reachable(s) && Outstanding(s, p)
    ensures var t := Next(s, TimeoutOf(s, p));
            t.rejected[p] == 1 && t.resolved[p] == 0 && t.device.None? && t.boundClaimId.None? && t.generation == s.generation + 1 && forall q :: !Outstanding(t, q)
  {
    ReachableIsGood(s);
    NextKeepsInv(s, TimeoutOf(s, p));
    TimeoutEndsSession(s, p);
    var t := Next(s, TimeoutOf(s, p));
    assert PromiseOk(s, p) && PromiseOk(t, p);
    hide Inv, Run, Next;
  }

  lemma TimeoutEndsSession(s: State, p: nat)
    requires Inv(s) && Outstanding(s, p)
    ensures var t := Next(s, TimeoutOf(s, p));
            && t.pending.None? && t.claimBind.None? && t.wifiScan.None? && t.wifiProvision.None? && t.device.None?
            && t.generation == s.generation + 1 && p in t.closures && t.resolved == s.resolved && t.boundClaimId.None?
  {
    EndsSession(s.(pending := None), p);
    EndsSession(s.(claimBind := None), p);
    EndsSession(s.(wifiScan := None), p);
    EndsSession(s.(wifiProvision := None), p);
    hide PromiseOk, SentOk, Cleanup, Reject;
  }

  lemma EndsSession(u: State, p: nat)
    ensures var t := Reject(Cleanup(u), p);
            && t.claimBind.None? && t.wifiScan.None? && t.wifiProvision.None? && t.device.None? && t.pending == u.pending
            && t.generation == u.generation + 1 && t.closures == u.closures && t.resolved == u.resolved && t.boundClaimId.None?
  {
  }
}
