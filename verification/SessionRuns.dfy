/** What the provisioning session does, told by the calls and callbacks of a run: which promise is taken on and which one
    succeeds, and which acknowledgement stands behind a bound claim and behind the credentials that go out. */
module SessionRuns {
  import opened Common
  import opened SecureSession

  function Prefix(events: seq<Event>, i: nat): State
    requires i <= |events|
  {
    Run(FRESH, events[..i])
  }

  lemma PrefixStays(events: seq<Event>, e: Event)
    ensures forall i: nat :: i <= |events| ==> Prefix(events + [e], i) == Prefix(events, i)
    ensures Run(FRESH, events + [e]) == Next(Run(FRESH, events), e)
  {
    forall i: nat | i <= |events| ensures Prefix(events + [e], i) == Prefix(events, i) { assert (events + [e])[..i] == events[..i]; }
    assert (events + [e])[..|events + [e]| - 1] == events;
  }

  predicate IsCall(e: Event) { e.Connect? || e.BindClaim? || e.ScanWifi? || e.ProvisionWifi? }

  predicate IsWifiAnswer(e: Event) { e.ScanEnds? || e.ProvisionEnds? || e.BindReply? || e.BindFails? }

  /** A promise that is handed in now becomes outstanding. */
  predicate Starts(s: State, e: Event, p: nat) {
    match e
    case Connect(q, allowed, qrFree) => q == p && s.pending.None? && s.device.None? && allowed && qrFree
    case BindClaim(q, deviceId, _, valid) =>
      && q == p && s.device.Some? && s.pending.None? && s.connectedDeviceId == Some(deviceId) && s.claimBindingRequired && valid
      && s.boundClaimId.None? && s.claimBind.None? && s.wifiScan.None? && s.wifiProvision.None?
    case ScanWifi(q) =>
      q == p && s.device.Some? && s.pending.None? && s.claimBind.None? && s.wifiScan.None? && s.wifiProvision.None?
    case ProvisionWifi(q, deviceId, valid) =>
      && q == p && s.device.Some? && s.pending.None? && s.connectedDeviceId == Some(deviceId) && valid
      && (s.claimBindingRequired ==> s.boundClaimId.Some?)
      && s.claimBind.None? && s.wifiScan.None? && s.wifiProvision.None?
    case _ => false
  }

  /** A promise that was not handed in before is taken on exactly then. */
  lemma StartsExactly(s: State, e: Event, p: nat)
    requires Reachable(s) && p !in s.closures
    ensures Outstanding(Next(s, e), p) <==> Starts(s, e, p)
  {
    ReachableIsGood(s);
    assert !Outstanding(s, p) by { assert PromiseOk(s, p); }
    hide *;
    if e.Connect? { ConnectStarts(s, e, p); }
    else if e.BindClaim? { BindStarts(s, e, p); }
    else if e.ScanWifi? || e.ProvisionWifi? { WifiStarts(s, e, p); }
    else if IsWifiAnswer(e) { AnswerStartsNothing(s, e, p); }
    else { OpeningStartsNothing(s, e, p); }
  }

  lemma ConnectStarts(s: State, e: Event, p: nat)
    requires !Outstanding(s, p) && p !in s.closures && e.Connect?
    ensures Outstanding(Next(s, e), p) <==> Starts(s, e, p)
  {
  }

  lemma BindStarts(s: State, e: Event, p: nat)
    requires !Outstanding(s, p) && p !in s.closures && e.BindClaim?
    ensures Outstanding(Next(s, e), p) <==> Starts(s, e, p)
  {
  }

  lemma WifiStarts(s: State, e: Event, p: nat)
    requires !Outstanding(s, p) && p !in s.closures && (e.ScanWifi? || e.ProvisionWifi?)
    ensures Outstanding(Next(s, e), p) <==> Starts(s, e, p)
  {
  }

  lemma AnswerStartsNothing(s: State, e: Event, p: nat)
    requires !Outstanding(s, p) && IsWifiAnswer(e)
    ensures Outstanding(Next(s, e), p) <==> Starts(s, e, p)
  {
    hide With;
  }

  lemma OpeningStartsNothing(s: State, e: Event, p: nat)
    requires !Outstanding(s, p) && !IsCall(e) && !IsWifiAnswer(e)
    ensures Outstanding(Next(s, e), p) <==> Starts(s, e, p)
  {
    hide With;
  }

  /** The promise is fulfilled by this callback; or it asks for the claim that is bound already. */
  predicate Succeeds(s: State, e: Event, p: nat) {
    match e
    case PingReply(q, d, pong) => q == p && s.pending == Some(p) && s.device == Some(d) && pong
    case BindReply(q, matches) => q == p && s.claimBind == Some(p) && matches
    case ScanEnds(q, ok) => q == p && s.wifiScan == Some(p) && ok
    case ProvisionEnds(q, ok) => q == p && s.wifiProvision == Some(p) && ok
    case BindClaim(q, deviceId, claimId, valid) =>
      && q == p && p !in s.closures && s.device.Some? && s.pending.None? && s.connectedDeviceId == Some(deviceId)
      && s.claimBindingRequired && valid && s.boundClaimId == Some(claimId)
    case _ => false
  }

  /** A promise is resolved exactly then; every other promise that is settled is rejected. */
  lemma ResolvesExactly(s: State, e: Event, p: nat)
    requires Reachable(s)
    ensures Next(s, e).resolved[p] == s.resolved[p] + if Succeeds(s, e, p) then 1 else 0
  {
    ReachableIsGood(s);
    assert Owned(s);
    hide *;
    if e.PingReply? || e.BindReply? { AnswerResolves(s, e, p); }
    else if e.ScanEnds? || e.ProvisionEnds? { WifiResolves(s, e, p); }
    else { CallResolves(s, e, p); }
  }

  /** What is outstanding belongs to the current session. */
  predicate Owned(s: State) {
    && (s.pending.Some? ==> s.pending.value in s.closures && s.closures[s.pending.value].operation == s.generation)
    && FieldOk(s, s.claimBind) && FieldOk(s, s.wifiScan) && FieldOk(s, s.wifiProvision)
  }

  lemma AnswerResolves(s: State, e: Event, p: nat)
    requires Owned(s) && (e.PingReply? || e.BindReply?)
    ensures Next(s, e).resolved[p] == s.resolved[p] + if Succeeds(s, e, p) then 1 else 0
  {
    hide With;
  }

  lemma WifiResolves(s: State, e: Event, p: nat)
    requires Owned(s) && (e.ScanEnds? || e.ProvisionEnds?)
    ensures Next(s, e).resolved[p] == s.resolved[p] + if Succeeds(s, e, p) then 1 else 0
  {
    hide With;
  }

  lemma CallResolves(s: State, e: Event, p: nat)
    requires !e.PingReply? && !e.BindReply? && !e.ScanEnds? && !e.ProvisionEnds?
    ensures Next(s, e).resolved[p] == s.resolved[p] + if Succeeds(s, e, p) then 1 else 0
  {
    hide With;
  }

  /** What a success leaves: the link and what is bound to it stay, a matching acknowledgement binds, and provisioning ends
      the session. */
  lemma SuccessLeaves(s: State, e: Event, p: nat)
    requires Reachable(s) && Succeeds(s, e, p) && !e.BindClaim?
    ensures var t := Next(s, e);
            && (forall q :: !Outstanding(t, q))
            && (e.ProvisionEnds? ==> t.device.None? && t.connectedDeviceId.None? && t.boundClaimId.None? && t.generation == s.generation + 1)
            && (!e.ProvisionEnds? ==> t.device == s.device && t.device.Some? && t.connectedDeviceId == s.connectedDeviceId && t.generation == s.generation)
            && (e.PingReply? || e.ScanEnds? ==> t.boundClaimId == s.boundClaimId)
            && (e.BindReply? ==> p in s.closures && t.boundClaimId == Some(s.closures[p].claimId))
  {
    ReachableIsGood(s);
    hide PromiseOk, SentOk, Run, Reachable;
  }

  /** A usable QR opens the link, with a bind required exactly for a product; an unusable one, and a wrong answer to the ping,
      end like a timeout. */
  lemma LinkOpens(s: State, p: nat, d: nat, deviceId: string, product: bool)
    requires Reachable(s) && s.pending == Some(p) && d !in s.products
    ensures var t := Next(s, QrRead(p, true, d, deviceId, product));
            && t.device == Some(d) && t.connectedDeviceId == Some(deviceId) && t.claimBindingRequired == product && t.boundClaimId.None?
            && t.pending == s.pending && t.generation == s.generation
    ensures Next(s, QrRead(p, false, d, deviceId, product)) == Next(s, PendingFails(p))
    ensures s.device.Some? ==> Next(s, PingReply(p, s.device.value, false)) == Next(s, PendingFails(p))
  {
    ReachableIsGood(s);
    hide PromiseOk, SentOk, Run, Reachable, Cleanup;
  }

  /** A disconnection rejects whatever is outstanding and ends the session. */
  lemma DisconnectEnds(s: State, p: nat)
    requires Reachable(s)
    ensures var t := Next(s, Disconnect);
            && t.device.None? && t.boundClaimId.None? && t.generation == s.generation + 1 && (forall q :: !Outstanding(t, q))
            && t.rejected[p] == s.rejected[p] + (if Outstanding(s, p) then 1 else 0) && t.resolved == s.resolved
  {
    ReachableIsGood(s);
    assert Owned(s) && Slots(s);
    hide *;
    if s.pending.Some? { PendingEnds(s, p); } else { SessionEnds(s, p); }
  }

  lemma PendingEnds(s: State, p: nat)
    requires Owned(s) && Slots(s) && s.pending.Some?
    ensures var t := Next(s, Disconnect);
            && t.device.None? && t.boundClaimId.None? && t.generation == s.generation + 1 && (forall q :: !Outstanding(t, q))
            && t.rejected[p] == s.rejected[p] + (if Outstanding(s, p) then 1 else 0) && t.resolved == s.resolved
  {
  }

  lemma SessionEnds(s: State, p: nat)
    requires Slots(s) && s.pending.None?
    ensures var t := Next(s, Disconnect);
            && t.device.None? && t.boundClaimId.None? && t.generation == s.generation + 1 && (forall q :: !Outstanding(t, q))
            && t.rejected[p] == s.rejected[p] + (if Outstanding(s, p) then 1 else 0) && t.resolved == s.resolved
  {
  }

  /** The bind call of event `i` is the outstanding one `p` of this session. */
  predicate AskedFor(events: seq<Event>, i: nat, p: nat, s: State) {
    && i < |events| && events[i].BindClaim? && events[i].promise == p && events[i].valid && p !in Prefix(events, i).closures
    && p in s.closures && s.closures[p].claimId == events[i].claimId
    && Prefix(events, i).generation == s.generation && Prefix(events, i).device == s.device
  }

  /** At `i` the device was asked to bind this claim, and at `j` it acknowledged that, both in this session. */
  predicate Acknowledged(events: seq<Event>, i: nat, j: nat, generation: nat, device: nat, claimId: string) {
    && i < j < |events| && events[i].BindClaim? && events[i].claimId == claimId && events[j] == BindReply(events[i].promise, true)
    && Prefix(events, i).generation == Prefix(events, j).generation == generation
    && Prefix(events, i).device == Prefix(events, j).device == Some(device)
  }

  ghost predicate BindTraced(events: seq<Event>) {
    var s := Run(FRESH, events);
    s.claimBind.Some? ==> exists i :: AskedFor(events, i, s.claimBind.value, s)
  }

  ghost predicate BoundTraced(events: seq<Event>) {
    var s := Run(FRESH, events);
    s.boundClaimId.Some? ==> s.device.Some? && exists i, j :: Acknowledged(events, i, j, s.generation, s.device.value, s.boundClaimId.value)
  }

  /** Which QR opened the link to this device object. */
  predicate OpenedBy(events: seq<Event>, k: nat, device: nat, product: bool) {
    k < |events| && events[k].QrRead? && events[k].device == device && events[k].product == product
  }

  ghost predicate ProductsTraced(events: seq<Event>) {
    var s := Run(FRESH, events);
    forall d :: d in s.products ==> exists k :: OpenedBy(events, k, d, s.products[d])
  }

  ghost predicate SentTraced(events: seq<Event>, x: Sent) {
    x.bound.Some? ==> exists i, j :: Acknowledged(events, i, j, x.generation, x.device, x.bound.value)
  }

  ghost predicate Traced(events: seq<Event>) {
    BindTraced(events) && BoundTraced(events) && ProductsTraced(events) && forall x :: x in Run(FRESH, events).sent ==> SentTraced(events, x)
  }

  predicate Slots(s: State) {
    && Count(s.pending) + Count(s.claimBind) + Count(s.wifiScan) + Count(s.wifiProvision) <= 1
    && FieldOk(s, s.claimBind) && (s.boundClaimId.Some? ==> s.device.Some?)
  }

  /** How one event can leave a bind outstanding: it was, in this session, or this event asks for it. */
  predicate BindSourced(s: State, e: Event, t: State) {
    t.claimBind.Some? ==>
      var p := t.claimBind.value;
      && t.generation == s.generation && t.device == s.device && p in t.closures
      && (|| (s.claimBind == Some(p) && p in s.closures && t.closures[p] == s.closures[p])
          || (e.BindClaim? && e.promise == p && e.valid && p !in s.closures && t.closures[p].claimId == e.claimId))
  }

  /** How one event can leave a claim bound: it was, in this session, or this event is the acknowledgement of the bind. */
  predicate BoundSourced(s: State, e: Event, t: State) {
    t.boundClaimId.Some? ==>
      && t.generation == s.generation && t.device == s.device && t.device.Some?
      && (|| t.boundClaimId == s.boundClaimId
          || (s.claimBind.Some? && e == BindReply(s.claimBind.value, true) && s.claimBind.value in s.closures
              && t.boundClaimId == Some(s.closures[s.claimBind.value].claimId)))
  }

  lemma OpeningSources(s: State, e: Event)
    requires Slots(s) && (e.Connect? || e.QrRead? || e.PendingFails? || e.PingReply? || e.Disconnect?)
    ensures BindSourced(s, e, Next(s, e)) && BoundSourced(s, e, Next(s, e))
  {
  }

  lemma BindingSources(s: State, e: Event)
    requires Slots(s) && e.BindClaim?
    ensures BindSourced(s, e, Next(s, e)) && BoundSourced(s, e, Next(s, e))
  {
  }

  lemma ReplySources(s: State, e: Event)
    requires Slots(s) && (e.BindReply? || e.BindFails?)
    ensures BindSourced(s, e, Next(s, e)) && BoundSourced(s, e, Next(s, e))
  {
  }

  lemma WifiCallSources(s: State, e: Event)
    requires Slots(s) && (e.ScanWifi? || e.ProvisionWifi?)
    ensures BindSourced(s, e, Next(s, e)) && BoundSourced(s, e, Next(s, e))
  {
  }

  lemma WifiAnswerSources(s: State, e: Event)
    requires Slots(s) && (e.ScanEnds? || e.ProvisionEnds?)
    ensures BindSourced(s, e, Next(s, e)) && BoundSourced(s, e, Next(s, e))
  {
    hide With;
  }

  lemma EventSources(s: State, e: Event)
    requires Slots(s)
    ensures BindSourced(s, e, Next(s, e)) && BoundSourced(s, e, Next(s, e))
  {
    hide *;
    if e.Connect? || e.QrRead? || e.PendingFails? || e.PingReply? || e.Disconnect? { OpeningSources(s, e); }
    else if e.BindClaim? { BindingSources(s, e); }
    else if e.BindReply? || e.BindFails? { ReplySources(s, e); }
    else if e.ScanWifi? || e.ProvisionWifi? { WifiCallSources(s, e); }
    else { WifiAnswerSources(s, e); }
  }

  /** What one event can add to what went out, and to the device objects. */
  ghost predicate SentSourced(s: State, e: Event, t: State) {
    && (forall x :: x in t.sent ==> x in s.sent || (s.device.Some? && x == Sent(s.generation, s.device.value, s.boundClaimId)))
    && (forall d :: d in t.products ==> (d in s.products && t.products[d] == s.products[d]) || (e.QrRead? && e.device == d && e.product == t.products[d]))
  }

  predicate SendsNothing(s: State, t: State) { t.sent == s.sent && t.products == s.products && s.closures.Keys <= t.closures.Keys }

  lemma CallSendsNothing(s: State, p: nat, deviceId: string, claimId: string, a: bool, b: bool)
    ensures SendsNothing(s, OnConnect(s, p, a, b)) && SendsNothing(s, OnBindClaim(s, p, deviceId, claimId, a)) && SendsNothing(s, OnScanWifi(s, p))
  {
  }

  lemma AnswerSendsNothing(s: State, p: nat, ok: bool)
    ensures SendsNothing(s, OnBindReply(s, p, ok)) && SendsNothing(s, OnBindFails(s, p))
    ensures SendsNothing(s, OnScanEnds(s, p, ok)) && SendsNothing(s, OnProvisionEnds(s, p, ok))
  {
    hide With;
  }

  lemma OpeningSendsNothing(s: State, p: nat, d: nat, pong: bool)
    ensures SendsNothing(s, Fail(s, p)) && SendsNothing(s, OnPingReply(s, p, d, pong)) && SendsNothing(s, OnDisconnect(s))
  {
    hide With;
  }

  lemma OthersSendNothing(s: State, e: Event)
    requires !e.QrRead? && !e.ProvisionWifi?
    ensures SendsNothing(s, Next(s, e))
  {
    hide OnConnect, OnQrRead, OnPingReply, OnBindClaim, OnBindReply, OnBindFails, OnScanWifi, OnScanEnds, OnProvisionWifi, OnProvisionEnds, OnDisconnect, Fail;
    match e
    case Connect(p, allowed, qrFree) => CallSendsNothing(s, p, "", "", allowed, qrFree);
    case PendingFails(p) => OpeningSendsNothing(s, p, 0, false);
    case PingReply(p, d, pong) => OpeningSendsNothing(s, p, d, pong);
    case Disconnect => OpeningSendsNothing(s, 0, 0, false);
    case BindClaim(p, deviceId, claimId, valid) => CallSendsNothing(s, p, deviceId, claimId, valid, false);
    case BindReply(p, matches) => AnswerSendsNothing(s, p, matches);
    case BindFails(p) => AnswerSendsNothing(s, p, false);
    case ScanWifi(p) => CallSendsNothing(s, p, "", "", false, false);
    case ScanEnds(p, ok) => AnswerSendsNothing(s, p, ok);
    case ProvisionEnds(p, ok) => AnswerSendsNothing(s, p, ok);
  }

  lemma SentSource(s: State, e: Event)
    ensures SentSourced(s, e, Next(s, e)) && s.closures.Keys <= Next(s, e).closures.Keys
  {
    hide *;
    if e.ProvisionWifi? { CredentialsSource(s, e); }
    else if e.QrRead? { DeviceSource(s, e); }
    else {
      OthersSendNothing(s, e);
      SameSent(s, e);
    }
  }

  lemma CredentialsSource(s: State, e: Event)
    requires e.ProvisionWifi?
    ensures SentSourced(s, e, Next(s, e)) && s.closures.Keys <= Next(s, e).closures.Keys
  {
  }

  lemma DeviceSource(s: State, e: Event)
    requires e.QrRead?
    ensures SentSourced(s, e, Next(s, e)) && s.closures.Keys <= Next(s, e).closures.Keys
  {
  }

  lemma SameSent(s: State, e: Event)
    requires SendsNothing(s, Next(s, e))
    ensures SentSourced(s, e, Next(s, e)) && s.closures.Keys <= Next(s, e).closures.Keys
  {
    hide Next;
  }

  lemma AcknowledgedStays(events: seq<Event>, e: Event, i: nat, j: nat, generation: nat, device: nat, claimId: string)
    requires Acknowledged(events, i, j, generation, device, claimId)
    ensures Acknowledged(events + [e], i, j, generation, device, claimId)
  {
    PrefixStays(events, e);
    hide Run;
  }

  lemma BindStaysTraced(events: seq<Event>, e: Event)
    requires BindTraced(events) && Inv(Run(FRESH, events))
    ensures BindTraced(events + [e])
  {
    PrefixStays(events, e);
    var s, all := Run(FRESH, events), events + [e];
    var t := Next(s, e);
    if t.claimBind.Some? {
      EventSources(s, e);
      hide Inv, Next, Run;
      var p := t.claimBind.value;
      if s.claimBind == Some(p) && p in s.closures && t.closures[p] == s.closures[p] {
        var i :| AskedFor(events, i, p, s);
        assert AskedFor(all, i, p, t);
      } else {
        assert Prefix(all, |events|) == s by { assert events[..|events|] == events; }
        assert AskedFor(all, |events|, p, t);
      }
    }
  }

  lemma BoundStaysTraced(events: seq<Event>, e: Event)
    requires BindTraced(events) && BoundTraced(events) && Inv(Run(FRESH, events))
    ensures BoundTraced(events + [e])
  {
    PrefixStays(events, e);
    var s, all := Run(FRESH, events), events + [e];
    var t := Next(s, e);
    if t.boundClaimId.Some? {
      EventSources(s, e);
      hide Inv, Next, Run;
      if t.boundClaimId == s.boundClaimId {
        var i, j :| Acknowledged(events, i, j, s.generation, s.device.value, s.boundClaimId.value);
        AcknowledgedStays(events, e, i, j, s.generation, s.device.value, s.boundClaimId.value);
      } else {
        var i :| AskedFor(events, i, s.claimBind.value, s);
        assert Prefix(all, |events|) == s by { assert events[..|events|] == events; }
        assert Acknowledged(all, i, |events|, t.generation, t.device.value, t.boundClaimId.value);
      }
    }
  }

  lemma SentStaysTraced(events: seq<Event>, e: Event, x: Sent)
    requires BoundTraced(events) && (x in Run(FRESH, events).sent ==> SentTraced(events, x)) && x in Run(FRESH, events + [e]).sent
    ensures SentTraced(events + [e], x)
  {
    PrefixStays(events, e);
    var s := Run(FRESH, events);
    SentSource(s, e);
    hide Next, Run;
    if x.bound.Some? {
      var i, j :| Acknowledged(events, i, j, x.generation, x.device, x.bound.value);
      AcknowledgedStays(events, e, i, j, x.generation, x.device, x.bound.value);
    }
  }

  lemma ProductsStayTraced(events: seq<Event>, e: Event)
    requires ProductsTraced(events)
    ensures ProductsTraced(events + [e])
  {
    PrefixStays(events, e);
    var s, t := Run(FRESH, events), Run(FRESH, events + [e]);
    SentSource(s, e);
    hide Next, Run;
    forall d | d in t.products ensures exists k :: OpenedBy(events + [e], k, d, t.products[d]) {
      if d in s.products && t.products[d] == s.products[d] {
        var k :| OpenedBy(events, k, d, s.products[d]);
        assert OpenedBy(events + [e], k, d, t.products[d]);
      } else {
        assert OpenedBy(events + [e], |events|, d, t.products[d]);
      }
    }
  }

  lemma {:induction false} RunIsTraced(events: seq<Event>)
    ensures Traced(events) && Inv(Run(FRESH, events))
  {
    RunKeepsInv(events);
    if events != [] {
      var prefix, e := events[..|events| - 1], events[|events| - 1];
      assert events == prefix + [e];
      RunIsTraced(prefix);
      hide Inv, Run, BindTraced, BoundTraced, ProductsTraced, SentTraced;
      BindStaysTraced(prefix, e);
      BoundStaysTraced(prefix, e);
      ProductsStayTraced(prefix, e);
      forall x | x in Run(FRESH, events).sent ensures SentTraced(events, x) { SentStaysTraced(prefix, e, x); }
    }
  }

  /** A claim is bound only because the device was asked to bind exactly this claim and acknowledged it, with the matching
      answer to that call, over this link and in this session. */
  lemma BoundNeedsAck(events: seq<Event>)
    ensures var s := Run(FRESH, events);
            s.boundClaimId.Some? ==>
              s.device.Some? && exists i, j :: Acknowledged(events, i, j, s.generation, s.device.value, s.boundClaimId.value)
  {
    RunIsTraced(events);
  }

  /** Wi-Fi credentials went to a device that a product QR opened only after such an acknowledgement by that device in the same
      session. */
  lemma ProductNeedsAck(events: seq<Event>, x: Sent)
    requires x in Run(FRESH, events).sent
    ensures exists k: nat ::
              && (OpenedBy(events, k, x.device, true) || OpenedBy(events, k, x.device, false))
              && (events[k].product ==>
                    x.bound.Some? && exists i, j :: Acknowledged(events, i, j, x.generation, x.device, x.bound.value))
  {
    RunIsTraced(events);
    var s := Run(FRESH, events);
    assert SentOk(s, x) && SentTraced(events, x);
    var k :| OpenedBy(events, k, x.device, s.products[x.device]);
    hide Inv, Run;
  }

  /** A promise that was handed in stays known. */
  lemma {:induction false} HandedInStays(events: seq<Event>, i: nat, j: nat)
    requires i < j <= |events| && events[i].BindClaim?
    ensures events[i].promise in Prefix(events, j).closures
  {
    assert events[..j][..|events[..j]| - 1] == events[..j - 1];
    if i < j - 1 { HandedInStays(events, i, j - 1); }
    SentSource(Prefix(events, j - 1), events[j - 1]);
    if i == j - 1 { BindIsKnown(Prefix(events, j - 1), events[j - 1]); }
    hide Next;
  }

  lemma BindIsKnown(s: State, e: Event)
    requires e.BindClaim?
    ensures e.promise in Next(s, e).closures
  {
  }

  /** What the two answers do to an outstanding bind of this claim. */
  predicate Decides(s: State, p: nat, claimId: string) {
    var good, bad := Next(s, BindReply(p, true)), Next(s, BindReply(p, false));
    && good.boundClaimId == Some(claimId) && good.device == s.device && good.device.Some? && good.generation == s.generation
    && good.resolved[p] == 1 && good.rejected[p] == 0 && !Outstanding(good, p)
    && bad.boundClaimId.None? && bad.device.None? && bad.connectedDeviceId.None? && bad.generation == s.generation + 1
    && bad.resolved[p] == 0 && bad.rejected[p] == 1 && !Outstanding(bad, p)
  }

  /** Conversely: while the bind call of event `i` is outstanding, a matching acknowledgement binds exactly the claim it named,
      over the same link, and resolves it; any other answer rejects it, and nothing is bound and the link is gone. */
  lemma AckDecides(events: seq<Event>, i: nat)
    requires i < |events| && events[i].BindClaim? && events[i].promise !in Prefix(events, i).closures
    requires Run(FRESH, events).claimBind == Some(events[i].promise)
    ensures Decides(Run(FRESH, events), events[i].promise, events[i].claimId)
  {
    var s, p := Run(FRESH, events), events[i].promise;
    RunIsTraced(events);
    hide Run, Prefix, Decides, Inv;
    var k: nat :| AskedFor(events, k, p, s);
    if k < i { HandedInStays(events, k, i); }
    if i < k { HandedInStays(events, i, k); }
    ReplySettles(s, p);
  }

  lemma ReplySettles(s: State, p: nat)
    requires Inv(s) && s.claimBind == Some(p) && p in s.closures
    ensures Decides(s, p, s.closures[p].claimId)
  {
    assert PromiseOk(s, p);
  }
}
