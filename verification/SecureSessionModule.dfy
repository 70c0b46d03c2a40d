/** The module's fields as an object: each handler changes them in place, and does what module SecureSession says. */
module SecureSessionModule {
  import opened Common
  import opened SecureSession

  /** What each promise's callbacks captured; and what the promises, the device and the radio have seen. */
  datatype Past = Past(closures: map<nat, Closure>, resolved: multiset<nat>, rejected: multiset<nat>, sent: set<Sent>, products: map<nat, bool>)

  class Session {
    var generation: nat
    var pendingPromise: Option<nat>
    var claimBindPromise: Option<nat>
    var wifiScanPromise: Option<nat>
    var wifiProvisionPromise: Option<nat>
    var device: Option<nat>
    var connectedDeviceId: Option<string>
    var productRegistration: bool
    var claimBindingRequired: bool
    var boundClaimId: Option<string>
    var past: Past

    ghost function View(): State
      reads this
    {
      State(generation, pendingPromise, claimBindPromise, wifiScanPromise, wifiProvisionPromise, device, connectedDeviceId,
            productRegistration, claimBindingRequired, boundClaimId, past.closures, past.resolved, past.rejected, past.sent, past.products)
    }

    /** The guard of every callback after the connection is up. */
    predicate IsMine(field: Option<nat>, p: nat)
      reads this
    {
      p in past.closures && generation == past.closures[p].operation && field == Some(p) && device == past.closures[p].device
    }

    constructor ()
      ensures View() == FRESH && Inv(View())
    {
      generation, pendingPromise, claimBindPromise, wifiScanPromise, wifiProvisionPromise := 0, None, None, None, None;
      device, connectedDeviceId, productRegistration, claimBindingRequired, boundClaimId := None, None, false, false, None;
      past := Past(map[], multiset{}, multiset{}, {}, map[]);
    }

    method Resolved(p: nat)
      modifies this`past
      ensures View() == Resolve(old(View()), p)
    {
      past := past.(resolved := past.resolved + multiset{p});
    }

    method Rejected(p: nat)
      modifies this`past
      ensures View() == Reject(old(View()), p)
    {
      past := past.(rejected := past.rejected + multiset{p});
    }

    /** Settled at once, in either way. */
    method AnsweredAtOnce(p: nat, ok: bool)
      modifies this`past
      ensures View() == if ok then Confirm(old(View()), p) else Refuse(old(View()), p)
    {
      past := past.(closures := past.closures[p := Closure(generation, None, "")]);
      if ok { Resolved(p); } else { Rejected(p); }
    }

    method CleanUp()
      modifies this
      ensures View() == Cleanup(old(View()))
    {
      SettleOutstanding();
      CloseDevice();
      productRegistration := false;
    }

    /** The link goes, and with it everything that belonged to the session. */
    method CloseDevice()
      modifies this
      ensures View() == old(View()).(generation := old(generation) + 1, device := None, connectedDeviceId := None,
                                    claimBindingRequired := false, boundClaimId := None)
    {
      generation := generation + 1;
      device, connectedDeviceId, claimBindingRequired, boundClaimId := None, None, false, None;
    }

    method SettleOutstanding()
      modifies this`past, this`claimBindPromise, this`wifiScanPromise, this`wifiProvisionPromise
      ensures var s := old(View());
              View() == s.(rejected := With(With(With(s.rejected, s.claimBind), s.wifiScan), s.wifiProvision),
                           claimBind := None, wifiScan := None, wifiProvision := None)
    {
      if claimBindPromise.Some? { Rejected(claimBindPromise.value); }
      if wifiScanPromise.Some? { Rejected(wifiScanPromise.value); }
      if wifiProvisionPromise.Some? { Rejected(wifiProvisionPromise.value); }
      claimBindPromise, wifiScanPromise, wifiProvisionPromise := None, None, None;
    }

    method FailPending(p: nat)
      modifies this
      ensures View() == Fail(old(View()), p)
    {
      if p !in past.closures || generation != past.closures[p].operation || pendingPromise != Some(p) {
        return;
      }
      pendingPromise := None;
      CleanUp();
      Rejected(p);
    }

    method ScanQrAndConnect(p: nat, allowed: bool, qrFree: bool)
      requires Inv(View()) && p !in past.closures
      modifies this
      ensures View() == Next(old(View()), Connect(p, allowed, qrFree)) && Inv(View())
    {
      ConnectKeepsInv(View(), p, allowed, qrFree);
      hide Inv;
      if pendingPromise.Some? || device.Some? || !allowed {
        AnsweredAtOnce(p, false);
        return;
      }
      generation := generation + 1;
      pendingPromise := Some(p);
      if !qrFree {
        pendingPromise := None;
        AnsweredAtOnce(p, false);
        return;
      }
      past := past.(closures := past.closures[p := Closure(generation, device, "")]);
    }

    method ConnectAndPing(p: nat, usable: bool, d: nat, deviceId: string, product: bool)
      requires Inv(View()) && d !in past.products
      modifies this
      ensures View() == Next(old(View()), QrRead(p, usable, d, deviceId, product)) && Inv(View())
    {
      QrReadKeepsInv(View(), p, usable, d, deviceId, product);
      hide Inv;
      if p !in past.closures || generation != past.closures[p].operation || pendingPromise != Some(p) {
        return;
      }
      if !usable {
        FailPending(p);
        return;
      }
      productRegistration, claimBindingRequired, boundClaimId := product, product, None;
      device, connectedDeviceId := Some(d), Some(deviceId);
      past := past.(products := past.products[d := product]);
    }

    method OnPing(p: nat, d: nat, pong: bool)
      requires Inv(View())
      modifies this
      ensures View() == Next(old(View()), PingReply(p, d, pong)) && Inv(View())
    {
      PingKeepsInv(View(), p, d, pong);
      hide Inv;
      if p !in past.closures || generation != past.closures[p].operation || pendingPromise != Some(p) || device != Some(d) {
        return;
      }
      if pong {
        pendingPromise, productRegistration := None, false;
        Resolved(p);
      } else {
        FailPending(p);
      }
    }

    method Disconnected()
      requires Inv(View())
      modifies this
      ensures View() == Next(old(View()), Disconnect) && Inv(View())
    {
      NextKeepsInv(View(), Disconnect);
      hide Inv;
      if pendingPromise.Some? {
        FailPending(pendingPromise.value);
      } else {
        CleanUp();
      }
    }

    method BindDeviceClaim(p: nat, deviceId: string, claimId: string, valid: bool)
      requires Inv(View()) && p !in past.closures
      modifies this
      ensures View() == Next(old(View()), BindClaim(p, deviceId, claimId, valid)) && Inv(View())
    {
      BindClaimKeepsInv(View(), p, deviceId, claimId, valid);
      hide Inv;
      if device.None? || pendingPromise.Some? || connectedDeviceId != Some(deviceId) || !claimBindingRequired || !valid {
        AnsweredAtOnce(p, false);
        return;
      }
      if boundClaimId.Some? {
        AnsweredAtOnce(p, boundClaimId.value == claimId);
        return;
      }
      if claimBindPromise.Some? || wifiScanPromise.Some? || wifiProvisionPromise.Some? {
        AnsweredAtOnce(p, false);
        return;
      }
      past := past.(closures := past.closures[p := Closure(generation, device, claimId)]);
      claimBindPromise := Some(p);
    }

    method FailClaimBind(p: nat)
      modifies this
      ensures View() == OnBindFails(old(View()), p)
    {
      if !IsMine(claimBindPromise, p) {
        return;
      }
      claimBindPromise := None;
      CleanUp();
      Rejected(p);
    }

    method OnClaimAck(p: nat, matches: bool)
      requires Inv(View())
      modifies this
      ensures View() == Next(old(View()), BindReply(p, matches)) && Inv(View())
    {
      BindReplyKeepsInv(View(), p, matches);
      hide Inv;
      if !IsMine(claimBindPromise, p) {
        return;
      }
      if !matches {
        FailClaimBind(p);
        return;
      }
      claimBindPromise, boundClaimId := None, Some(past.closures[p].claimId);
      Resolved(p);
    }

    method ScanWifiNetworks(p: nat)
      requires Inv(View()) && p !in past.closures
      modifies this
      ensures View() == Next(old(View()), ScanWifi(p)) && Inv(View())
    {
      ScanKeepsInv(View(), p);
      hide Inv;
      if device.None? || pendingPromise.Some? || claimBindPromise.Some? || wifiScanPromise.Some? || wifiProvisionPromise.Some? {
        AnsweredAtOnce(p, false);
        return;
      }
      past := past.(closures := past.closures[p := Closure(generation, device, "")]);
      wifiScanPromise := Some(p);
    }

    method SucceedWifiScan(p: nat)
      modifies this
      ensures View() == OnScanEnds(old(View()), p, true)
    {
      if !IsMine(wifiScanPromise, p) {
        return;
      }
      wifiScanPromise := None;
      Resolved(p);
    }

    method FailWifiScan(p: nat)
      modifies this
      ensures View() == OnScanEnds(old(View()), p, false)
    {
      hide Cleanup;
      if !IsMine(wifiScanPromise, p) {
        return;
      }
      wifiScanPromise := None;
      CleanUp();
      Rejected(p);
    }

    method EndWifiScan(p: nat, ok: bool)
      requires Inv(View())
      modifies this
      ensures View() == Next(old(View()), ScanEnds(p, ok)) && Inv(View())
    {
      ScanEndsKeepsInv(View(), p, ok);
      hide Inv, OnScanEnds;
      if ok { SucceedWifiScan(p); } else { FailWifiScan(p); }
    }

    method Provision(p: nat, deviceId: string, valid: bool)
      requires Inv(View()) && p !in past.closures
      modifies this
      ensures View() == Next(old(View()), ProvisionWifi(p, deviceId, valid)) && Inv(View())
    {
      ProvisionKeepsInv(View(), p, deviceId, valid);
      hide Inv;
      if device.None? || pendingPromise.Some? || connectedDeviceId != Some(deviceId) {
        AnsweredAtOnce(p, false);
        return;
      }
      if claimBindingRequired && boundClaimId.None? {
        AnsweredAtOnce(p, false);
        return;
      }
      if claimBindPromise.Some? || wifiScanPromise.Some? || wifiProvisionPromise.Some? || !valid {
        AnsweredAtOnce(p, false);
        return;
      }
      past := past.(closures := past.closures[p := Closure(generation, device, "")]);
      wifiProvisionPromise := Some(p);
      past := past.(sent := past.sent + {Sent(generation, device.value, boundClaimId)});
    }

    method SucceedWifiProvision(p: nat)
      modifies this
      ensures View() == OnProvisionEnds(old(View()), p, true)
    {
      if !IsMine(wifiProvisionPromise, p) {
        return;
      }
      wifiProvisionPromise := None;
      CloseDevice();
      Resolved(p);
    }

    method FailWifiProvision(p: nat)
      modifies this
      ensures View() == OnProvisionEnds(old(View()), p, false)
    {
      hide Cleanup;
      if !IsMine(wifiProvisionPromise, p) {
        return;
      }
      wifiProvisionPromise := None;
      CleanUp();
      Rejected(p);
    }

    method EndProvision(p: nat, ok: bool)
      requires Inv(View())
      modifies this
      ensures View() == Next(old(View()), ProvisionEnds(p, ok)) && Inv(View())
    {
      ProvisionEndsKeepsInv(View(), p, ok);
      hide Inv, OnProvisionEnds;
      if ok { SucceedWifiProvision(p); } else { FailWifiProvision(p); }
    }
  }
}
