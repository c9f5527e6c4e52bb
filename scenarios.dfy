/** Whole sessions, from power-on through `setup_wifi` and the stimuli that
    follow it, built from the single-step facts of module Provisioning. */
module Scenarios {
  import opened Platform
  import opened Naming
  import opened Provisioning

  /** From power-on, provisioning is running, a timer exists and is armed, and
      the file's own `esp_wifi_start` is left uncalled, exactly when the device
      is not provisioned or reconfiguration is asked for. */
  lemma SetupDecision(cfg: StaConfig, provisioned: bool, reconfigure: bool,
                      deviceName: string, timeoutS: nat)
    requires timeoutS <= MaxTimeoutS
    ensures var r := SetupWifiNamed(Boot(cfg, provisioned), reconfigure, deviceName, timeoutS);
            && (r.esp.provisioning <==> !provisioned || reconfigure)
            && (r.timer.Some? <==> !provisioned || reconfigure)
            && (r.esp.armed != {} <==> !provisioned || reconfigure)
            && (r.esp.wifiStarted <==> provisioned && !reconfigure)
            && (r.esp.provMgrInit <==> !provisioned || reconfigure)
  {
    var s0 := Boot(cfg, provisioned);
    if ProvisioningRequired(provisioned, reconfigure) {
      SetupStartsProvisioning(s0, reconfigure, deviceName, timeoutS);
    } else {
      SetupConnects(s0, reconfigure, deviceName, timeoutS);
    }
  }

  /** A run of two stimuli, one step at a time. */
  lemma RunTwo(s: Sys, x: Stimulus, y: Stimulus)
    ensures Run(s, [x, y]) == Step(Step(s, x), y)
  {
    var s1 := Step(s, x);
    assert [x, y][1..] == [y];
    assert Run(s, [x, y]) == Run(s1, [y]);
    assert [y][1..] == [];
    assert Run(s1, [y]) == Run(Step(s1, y), []);
  }

  /** A session whose only running timer is its own: the timer fires, then the
      manager ends the session. */
  lemma TimeoutThenEnd(s: Sys)
    requires s.timer.Some? && s.esp.armed == {s.timer.value}
    ensures var r := Run(s, [Timeout, Event(End)]);
            && r.timer == None && r.esp.armed == {}
            && !r.esp.provMgrInit && !r.esp.provisioning
            && r.esp.currentCfg == (if HasSsid(s.esp.currentCfg) then s.esp.currentCfg else s.startupCfg)
            && r.esp.resumeCount == s.esp.resumeCount + 1
  {
    RunTwo(s, Timeout, Event(End));
    EndReleasesSession(Step(s, Timeout));
  }

  /** From power-on with provisioning required, the session's state is what
      the session scenarios below start from. */
  lemma SessionStarted(cfg: StaConfig, reconfigure: bool, provisioned: bool,
                       deviceName: string, timeoutS: nat)
    requires timeoutS <= MaxTimeoutS
    requires ProvisioningRequired(provisioned, reconfigure)
    ensures var s0 := SetupWifiNamed(Boot(cfg, provisioned), reconfigure, deviceName, timeoutS);
            && s0.timer == Some(0) && s0.esp.armed == {0}
            && s0.esp.currentCfg == cfg && s0.startupCfg == cfg
            && s0.esp.resumeCount == 0
            && SessionInv(s0)
  {
    var b := Boot(cfg, provisioned);
    var s0 := SetupWifiNamed(b, reconfigure, deviceName, timeoutS);
    assert s0.timer == Some(0) && s0.esp.armed == {0} && s0.esp.resumeCount == 0 by {
      assert b.esp.timersCreated == 0 && b.esp.armed == {};
      SetupStartsProvisioning(b, reconfigure, deviceName, timeoutS);
    }
    assert SessionInv(s0) by {
      SetupEstablishesSessionInv(cfg, provisioned, reconfigure, deviceName, timeoutS);
    }
  }

  /** A session with no network in the store or as startup configuration
      that times out ends with no network, the manager released and no
      timer. */
  lemma TimeoutWithoutNetwork(s0: Sys)
    requires s0.timer.Some? && s0.esp.armed == {s0.timer.value}
    requires !HasSsid(s0.esp.currentCfg) && !HasSsid(s0.startupCfg)
    ensures var r := Run(s0, [Timeout, Event(End)]);
            && OutcomeOf(s0.esp.currentCfg, s0.startupCfg) == NoConnectivity
            && !HasSsid(r.esp.currentCfg)
            && r.timer == None && r.esp.armed == {}
            && !r.esp.provMgrInit && !r.esp.provisioning
            && r.esp.resumeCount == s0.esp.resumeCount + 1
  {
    TimeoutThenEnd(s0);
  }

  /** A never-provisioned device with no stored network whose session sees no
      credentials: the timer fires, the manager ends the session, and the
      device is left with no network to join, the manager released and no
      timer. */
  lemma NoCredentialsTimeout(cfg: StaConfig, reconfigure: bool,
                             deviceName: string, timeoutS: nat)
    requires timeoutS <= MaxTimeoutS
    requires !HasSsid(cfg)
    ensures var s0 := SetupWifiNamed(Boot(cfg, false), reconfigure, deviceName, timeoutS);
            var r := Run(s0, [Timeout, Event(End)]);
            && OutcomeOf(s0.esp.currentCfg, s0.startupCfg) == NoConnectivity
            && !HasSsid(r.esp.currentCfg)
            && r.timer == None && r.esp.armed == {}
            && !r.esp.provMgrInit && !r.esp.provisioning
            && r.esp.resumeCount == 1
  {
    var s0 := SetupWifiNamed(Boot(cfg, false), reconfigure, deviceName, timeoutS);
    assert && s0.timer == Some(0) && s0.esp.armed == {0} && s0.esp.resumeCount == 0
           && s0.esp.currentCfg == cfg && s0.startupCfg == cfg by {
      SessionStarted(cfg, reconfigure, false, deviceName, timeoutS);
    }
    TimeoutWithoutNetwork(s0);
  }

  /** A session that is told of credentials, has them stored by the protocol
      layer, reports success and ends: the stored network is kept, the
      session's timer is deleted once, and reconnect is resumed once. */
  lemma CredentialsThenEnd(s: Sys, received: StaConfig)
    requires s.timer.Some? && s.esp.armed == {s.timer.value} && SessionInv(s)
    requires HasSsid(received)
    ensures var s1 := Run(s, [Event(Start), Event(CredRecv(received.ssid))]);
            var s2 := Step(s1, StoreWrite(received));
            var r := Run(s2, [Event(CredSuccess), Event(End)]);
            && OutcomeOf(s2.esp.currentCfg, s2.startupCfg) == CredentialsEstablished
            && r.esp.currentCfg == received
            && r.timer == None && r.esp.armed == {}
            && DeleteCount(r.esp.trace, s.timer.value) == 1
            && !r.esp.provMgrInit && r.esp.resumeCount == s.esp.resumeCount + 1
  {
    assert Run(s, [Event(Start), Event(CredRecv(received.ssid))]) == s by {
      RunTwo(s, Event(Start), Event(CredRecv(received.ssid)));
    }
    var s2 := Step(s, StoreWrite(received));
    assert s2.timer == s.timer && s2.esp.currentCfg == received && s2.startupCfg == s.startupCfg;
    assert Run(s2, [Event(CredSuccess), Event(End)]) == ProvisioningEnd(s2) by {
      RunTwo(s2, Event(CredSuccess), Event(End));
    }
    EndReleasesSession(s2);
    EndDeletesTimerOnce(s2);
  }

  /** A never-provisioned device whose session receives credentials, which the
      protocol layer stores, and ends before the deadline: the stored network
      is kept, the timer is stopped and deleted, and reconnect is resumed. */
  lemma CredentialsEstablishedBeforeDeadline(cfg: StaConfig, reconfigure: bool,
                                             deviceName: string, timeoutS: nat,
                                             received: StaConfig)
    requires timeoutS <= MaxTimeoutS
    requires HasSsid(received)
    ensures var s0 := SetupWifiNamed(Boot(cfg, false), reconfigure, deviceName, timeoutS);
            var s1 := Run(s0, [Event(Start), Event(CredRecv(received.ssid))]);
            var s2 := Step(s1, StoreWrite(received));
            var r := Run(s2, [Event(CredSuccess), Event(End)]);
            && OutcomeOf(s2.esp.currentCfg, s2.startupCfg) == CredentialsEstablished
            && r.esp.currentCfg == received
            && r.timer == None && r.esp.armed == {}
            && DeleteCount(r.esp.trace, 0) == 1
            && !r.esp.provMgrInit && r.esp.resumeCount == 1
  {
    var s0 := SetupWifiNamed(Boot(cfg, false), reconfigure, deviceName, timeoutS);
    assert s0.timer == Some(0) && s0.esp.armed == {0} && s0.esp.resumeCount == 0 && SessionInv(s0) by {
      SessionStarted(cfg, reconfigure, false, deviceName, timeoutS);
    }
    CredentialsThenEnd(s0, received);
  }

  /** A session that started with `home` both in the store and as the startup
      configuration, and times out; the store may lose `home` before the
      end. Either way the device is left with `home`. */
  lemma TimeoutKeepsHome(s0: Sys, home: StaConfig, lost: StaConfig)
    requires s0.timer.Some? && s0.esp.armed == {s0.timer.value}
    requires s0.esp.currentCfg == home && s0.startupCfg == home
    requires HasSsid(home) && !HasSsid(lost)
    ensures && Run(s0, [Timeout, Event(End)]).esp.currentCfg == home
            && var s1 := Step(Step(s0, Timeout), StoreWrite(lost));
               && OutcomeOf(s1.esp.currentCfg, s1.startupCfg) == FallbackToStartup
               && Step(s1, Event(End)).esp.currentCfg == home
  {
    TimeoutThenEnd(s0);
  }

  /** A provisioned device with network `home`, forced into reconfiguration,
      whose session times out. Whether the store still holds `home` at the end
      or has lost it, the device is left with `home`. */
  lemma ReconfigureTimesOut(home: StaConfig, lost: StaConfig,
                            deviceName: string, timeoutS: nat)
    requires timeoutS <= MaxTimeoutS
    requires HasSsid(home) && !HasSsid(lost)
    ensures var s0 := SetupWifiNamed(Boot(home, true), true, deviceName, timeoutS);
            && Run(s0, [Timeout, Event(End)]).esp.currentCfg == home
            && var s1 := Step(Step(s0, Timeout), StoreWrite(lost));
               && OutcomeOf(s1.esp.currentCfg, s1.startupCfg) == FallbackToStartup
               && Step(s1, Event(End)).esp.currentCfg == home
  {
    var s0 := SetupWifiNamed(Boot(home, true), true, deviceName, timeoutS);
    assert s0.timer == Some(0) && s0.esp.armed == {0} && s0.esp.currentCfg == home && s0.startupCfg == home by {
      SessionStarted(home, true, true, deviceName, timeoutS);
    }
    TimeoutKeepsHome(s0, home, lost);
  }
}
