/** The provisioning session of wifi_setup.c as a state machine over values.

    `Sys` is the state that the file's functions act on: the two file-scope
    variables `provisioning_timer` and `startup_wifi_config`, and the platform
    behind them. Each function of the file has a specification here, as a
    function from the state before to the state after; the class in module
    WifiSetup runs the same steps in place and is proved to agree with these.
    A run of the system after boot is a sequence of stimuli: provisioning
    events delivered to the event handler, expiry of the one-shot timer, and
    writes of the protocol layer into the configuration store. */
module Provisioning {
  import opened Platform
  import opened Naming

  /** `APP_WIFI_PROV_TIMEOUT_S * 1000000` is evaluated in a 32-bit `int`: the
      timeout must stay at or below 2147 seconds for it not to overflow. */
  const MaxTimeoutS: nat := 2147
  const MicrosPerSecond: nat := 1000000

  datatype Sys = Sys(timer: Option<nat>, startupCfg: StaConfig, esp: EspState)

  /** The state at power-on: `provisioning_timer = NULL`,
      `startup_wifi_config = {}`. */
  function Boot(cfg: StaConfig, provisionedInNvs: bool): (r: Sys)
    ensures r.timer == None && r.startupCfg == ZeroConfig && !HasSsid(r.startupCfg)
    ensures r.esp == PowerOn(cfg, provisionedInNvs)
  {
    Sys(None, ZeroConfig, PowerOn(cfg, provisionedInNvs))
  }

  /** The condition of line 124. */
  predicate ProvisioningRequired(provisioned: bool, reconfigure: bool)
  {
    !provisioned || reconfigure
  }

  /** How many times handle `id` was passed to `esp_timer_delete`. */
  function DeleteCount(t: seq<Call>, id: nat): nat
  {
    multiset(t)[TimerDelete(id)]
  }

  // ---------------------------------------------------------------------------
  // provisioning_timer_delete

  /** `provisioning_timer_delete`: stop and delete the timer if there is one and
      clear the handle; with no handle it does nothing at all. */
  function ProvisioningTimerDelete(s: Sys): (r: Sys)
    ensures r.timer == None
    ensures s.timer == None ==> r == s
    ensures r.startupCfg == s.startupCfg && r.esp.currentCfg == s.esp.currentCfg
    ensures r.esp.provMgrInit == s.esp.provMgrInit && r.esp.provisioning == s.esp.provisioning
    ensures r.esp.resumeCount == s.esp.resumeCount
    ensures s.timer.Some? ==> r.esp.armed == s.esp.armed - {s.timer.value}
    ensures r.esp.(armed := s.esp.armed, trace := s.esp.trace) == s.esp
    ensures s.esp.trace <= r.esp.trace
    ensures forall id: nat :: DeleteCount(r.esp.trace, id)
                         == DeleteCount(s.esp.trace, id) + (if s.timer == Some(id) then 1 else 0)
  {
    match s.timer
    case None => s
    case Some(id) =>
      var r := s.(timer := None, esp := s.esp.StopTimer(id).DeleteTimer(id));
      assert r.esp.trace == s.esp.trace + [TimerStop(id), TimerDelete(id)];
      r
  }

  /** Calling `provisioning_timer_delete` twice is the same as calling it once. */
  lemma ProvisioningTimerDeleteIdempotent(s: Sys)
    ensures ProvisioningTimerDelete(ProvisioningTimerDelete(s)) == ProvisioningTimerDelete(s)
  {
  }

  // ---------------------------------------------------------------------------
  // provisioning_timer_handler

  /** `provisioning_timer_handler`: only asks the manager to stop. The timer
      handle, the manager's initialisation, the running timers and the WiFi
      configuration are left as they were; teardown is the END handler's. */
  function ProvisioningTimerHandler(s: Sys): (r: Sys)
    ensures r.timer == s.timer && r.startupCfg == s.startupCfg
    ensures r.esp.currentCfg == s.esp.currentCfg && r.esp.provMgrInit == s.esp.provMgrInit
    ensures r.esp.armed == s.esp.armed && r.esp.resumeCount == s.esp.resumeCount
    ensures !r.esp.provisioning
    ensures r.esp.(provisioning := s.esp.provisioning, trace := s.esp.trace) == s.esp
    ensures r.esp.trace == s.esp.trace + [ProvMgrStopProvisioning]
  {
    s.(esp := s.esp.StopProvisioning())
  }

  // ---------------------------------------------------------------------------
  // wifi_prov_event_handler

  /** The `WIFI_PROV_END` case: tear the session down, then put the startup
      configuration back when the store holds no ssid, then resume reconnect.
      The configuration the session left is kept when it names a network;
      otherwise the store gets `startup_wifi_config`, which itself is never
      changed. */
  function ProvisioningEnd(s: Sys): (r: Sys)
    ensures r.timer == None
    ensures r.startupCfg == s.startupCfg
    ensures HasSsid(s.esp.currentCfg) ==> r.esp.currentCfg == s.esp.currentCfg
    ensures !HasSsid(s.esp.currentCfg) ==> r.esp.currentCfg == s.startupCfg
  {
    var t := ProvisioningTimerDelete(s);
    var e := t.esp.DeinitProvMgr().SetStorage().ReadConfig();
    var e' := if HasSsid(e.currentCfg) then e else e.WriteConfig(s.startupCfg);
    t.(esp := e'.ResumeReconnect())
  }

  /** On `WIFI_PROV_END` the manager is released, storage is flash, reconnect is
      resumed exactly once, and the session's timer is no longer running. */
  lemma EndReleasesSession(s: Sys)
    ensures var r := ProvisioningEnd(s);
            && !r.esp.provMgrInit && !r.esp.provisioning && r.esp.storageFlash
            && r.esp.resumeCount == s.esp.resumeCount + 1
            && r.esp.armed == if s.timer.Some? then s.esp.armed - {s.timer.value} else s.esp.armed
  {
  }

  /** The calls the END case makes after `provisioning_timer_delete`. */
  function EndCalls(s: Sys): (r: seq<Call>)
    ensures forall c :: c in r ==> !c.TimerDelete?
  {
    [ProvMgrDeinit, WifiSetStorageFlash, WifiGetConfig]
    + (if HasSsid(s.esp.currentCfg) then [] else [WifiSetConfig(s.startupCfg)])
    + [WifiReconnectResume]
  }

  lemma EndTrace(s: Sys)
    ensures ProvisioningEnd(s).esp.trace == ProvisioningTimerDelete(s).esp.trace + EndCalls(s)
  {
  }

  /** On `WIFI_PROV_END` the current timer handle, if any, is deleted once, and
      no other handle is. */
  lemma EndDeletesTimerOnce(s: Sys)
    ensures s.esp.trace <= ProvisioningEnd(s).esp.trace
    ensures forall id: nat :: DeleteCount(ProvisioningEnd(s).esp.trace, id)
                              == DeleteCount(s.esp.trace, id) + (if s.timer == Some(id) then 1 else 0)
  {
    var t := ProvisioningTimerDelete(s).esp.trace;
    var r := ProvisioningEnd(s).esp.trace;
    assert r == t + EndCalls(s) by { EndTrace(s); }
    AppendWithoutDelete(t, EndCalls(s));
  }

  /** Appending calls that delete no timer changes no delete count. */
  lemma AppendWithoutDelete(t: seq<Call>, u: seq<Call>)
    requires forall c :: c in u ==> !c.TimerDelete?
    ensures t <= t + u
    ensures forall id: nat :: DeleteCount(t + u, id) == DeleteCount(t, id)
  {
    assert multiset(t + u) == multiset(t) + multiset(u);
    forall id: nat ensures multiset(u)[TimerDelete(id)] == 0 {
      assert TimerDelete(id) !in u;
    }
  }

  /** `wifi_prov_event_handler`: every event but `WIFI_PROV_END` only logs, so
      it leaves the whole state as it was; a credential failure in particular
      does not end the session. */
  function WifiProvEventHandler(s: Sys, e: ProvEvent): (r: Sys)
    ensures !e.End? ==> r == s
    ensures e.End? ==> r == ProvisioningEnd(s)
  {
    match e
    case End => ProvisioningEnd(s)
    case _ => s
  }

  /** The three ways a session can leave the configuration. */
  datatype Outcome = CredentialsEstablished | FallbackToStartup | NoConnectivity

  function OutcomeOf(current: StaConfig, startup: StaConfig): Outcome
  {
    if HasSsid(current) then CredentialsEstablished
    else if HasSsid(startup) then FallbackToStartup
    else NoConnectivity
  }

  /** After `WIFI_PROV_END` the configuration is the one the session left when it
      names a network, otherwise the startup one; the store ends up naming a
      network exactly when one of the two did. */
  lemma EndReconciles(s: Sys)
    ensures var r := ProvisioningEnd(s);
            match OutcomeOf(s.esp.currentCfg, s.startupCfg)
            case CredentialsEstablished => r.esp.currentCfg == s.esp.currentCfg
            case FallbackToStartup => r.esp.currentCfg == s.startupCfg && HasSsid(r.esp.currentCfg)
            case NoConnectivity => !HasSsid(r.esp.currentCfg)
    ensures HasSsid(ProvisioningEnd(s).esp.currentCfg)
            <==> HasSsid(s.esp.currentCfg) || HasSsid(s.startupCfg)
  {
  }

  // ---------------------------------------------------------------------------
  // setup_wifi

  /** `setup_wifi(reconfigure)` from line 97 on, once `device_name` has been
      derived: `startup_wifi_config` becomes what the store holds at boot, and
      booting never writes the store. Everything proved about it holds for
      every device name, so in particular for the derived one. */
  function SetupWifiNamed(s: Sys, reconfigure: bool, deviceName: string, timeoutS: nat): (r: Sys)
    requires timeoutS <= MaxTimeoutS
    ensures r.startupCfg == s.esp.currentCfg
    ensures r.esp.currentCfg == s.esp.currentCfg
  {
    var e1 := s.esp.SetStorage().SetMode().SetHostnameSta(deviceName).StartReconnect().ReadConfig();
    var e2 := e1.RegisterHandler().InitProvMgr().QueryProvisioned();
    var s2 := s.(startupCfg := e1.currentCfg, esp := e2);
    if ProvisioningRequired(e2.provisionedInNvs, reconfigure) then
      var e3 := e2.StartProvisioning(ServiceName(deviceName));
      var id := e3.timersCreated;
      s2.(timer := Some(id), esp := e3.CreateTimer().StartTimerOnce(id, timeoutS * MicrosPerSecond))
    else
      s2.(esp := e2.DeinitProvMgr().StartWifi().ResumeReconnect())
  }

  /** `setup_wifi(reconfigure)`, with the project name from the application
      description, the MAC from the efuses and the configured timeout as
      inputs: derive the device name, then set up with it. */
  function SetupWifi(s: Sys, reconfigure: bool, projectName: string, mac: nat, timeoutS: nat): (r: Sys)
    requires mac < MacBound
    requires timeoutS <= MaxTimeoutS
    ensures r.startupCfg == s.esp.currentCfg
    ensures r.esp.currentCfg == s.esp.currentCfg
  {
    SetupWifiNamed(s, reconfigure, DeviceName(projectName, mac), timeoutS)
  }

  /** The calls `setup_wifi` makes before it branches (lines 103-122). */
  function BootCalls(name: string): seq<Call>
  {
    [WifiSetStorageFlash, WifiSetModeSta, SetHostname(name), WifiReconnectStart,
     WifiGetConfig, EventHandlerRegister, ProvMgrInit, ProvMgrIsProvisioned]
  }

  /** The calls of either branch of line 124. */
  function BranchCalls(required: bool, serviceName: string, id: nat, periodUs: nat): seq<Call>
  {
    if required then [ProvMgrStartProvisioning(serviceName), TimerCreate(id), TimerStartOnce(id, periodUs)]
    else [ProvMgrDeinit, WifiStart, WifiReconnectResume]
  }

  lemma SetupTrace(s: Sys, reconfigure: bool, deviceName: string, timeoutS: nat)
    requires timeoutS <= MaxTimeoutS
    ensures SetupWifiNamed(s, reconfigure, deviceName, timeoutS).esp.trace
            == s.esp.trace + BootCalls(deviceName)
               + BranchCalls(ProvisioningRequired(s.esp.provisionedInNvs, reconfigure),
                             ServiceName(deviceName),
                             s.esp.timersCreated, timeoutS * MicrosPerSecond)
  {
  }

  /** When the device is not provisioned or reconfiguration is asked for,
      provisioning is started under the service name of the device name and a
      one-shot timer of `timeoutS * 1000000` microseconds is armed, and its
      handle is kept; `esp_wifi_start` is not called and reconnect not resumed. */
  lemma SetupStartsProvisioning(s: Sys, reconfigure: bool, deviceName: string, timeoutS: nat)
    requires timeoutS <= MaxTimeoutS
    requires ProvisioningRequired(s.esp.provisionedInNvs, reconfigure)
    ensures var r := SetupWifiNamed(s, reconfigure, deviceName, timeoutS);
            && r.timer == Some(s.esp.timersCreated)
            && r.esp.armed == s.esp.armed + {s.esp.timersCreated}
            && r.esp.provMgrInit && r.esp.provisioning
            && r.esp.storageFlash && r.esp.reconnectStarted
            && r.esp.wifiStarted == s.esp.wifiStarted
            && r.esp.resumeCount == s.esp.resumeCount
            && ProvMgrStartProvisioning(ServiceName(deviceName)) in r.esp.trace
            && TimerStartOnce(s.esp.timersCreated, timeoutS * MicrosPerSecond) in r.esp.trace
  {
    var r := SetupWifiNamed(s, reconfigure, deviceName, timeoutS);
    SetupTrace(s, reconfigure, deviceName, timeoutS);
    var n := |s.esp.trace| + |BootCalls(deviceName)|;
    assert r.esp.trace[n] == ProvMgrStartProvisioning(ServiceName(deviceName));
    assert r.esp.trace[n + 2] == TimerStartOnce(s.esp.timersCreated, timeoutS * MicrosPerSecond);
  }

  /** The device advertises itself as "PROV_" followed by the whole device
      name derived from the project name and the MAC. */
  lemma SetupWifiAdvertisesDeviceName(s: Sys, reconfigure: bool, projectName: string, mac: nat, timeoutS: nat)
    requires mac < MacBound && timeoutS <= MaxTimeoutS
    requires ProvisioningRequired(s.esp.provisionedInNvs, reconfigure)
    ensures ProvMgrStartProvisioning(ServicePrefix + DeviceName(projectName, mac))
            in SetupWifi(s, reconfigure, projectName, mac, timeoutS).esp.trace
  {
    SetupStartsProvisioning(s, reconfigure, DeviceName(projectName, mac), timeoutS);
    ServiceNameNeverTruncated(projectName, mac);
  }

  /** When the device is provisioned and no reconfiguration is asked for, the
      manager is released, `esp_wifi_start` is called and reconnect resumed, and no
      timer is created. */
  lemma SetupConnects(s: Sys, reconfigure: bool, deviceName: string, timeoutS: nat)
    requires timeoutS <= MaxTimeoutS
    requires !ProvisioningRequired(s.esp.provisionedInNvs, reconfigure)
    ensures var r := SetupWifiNamed(s, reconfigure, deviceName, timeoutS);
            && r.timer == s.timer && r.esp.armed == s.esp.armed
            && r.esp.timersCreated == s.esp.timersCreated
            && !r.esp.provMgrInit && !r.esp.provisioning
            && r.esp.storageFlash && r.esp.reconnectStarted
            && r.esp.wifiStarted
            && r.esp.resumeCount == s.esp.resumeCount + 1
  {
  }

  // ---------------------------------------------------------------------------
  // Runs after boot

  datatype Stimulus =
    | Event(e: ProvEvent)     // delivered to wifi_prov_event_handler
    | Timeout                 // the esp_timer service finds the one-shot timer due
    | StoreWrite(cfg: StaConfig)  // the protocol layer stores received credentials

  /** The one-shot timer fires only while it is armed; then its callback runs. */
  function TimerFires(s: Sys): (r: Sys)
    ensures r.timer == s.timer && r.startupCfg == s.startupCfg
    ensures r.esp.currentCfg == s.esp.currentCfg && r.esp.provMgrInit == s.esp.provMgrInit
    ensures r.esp.resumeCount == s.esp.resumeCount
    ensures r.esp.armed <= s.esp.armed
    ensures (s.timer.None? || s.timer.value !in s.esp.armed) ==> r == s
    ensures s.timer.Some? && s.timer.value in s.esp.armed ==> !r.esp.provisioning
    ensures s.esp.trace <= r.esp.trace
    ensures forall id: nat :: DeleteCount(r.esp.trace, id) == DeleteCount(s.esp.trace, id)
  {
    match s.timer
    case Some(id) =>
      if id in s.esp.armed then ProvisioningTimerHandler(s.(esp := s.esp.ExpireTimer(id))) else s
    case None => s
  }

  function Step(s: Sys, x: Stimulus): Sys
  {
    match x
    case Event(e) => WifiProvEventHandler(s, e)
    case Timeout => TimerFires(s)
    case StoreWrite(cfg) => s.(esp := s.esp.ProtocolWrite(cfg))
  }

  function Run(s: Sys, xs: seq<Stimulus>): Sys
    decreases |xs|
  {
    if xs == [] then s else Run(Step(s, xs[0]), xs[1..])
  }

  lemma {:induction false} RunSnoc(s: Sys, xs: seq<Stimulus>, x: Stimulus)
    ensures Run(s, xs + [x]) == Step(Run(s, xs), x)
    decreases |xs|
  {
    if xs != [] {
      assert (xs + [x])[1..] == xs[1..] + [x];
      RunSnoc(Step(s, xs[0]), xs[1..], x);
    }
  }

  /** Events other than `WIFI_PROV_END`, in any number and order, change nothing. */
  lemma {:induction false} NonEndEventsChangeNothing(s: Sys, xs: seq<Stimulus>)
    requires forall i :: 0 <= i < |xs| ==> xs[i].Event? && !xs[i].e.End?
    ensures Run(s, xs) == s
    decreases |xs|
  {
    if xs != [] {
      NonEndEventsChangeNothing(s, xs[1..]);
    }
  }

  /** Nothing after boot ever changes `startup_wifi_config`, and calls are only
      ever appended to the trace. */
  lemma {:induction false} RunKeepsStartupConfig(s: Sys, xs: seq<Stimulus>)
    ensures Run(s, xs).startupCfg == s.startupCfg
    ensures s.esp.trace <= Run(s, xs).esp.trace
    decreases |xs|
  {
    if xs != [] {
      RunKeepsStartupConfig(Step(s, xs[0]), xs[1..]);
    }
  }

  /** Reconnect is resumed once per `WIFI_PROV_END` and at no other time. */
  lemma {:induction false} RunResumesOncePerEnd(s: Sys, xs: seq<Stimulus>)
    ensures Run(s, xs).esp.resumeCount == s.esp.resumeCount + multiset(xs)[Event(End)]
    decreases |xs|
  {
    if xs != [] {
      assert xs == [xs[0]] + xs[1..];
      assert multiset(xs) == multiset{xs[0]} + multiset(xs[1..]);
      RunResumesOncePerEnd(Step(s, xs[0]), xs[1..]);
    }
  }

  /** The teardown discipline: no timer handle is ever deleted twice, the
      current handle has not been deleted, and only the current timer can be
      running. */
  ghost predicate SessionInv(s: Sys)
  {
    && (forall id :: DeleteCount(s.esp.trace, id) <= 1)
    && (s.timer.Some? ==> DeleteCount(s.esp.trace, s.timer.value) == 0)
    && (forall id :: id in s.esp.armed ==> s.timer == Some(id))
  }

  lemma StepKeepsSessionInv(s: Sys, x: Stimulus)
    requires SessionInv(s)
    ensures SessionInv(Step(s, x))
  {
    if x == Event(End) {
      EndDeletesTimerOnce(s);
      EndReleasesSession(s);
    }
  }

  lemma {:induction false} RunKeepsSessionInv(s: Sys, xs: seq<Stimulus>)
    requires SessionInv(s)
    ensures SessionInv(Run(s, xs))
    decreases |xs|
  {
    if xs != [] {
      StepKeepsSessionInv(s, xs[0]);
      RunKeepsSessionInv(Step(s, xs[0]), xs[1..]);
    }
  }

  /** Whatever happened before, once `WIFI_PROV_END` has been handled there is no
      timer handle and no running timer, the manager is released, and the store
      names a network or holds the startup configuration. */
  lemma EndClosesSession(s: Sys, xs: seq<Stimulus>)
    requires SessionInv(s)
    ensures var r := Run(s, xs + [Event(End)]);
            && r.timer == None && r.esp.armed == {}
            && !r.esp.provMgrInit && !r.esp.provisioning
            && r.startupCfg == s.startupCfg
            && (HasSsid(r.esp.currentCfg) || r.esp.currentCfg == s.startupCfg)
  {
    RunSnoc(s, xs, Event(End));
    RunKeepsSessionInv(s, xs);
    RunKeepsStartupConfig(s, xs);
  }

  // ---------------------------------------------------------------------------
  // Order of calls

  /** Calls that rely on the reconnection engine listening: `esp_wifi_start`,
      starting provisioning (which connects on received credentials), and
      resuming reconnect. */
  predicate NeedsReconnectEngine(c: Call)
  {
    c.ProvMgrStartProvisioning? || c.WifiStart? || c.WifiReconnectResume?
  }

  predicate UsesConfigStore(c: Call)
  {
    c.WifiGetConfig? || c.WifiSetConfig?
  }

  /** `wifi_reconnect_start` comes before every call that may connect. */
  predicate ReconnectStartedFirst(t: seq<Call>)
  {
    forall j :: 0 <= j < |t| && NeedsReconnectEngine(t[j]) ==> WifiReconnectStart in t[..j]
  }

  /** Storage is set to flash before the configuration store is read or written. */
  predicate FlashStorageFirst(t: seq<Call>)
  {
    forall j :: 0 <= j < |t| && UsesConfigStore(t[j]) ==> WifiSetStorageFlash in t[..j]
  }

  /** The calls of `setup_wifi`, on either branch, are in a safe order. */
  lemma SetupCallsOrder(name: string, required: bool, serviceName: string, id: nat, periodUs: nat)
    ensures var t := BootCalls(name) + BranchCalls(required, serviceName, id, periodUs);
            && ReconnectStartedFirst(t) && FlashStorageFirst(t)
            && WifiReconnectStart in t && WifiSetStorageFlash in t
            && forall i :: TimerDelete(i) !in t
  {
    var t := BootCalls(name) + BranchCalls(required, serviceName, id, periodUs);
    assert t[0] == WifiSetStorageFlash && t[3] == WifiReconnectStart;
    forall j | 4 <= j < |t|
      ensures WifiReconnectStart in t[..j] && WifiSetStorageFlash in t[..j]
    {
      assert t[..j][0] == WifiSetStorageFlash && t[..j][3] == WifiReconnectStart;
    }
  }

  lemma SetupOrder(cfg: StaConfig, provisioned: bool, reconfigure: bool,
                   deviceName: string, timeoutS: nat)
    requires timeoutS <= MaxTimeoutS
    ensures var t := SetupWifiNamed(Boot(cfg, provisioned), reconfigure, deviceName, timeoutS).esp.trace;
            && ReconnectStartedFirst(t) && FlashStorageFirst(t)
            && WifiReconnectStart in t && WifiSetStorageFlash in t
            && forall i :: TimerDelete(i) !in t
  {
    var s0 := Boot(cfg, provisioned);
    var t := SetupWifiNamed(s0, reconfigure, deviceName, timeoutS).esp.trace;
    var u := BootCalls(deviceName) + BranchCalls(ProvisioningRequired(provisioned, reconfigure), ServiceName(deviceName),
                                           s0.esp.timersCreated, timeoutS * MicrosPerSecond);
    SetupTrace(s0, reconfigure, deviceName, timeoutS);
    assert s0.esp.trace + u == u;
    assert t == u;
    SetupCallsOrder(deviceName, ProvisioningRequired(provisioned, reconfigure), ServiceName(deviceName),
                    s0.esp.timersCreated, timeoutS * MicrosPerSecond);
  }

  /** Once reconnect has started and storage is flash, whatever is appended
      keeps the safe order. */
  lemma OrderSurvivesAppend(t: seq<Call>, r: seq<Call>)
    requires ReconnectStartedFirst(t) && FlashStorageFirst(t)
    requires WifiReconnectStart in t && WifiSetStorageFlash in t
    requires t <= r
    ensures ReconnectStartedFirst(r) && FlashStorageFirst(r)
  {
    forall j | |t| <= j < |r|
      ensures WifiReconnectStart in r[..j] && WifiSetStorageFlash in r[..j]
    {
      assert r[..j][..|t|] == t;
    }
    forall j | 0 <= j < |t|
      ensures r[..j] == t[..j]
    {
    }
  }

  /** Any run from a state whose calls are in a safe order and which keeps the
      session invariant stays so; the startup configuration does not change,
      and reconnect is resumed once more per END. */
  lemma RunFromSetup(s0: Sys, xs: seq<Stimulus>)
    requires ReconnectStartedFirst(s0.esp.trace) && FlashStorageFirst(s0.esp.trace)
    requires WifiReconnectStart in s0.esp.trace && WifiSetStorageFlash in s0.esp.trace
    requires SessionInv(s0)
    ensures var r := Run(s0, xs);
            && ReconnectStartedFirst(r.esp.trace) && FlashStorageFirst(r.esp.trace)
            && SessionInv(r)
            && r.startupCfg == s0.startupCfg
            && r.esp.resumeCount == s0.esp.resumeCount + multiset(xs)[Event(End)]
  {
    RunKeepsOrder(s0, xs);
    RunKeepsStartupConfig(s0, xs);
    RunKeepsSessionInv(s0, xs);
    RunResumesOncePerEnd(s0, xs);
  }

  /** A run only appends calls, so it keeps a safe order once reconnect has
      started and storage is flash. */
  lemma RunKeepsOrder(s0: Sys, xs: seq<Stimulus>)
    requires ReconnectStartedFirst(s0.esp.trace) && FlashStorageFirst(s0.esp.trace)
    requires WifiReconnectStart in s0.esp.trace && WifiSetStorageFlash in s0.esp.trace
    ensures ReconnectStartedFirst(Run(s0, xs).esp.trace) && FlashStorageFirst(Run(s0, xs).esp.trace)
  {
    var t := s0.esp.trace;
    var r := Run(s0, xs).esp.trace;
    assert t <= r by { RunKeepsStartupConfig(s0, xs); }
    OrderSurvivesAppend(t, r);
  }

  /** The whole life of the device: boot, then any stimuli. The reconnection
      engine is started before anything may connect and storage is flash before
      the store is touched, on both branches; no timer is deleted twice;
      `startup_wifi_config` is the configuration found at boot throughout; and
      reconnect is resumed once for the non-provisioning boot and once per END. */
  lemma BootThenRun(cfg: StaConfig, provisioned: bool, reconfigure: bool,
                    deviceName: string, timeoutS: nat, xs: seq<Stimulus>)
    requires timeoutS <= MaxTimeoutS
    ensures var s0 := SetupWifiNamed(Boot(cfg, provisioned), reconfigure, deviceName, timeoutS);
            var r := Run(s0, xs);
            && ReconnectStartedFirst(r.esp.trace) && FlashStorageFirst(r.esp.trace)
            && SessionInv(r)
            && r.startupCfg == cfg
            && r.esp.resumeCount
               == (if ProvisioningRequired(provisioned, reconfigure) then 0 else 1)
                  + multiset(xs)[Event(End)]
  {
    var s0 := SetupWifiNamed(Boot(cfg, provisioned), reconfigure, deviceName, timeoutS);
    SetupOrder(cfg, provisioned, reconfigure, deviceName, timeoutS);
    SetupEstablishesSessionInv(cfg, provisioned, reconfigure, deviceName, timeoutS);
    if ProvisioningRequired(provisioned, reconfigure) {
      SetupStartsProvisioning(Boot(cfg, provisioned), reconfigure, deviceName, timeoutS);
    } else {
      SetupConnects(Boot(cfg, provisioned), reconfigure, deviceName, timeoutS);
    }
    RunFromSetup(s0, xs);
  }

  lemma SetupEstablishesSessionInv(cfg: StaConfig, provisioned: bool, reconfigure: bool,
                                   deviceName: string, timeoutS: nat)
    requires timeoutS <= MaxTimeoutS
    ensures SessionInv(SetupWifiNamed(Boot(cfg, provisioned), reconfigure, deviceName, timeoutS))
  {
    var s0 := Boot(cfg, provisioned);
    var s := SetupWifiNamed(s0, reconfigure, deviceName, timeoutS);
    SetupOrder(cfg, provisioned, reconfigure, deviceName, timeoutS);
    if ProvisioningRequired(provisioned, reconfigure) {
      SetupStartsProvisioning(s0, reconfigure, deviceName, timeoutS);
    } else {
      SetupConnects(s0, reconfigure, deviceName, timeoutS);
    }
    FreshSessionInv(s);
  }

  /** A state in which no handle was ever deleted, and whose running timers are
      at most the current one, satisfies the session invariant. */
  lemma FreshSessionInv(s: Sys)
    requires forall i :: TimerDelete(i) !in s.esp.trace
    requires s.esp.armed <= if s.timer.Some? then {s.timer.value} else {}
    ensures SessionInv(s)
  {
    forall id: nat ensures DeleteCount(s.esp.trace, id) == 0 {
      assert TimerDelete(id) !in s.esp.trace;
    }
  }
}
