/** The ESP-IDF services that wifi_setup.c drives, seen only at their interface:
    the WiFi driver and its configuration store, the provisioning manager, the
    esp_timer service and the reconnection component. Their internals are not
    part of this model; each call is an abstract state change plus an entry in
    a trace of calls, so that the order of calls can be stated. */
module Platform {

  newtype byte = x: int | 0 <= x < 256

  datatype Option<T> = None | Some(value: T)

  /** The station part of `wifi_config_t`: the `ssid` and `password` arrays. */
  datatype StaConfig = StaConfig(ssid: seq<byte>, password: seq<byte>)

  /** `cfg.sta.ssid[0] != '\0'`: the configuration names a network. */
  predicate HasSsid(c: StaConfig)
  {
    |c.ssid| > 0 && c.ssid[0] != 0
  }

  function Zeros(n: nat): (z: seq<byte>)
    ensures |z| == n && forall i :: 0 <= i < n ==> z[i] == 0
  {
    if n == 0 then [] else [0] + Zeros(n - 1)
  }

  /** `wifi_config_t cfg = {}`: a 32-byte ssid and a 64-byte password, all zero. */
  const ZeroConfig: StaConfig := StaConfig(Zeros(32), Zeros(64))

  /** `wifi_prov_sta_fail_reason_t`. */
  datatype FailReason = AuthError | ApNotFound

  /** The events of the `WIFI_PROV_EVENT` base, with their payloads; `Other`
      stands for every id the handler has no case for. */
  datatype ProvEvent =
    | Start
    | CredRecv(ssid: seq<byte>)
    | CredFail(reason: FailReason)
    | CredSuccess
    | End
    | Other(id: int)

  /** One call made by wifi_setup.c into the platform, in the order made. */
  datatype Call =
    | WifiSetStorageFlash
    | WifiSetModeSta
    | SetHostname(name: string)
    | WifiReconnectStart
    | WifiGetConfig
    | WifiSetConfig(cfg: StaConfig)
    | EventHandlerRegister
    | ProvMgrInit
    | ProvMgrIsProvisioned
    | ProvMgrStartProvisioning(serviceName: string)
    | ProvMgrStopProvisioning
    | ProvMgrDeinit
    | TimerCreate(id: nat)
    | TimerStartOnce(id: nat, periodUs: nat)
    | TimerStop(id: nat)
    | TimerDelete(id: nat)
    | WifiStart
    | WifiReconnectResume

  /** The abstract state of the platform. `provisionedInNvs` is what
      `wifi_prov_mgr_is_provisioned` reports; `timersCreated` numbers the
      esp_timer handles; `armed` holds the handles of the one-shot timers that
      are running. */
  datatype EspState = EspState(
    currentCfg: StaConfig,
    provisionedInNvs: bool,
    storageFlash: bool,
    provMgrInit: bool,
    provisioning: bool,
    reconnectStarted: bool,
    wifiStarted: bool,
    resumeCount: nat,
    timersCreated: nat,
    armed: set<nat>,
    trace: seq<Call>)
  {
    /** `esp_wifi_set_storage(WIFI_STORAGE_FLASH)` */
    function SetStorage(): EspState
    {
      this.(storageFlash := true, trace := trace + [WifiSetStorageFlash])
    }

    /** `esp_wifi_set_mode(WIFI_MODE_STA)` */
    function SetMode(): EspState
    {
      this.(trace := trace + [WifiSetModeSta])
    }

    /** `tcpip_adapter_set_hostname(TCPIP_ADAPTER_IF_STA, name)` */
    function SetHostnameSta(name: string): EspState
    {
      this.(trace := trace + [SetHostname(name)])
    }

    /** `wifi_reconnect_start()` */
    function StartReconnect(): EspState
    {
      this.(reconnectStarted := true, trace := trace + [WifiReconnectStart])
    }

    /** `esp_wifi_get_config(ESP_IF_WIFI_STA, ...)`; the value read is `currentCfg`. */
    function ReadConfig(): EspState
    {
      this.(trace := trace + [WifiGetConfig])
    }

    /** `esp_wifi_set_config(ESP_IF_WIFI_STA, &cfg)` */
    function WriteConfig(cfg: StaConfig): EspState
    {
      this.(currentCfg := cfg, trace := trace + [WifiSetConfig(cfg)])
    }

    /** `esp_event_handler_register(WIFI_PROV_EVENT, ESP_EVENT_ANY_ID, ...)` */
    function RegisterHandler(): EspState
    {
      this.(trace := trace + [EventHandlerRegister])
    }

    /** `wifi_prov_mgr_init(...)` */
    function InitProvMgr(): EspState
    {
      this.(provMgrInit := true, trace := trace + [ProvMgrInit])
    }

    /** `wifi_prov_mgr_is_provisioned(&provisioned)`; the answer is `provisionedInNvs`. */
    function QueryProvisioned(): EspState
    {
      this.(trace := trace + [ProvMgrIsProvisioned])
    }

    /** `wifi_prov_mgr_start_provisioning(..., service_name, ...)` */
    function StartProvisioning(serviceName: string): EspState
    {
      this.(provisioning := true, trace := trace + [ProvMgrStartProvisioning(serviceName)])
    }

    /** `wifi_prov_mgr_stop_provisioning()` */
    function StopProvisioning(): EspState
    {
      this.(provisioning := false, trace := trace + [ProvMgrStopProvisioning])
    }

    /** `wifi_prov_mgr_deinit()`: releases the manager and any running service. */
    function DeinitProvMgr(): EspState
    {
      this.(provMgrInit := false, provisioning := false, trace := trace + [ProvMgrDeinit])
    }

    /** `esp_timer_create(...)`: the new handle is `timersCreated`. */
    function CreateTimer(): EspState
    {
      this.(timersCreated := timersCreated + 1, trace := trace + [TimerCreate(timersCreated)])
    }

    /** `esp_timer_start_once(id, periodUs)` */
    function StartTimerOnce(id: nat, periodUs: nat): EspState
    {
      this.(armed := armed + {id}, trace := trace + [TimerStartOnce(id, periodUs)])
    }

    /** `esp_timer_stop(id)`; stopping a timer that is not running changes nothing. */
    function StopTimer(id: nat): EspState
    {
      this.(armed := armed - {id}, trace := trace + [TimerStop(id)])
    }

    /** `esp_timer_delete(id)` */
    function DeleteTimer(id: nat): EspState
    {
      this.(armed := armed - {id}, trace := trace + [TimerDelete(id)])
    }

    /** `esp_wifi_start()` */
    function StartWifi(): EspState
    {
      this.(wifiStarted := true, trace := trace + [WifiStart])
    }

    /** `wifi_reconnect_resume()` */
    function ResumeReconnect(): EspState
    {
      this.(resumeCount := resumeCount + 1, trace := trace + [WifiReconnectResume])
    }

    /** Not a call of wifi_setup.c: the esp_timer service finds the one-shot
        timer `id` due and disarms it before running its callback. */
    function ExpireTimer(id: nat): EspState
    {
      this.(armed := armed - {id})
    }

    /** Not a call of wifi_setup.c: the provisioning protocol layer stores the
        credentials it received into the configuration store. */
    function ProtocolWrite(cfg: StaConfig): EspState
    {
      this.(currentCfg := cfg)
    }
  }

  /** The platform at power-on: the store holds `cfg` from flash, nothing has
      been called yet. */
  function PowerOn(cfg: StaConfig, provisionedInNvs: bool): (e: EspState)
    ensures e.currentCfg == cfg && e.provisionedInNvs == provisionedInNvs
    ensures e.trace == [] && e.armed == {} && e.resumeCount == 0
    ensures !e.provMgrInit && !e.provisioning && !e.reconnectStarted && !e.wifiStarted
  {
    EspState(cfg, provisionedInNvs, false, false, false, false, false, 0, 0, {}, [])
  }

  /** The platform as one object whose state the calls of wifi_setup.c change.
      The configuration store and the timer counter are read by the code, so
      they are real fields; the rest is bookkeeping and ghost. */
  class Esp {
    var currentCfg: StaConfig
    var timersCreated: nat
    const provisionedInNvs: bool
    ghost var storageFlash: bool
    ghost var provMgrInit: bool
    ghost var provisioning: bool
    ghost var reconnectStarted: bool
    ghost var wifiStarted: bool
    ghost var resumeCount: nat
    ghost var armed: set<nat>
    ghost var trace: seq<Call>

    ghost function State(): EspState
      reads this
    {
      EspState(currentCfg, provisionedInNvs, storageFlash, provMgrInit, provisioning,
               reconnectStarted, wifiStarted, resumeCount, timersCreated, armed, trace)
    }

    constructor (cfg: StaConfig, provisioned: bool)
      ensures State() == PowerOn(cfg, provisioned)
    {
      currentCfg, timersCreated, provisionedInNvs := cfg, 0, provisioned;
      storageFlash, provMgrInit, provisioning := false, false, false;
      reconnectStarted, wifiStarted, resumeCount := false, false, 0;
      armed, trace := {}, [];
    }

    method SetStorage()
      modifies this
      ensures State() == old(State()).SetStorage()
    {
      storageFlash := true;
      trace := trace + [WifiSetStorageFlash];
    }

    method SetMode()
      modifies this
      ensures State() == old(State()).SetMode()
    {
      trace := trace + [WifiSetModeSta];
    }

    method SetHostnameSta(name: string)
      modifies this
      ensures State() == old(State()).SetHostnameSta(name)
    {
      trace := trace + [SetHostname(name)];
    }

    method StartReconnect()
      modifies this
      ensures State() == old(State()).StartReconnect()
    {
      reconnectStarted := true;
      trace := trace + [WifiReconnectStart];
    }

    method ReadConfig() returns (cfg: StaConfig)
      modifies this
      ensures cfg == old(currentCfg)
      ensures State() == old(State()).ReadConfig()
    {
      cfg := currentCfg;
      trace := trace + [WifiGetConfig];
    }

    method WriteConfig(cfg: StaConfig)
      modifies this
      ensures State() == old(State()).WriteConfig(cfg)
    {
      currentCfg := cfg;
      trace := trace + [WifiSetConfig(cfg)];
    }

    method RegisterHandler()
      modifies this
      ensures State() == old(State()).RegisterHandler()
    {
      trace := trace + [EventHandlerRegister];
    }

    method InitProvMgr()
      modifies this
      ensures State() == old(State()).InitProvMgr()
    {
      provMgrInit := true;
      trace := trace + [ProvMgrInit];
    }

    method QueryProvisioned() returns (provisioned: bool)
      modifies this
      ensures provisioned == provisionedInNvs
      ensures State() == old(State()).QueryProvisioned()
    {
      provisioned := provisionedInNvs;
      trace := trace + [ProvMgrIsProvisioned];
    }

    method StartProvisioning(serviceName: string)
      modifies this
      ensures State() == old(State()).StartProvisioning(serviceName)
    {
      provisioning := true;
      trace := trace + [ProvMgrStartProvisioning(serviceName)];
    }

    method StopProvisioning()
      modifies this
      ensures State() == old(State()).StopProvisioning()
    {
      provisioning := false;
      trace := trace + [ProvMgrStopProvisioning];
    }

    method DeinitProvMgr()
      modifies this
      ensures State() == old(State()).DeinitProvMgr()
    {
      provMgrInit, provisioning := false, false;
      trace := trace + [ProvMgrDeinit];
    }

    method CreateTimer() returns (id: nat)
      modifies this
      ensures id == old(timersCreated)
      ensures State() == old(State()).CreateTimer()
    {
      id := timersCreated;
      timersCreated := timersCreated + 1;
      trace := trace + [TimerCreate(id)];
    }

    method StartTimerOnce(id: nat, periodUs: nat)
      modifies this
      ensures State() == old(State()).StartTimerOnce(id, periodUs)
    {
      armed := armed + {id};
      trace := trace + [TimerStartOnce(id, periodUs)];
    }

    method StopTimer(id: nat)
      modifies this
      ensures State() == old(State()).StopTimer(id)
    {
      armed := armed - {id};
      trace := trace + [TimerStop(id)];
    }

    method DeleteTimer(id: nat)
      modifies this
      ensures State() == old(State()).DeleteTimer(id)
    {
      armed := armed - {id};
      trace := trace + [TimerDelete(id)];
    }

    method StartWifi()
      modifies this
      ensures State() == old(State()).StartWifi()
    {
      wifiStarted := true;
      trace := trace + [WifiStart];
    }

    method ResumeReconnect()
      modifies this
      ensures State() == old(State()).ResumeReconnect()
    {
      resumeCount := resumeCount + 1;
      trace := trace + [WifiReconnectResume];
    }
  }
}
