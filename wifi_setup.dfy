/** wifi_setup.c as the firmware runs it: the two file-scope variables are the
    fields of a `Provisioner`, the platform is the `Esp` object it drives, and
    each function of the file is a method that makes the platform calls in the
    order the C code makes them. Every method is proved to leave the state that
    the matching function of module Provisioning describes, so what is proved
    there about sessions, teardown and call order holds of these methods. */
module WifiSetup {
  import opened Platform
  import opened Naming
  import opened Provisioning

  class Provisioner {
    /** `provisioning_timer`; `None` is the NULL handle. */
    var provisioningTimer: Option<nat>
    /** `startup_wifi_config`, its station part. */
    var startupWifiConfig: StaConfig
    const esp: Esp

    ghost function State(): Sys
      reads this, esp
    {
      Sys(provisioningTimer, startupWifiConfig, esp.State())
    }

    /** The static initialisers: a NULL handle and an all-zero configuration. */
    constructor (platform: Esp)
      ensures esp == platform
      ensures State() == Sys(None, ZeroConfig, platform.State())
    {
      provisioningTimer := None;
      startupWifiConfig := ZeroConfig;
      esp := platform;
    }

    /** `provisioning_timer_delete` (wifi_setup.c:15-23). */
    method ProvisioningTimerDelete()
      modifies this, esp
      ensures State() == Provisioning.ProvisioningTimerDelete(old(State()))
    {
      if provisioningTimer.Some? {
        var id := provisioningTimer.value;
        esp.StopTimer(id);
        esp.DeleteTimer(id);
        provisioningTimer := None;
      }
    }

    /** `provisioning_timer_handler` (wifi_setup.c:25-30), run by the timer
        service when the one-shot timer expires. */
    method ProvisioningTimerHandler()
      modifies esp
      ensures State() == Provisioning.ProvisioningTimerHandler(old(State()))
    {
      esp.StopProvisioning();
    }

    /** `wifi_prov_event_handler` (wifi_setup.c:32-81). */
    method WifiProvEventHandler(e: ProvEvent)
      modifies this, esp
      ensures State() == Provisioning.WifiProvEventHandler(old(State()), e)
    {
      match e
      case End =>
        ProvisioningTimerDelete();
        esp.DeinitProvMgr();
        esp.SetStorage();
        var currentCfg := esp.ReadConfig();
        if !HasSsid(currentCfg) {
          esp.WriteConfig(startupWifiConfig);
        }
        esp.ResumeReconnect();
      case _ =>
    }

    /** `setup_wifi(reconfigure)` (wifi_setup.c:83-151); the project name and
        the MAC are what the application description and the efuses hold, and
        `timeoutS` is `APP_WIFI_PROV_TIMEOUT_S`. */
    method SetupWifi(reconfigure: bool, projectName: string, mac: nat, timeoutS: nat)
      requires mac < MacBound
      requires timeoutS <= MaxTimeoutS
      modifies this, esp
      ensures State() == Provisioning.SetupWifi(old(State()), reconfigure, projectName, mac, timeoutS)
    {
      var deviceName := DeviceName(projectName, mac);
      SetupWifiNamed(reconfigure, deviceName, timeoutS);
    }

    /** The rest of `setup_wifi` once `device_name` is derived
        (wifi_setup.c:97-150). */
    method SetupWifiNamed(reconfigure: bool, deviceName: string, timeoutS: nat)
      requires timeoutS <= MaxTimeoutS
      modifies this, esp
      ensures State() == Provisioning.SetupWifiNamed(old(State()), reconfigure, deviceName, timeoutS)
    {
      ghost var s := State();
      esp.SetStorage();
      esp.SetMode();
      esp.SetHostnameSta(deviceName);
      esp.StartReconnect();
      startupWifiConfig := esp.ReadConfig();
      ghost var e1 := esp.State();
      assert e1 == s.esp.SetStorage().SetMode().SetHostnameSta(deviceName).StartReconnect().ReadConfig();
      assert startupWifiConfig == e1.currentCfg;
      esp.RegisterHandler();
      esp.InitProvMgr();
      var provisioned := esp.QueryProvisioned();
      ghost var e2 := esp.State();
      assert e2 == e1.RegisterHandler().InitProvMgr().QueryProvisioned();
      assert provisioned == e2.provisionedInNvs;
      ghost var s2 := s.(startupCfg := e1.currentCfg, esp := e2);
      if !provisioned || reconfigure {
        var serviceName := ServiceName(deviceName);
        esp.StartProvisioning(serviceName);
        var id := esp.CreateTimer();
        provisioningTimer := Some(id);
        esp.StartTimerOnce(id, timeoutS * MicrosPerSecond);
        assert id == e2.StartProvisioning(serviceName).timersCreated;
        assert State() == s2.(timer := Some(id), esp := e2.StartProvisioning(serviceName).CreateTimer().StartTimerOnce(id, timeoutS * MicrosPerSecond));
      } else {
        esp.DeinitProvMgr();
        esp.StartWifi();
        esp.ResumeReconnect();
        assert State() == s2.(esp := e2.DeinitProvMgr().StartWifi().ResumeReconnect());
      }
    }
  }
}
