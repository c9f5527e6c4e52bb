# WiFi setup and provisioning session of esp-app-template, in Dafny

`main/wifi_setup.c` brings up the station interface of an ESP32 application.
At boot it derives a device name from the project name and the factory MAC
address. Then it does one of two things:

- if the device holds no WiFi credentials, or reconfiguration is asked for,
  it starts a BLE provisioning session guarded by a one-shot timeout timer;
- otherwise it connects directly with the stored configuration.

When the provisioning manager reports `WIFI_PROV_END`, the file tears the
session down. It then reconciles the station configuration: if the store
holds no network after the session, it restores the configuration captured
at boot (`startup_wifi_config`).

The model has five modules:

- `Naming` (naming.dfy): the two `snprintf` calls that build `device_name`
  (`"%.25s-%06llx"` into 33 bytes) and `service_name` (`"PROV_%s"` into 38
  bytes). Each is a pure function. It follows the rules of ISO/IEC 9899:2011:
  - section 7.21.6.1: a precision cuts a `%s` argument, and the `0` flag with
    a width pads to a *minimum* width;
  - section 7.21.6.5: `snprintf` keeps at most size - 1 characters.
- `Platform` (platform.dfy): the part of ESP-IDF that the file drives.
  - It includes the WiFi configuration store, the provisioning manager, the
    reconnect component, the timer service, and a trace of the calls made.
  - `EspState` is this platform as a value, with one member function per
    call. The class `Esp` holds the same state as fields, and each of its
    methods is proved to match its member function.
- `Provisioning` (provisioning.dfy): each function of wifi_setup.c as a
  function from the state before to the state after.
  - The state `Sys` holds `provisioning_timer`, `startup_wifi_config` and the
    platform.
  - `Run` plays any sequence of stimuli after boot: provisioning events, the
    timer firing, and writes of received credentials by the protocol layer.
  - The lemmas cover teardown, reconciliation, call order and the session
    invariant over whole runs.
- `WifiSetup` (wifi_setup.dfy): the class `Provisioner`, with the two
  file-scope variables as fields and the file's functions as methods.
  - Each method makes the platform calls in the order the C code makes them.
  - Each method is proved to leave exactly the state that the matching
    `Provisioning` function describes.
- `Scenarios` (scenarios.dfy): whole sessions from power-on, for every
  device name:
  - the boot decision;
  - a timeout with no stored network;
  - credentials received before the deadline;
  - a forced reconfiguration that times out.

`setup_wifi` is split at the point where `device_name` is ready:
`Provisioning.SetupWifi` derives the name and hands it to
`Provisioning.SetupWifiNamed`, which does the rest. The setup lemmas are
stated for every device name, so they hold in particular for the derived one.

The model follows the code where it says less than a plain reading would
suggest:

- The MAC is printed with a minimum of six hexadecimal digits, not a fixed
  width. With a long project name, `snprintf` cuts the trailing digits. At
  least six digits always remain (`Naming.DeviceNameShape`).
- At `WIFI_PROV_END`, the startup configuration is written back whenever the
  current ssid starts with NUL. This happens even when the startup
  configuration is empty too; the `else if` branch at lines 69-73 only logs.
- `WIFI_PROV_END` handled a second time deletes no timer: the handle is
  already NULL. It does deinitialise the manager, reconcile and resume
  reconnect again.

## Model

| member | source | states |
|---|---|---|
| Naming.Hex | main/wifi_setup.c:94 | `%llx` renders at least one lowercase hexadecimal digit, with a leading zero only for the value zero |
| Naming.HexRoundTrip | main/wifi_setup.c:94 | reading the rendered digits back gives the number |
| Naming.MacHexLength | main/wifi_setup.c:90-91 | a MAC below 2^48 renders in 1 to 12 digits |
| Naming.ZeroPad | main/wifi_setup.c:94 | the `0` flag with a width: the length is the larger of the two; the conversion is kept whole, with zeros before it |
| Naming.PaddedHexRoundTrip | main/wifi_setup.c:94 | `%06llx` output is all hex digits and still reads back as the number |
| Naming.CString | main/wifi_setup.c:130 | `%s` reads the longest NUL-free prefix, which stops at a NUL or at the end of the array |
| Naming.StringWithPrecision | main/wifi_setup.c:94 | `%.25s` gives a NUL-free prefix of at most 25 characters, shorter only at a NUL or at the end |
| Naming.ProjectPart | main/wifi_setup.c:94 | `%.25s` of the project name: a NUL-free prefix of at most 25 characters, shorter only at a NUL or at the end of the array |
| Naming.MacDigits | main/wifi_setup.c:94 | `%06llx` of the MAC: exactly max(digits of `%llx`, 6) hexadecimal digits, which read back as the MAC |
| Naming.FullDeviceName | main/wifi_setup.c:94 | the uncut output of `"%.25s-%06llx"`: the project part, then "-", then the MAC's digits. At least project length + 7 long, with no NUL |
| Naming.Truncate | main/wifi_setup.c:94 | `snprintf` keeps a prefix of the output: all of it if it fits, otherwise exactly size - 1 characters |
| Naming.DeviceName | main/wifi_setup.c:93-94 | `device_name` is a prefix of the formatted text, at most 32 characters long |
| Naming.ServiceName | main/wifi_setup.c:129-130 | `service_name` is a prefix of "PROV_" + the C string of `device_name`, at most 37 characters long |
| Naming.DeviceNameShape | main/wifi_setup.c:90-94 | the device name is the project name cut to 25, then "-", then a prefix of 6 to 12 padded hex digits. Its length is min(full length, 32). At least 6 digits always survive. It holds no NUL |
| Naming.DeviceNameKeepsMac | main/wifi_setup.c:90-94 | when the formatted text fits, nothing is cut, and the digits after the dash read back as the MAC |
| Naming.ServiceNameNeverTruncated | main/wifi_setup.c:129-130 | for every project name and MAC, the service name is exactly "PROV_" + device name, at most 37 characters: it is never cut |
| Naming.LongNameIsCut | main/wifi_setup.c:93-94 | "MyApp-LongNameThatExceedsLimit" with MAC 0xabc123456789 gives "MyApp-LongNameThatExceeds-abc123" |
| Provisioning.ProvisioningTimerDelete | main/wifi_setup.c:15-23 | afterwards the handle is NULL. With no handle nothing changes. Otherwise the timer is disarmed and its handle deleted exactly once, calls are only appended, and every other part of the platform and `startup_wifi_config` are unchanged |
| Provisioning.Boot | main/wifi_setup.c:12-13 | the power-on state: a NULL timer handle, an all-zero `startup_wifi_config` naming no network, and the platform as it powers on |
| Provisioning.ProvisioningTimerDeleteIdempotent | main/wifi_setup.c:15-23 | a second call changes nothing |
| Provisioning.ProvisioningTimerHandler | main/wifi_setup.c:25-30 | the timer callback only stops provisioning. The handle, `startup_wifi_config` and every other part of the platform are unchanged; the one call made is the stop |
| Provisioning.ProvisioningEnd | main/wifi_setup.c:53-76 | after END the handle is NULL and `startup_wifi_config` is unchanged. A current configuration with an ssid is kept; otherwise it becomes `startup_wifi_config` |
| Provisioning.EndReleasesSession | main/wifi_setup.c:53-76 | after END the manager is deinitialised and storage is flash. Reconnect is resumed exactly once. The session's timer is no longer armed |
| Provisioning.EndCalls | main/wifi_setup.c:56-75 | the calls END makes after the timer teardown delete no timer handle |
| Provisioning.EndTrace | main/wifi_setup.c:55-75 | END makes the calls of the timer teardown, then deinit, set storage, get config, set config only if the ssid is empty, then resume, in that order |
| Provisioning.EndDeletesTimerOnce | main/wifi_setup.c:53-76 | END only appends calls. It deletes the current handle once and no other handle |
| Provisioning.WifiProvEventHandler | main/wifi_setup.c:32-81 | every event other than END (start, credentials received, credential failure for either reason, success, any other id) leaves the whole state unchanged |
| Provisioning.EndReconciles | main/wifi_setup.c:61-73 | credentials established: the config is kept. Empty config and non-empty startup: the config becomes the startup one. Both empty: the config stays empty. The store names a network afterwards iff one of the two did |
| Provisioning.SetupWifiNamed | main/wifi_setup.c:97-150 | for any device name, `startup_wifi_config` becomes the configuration held at boot, and booting does not change the store |
| Provisioning.SetupWifi | main/wifi_setup.c:93-150 | setup with the device name derived from the project name and the MAC: `startup_wifi_config` becomes the configuration held at boot, and booting does not change the store |
| Provisioning.SetupTrace | main/wifi_setup.c:103-149 | setup makes storage, mode, hostname, reconnect start, get config, handler registration, manager init and the provisioned query, in that order. Then it makes the calls of the branch taken |
| Provisioning.SetupStartsProvisioning | main/wifi_setup.c:124-141 | for any device name, when not provisioned or reconfiguring, provisioning starts under the service name built from it. A new timer is armed for timeout * 1000000 us and its handle kept. The file does not call `esp_wifi_start` and does not resume reconnect |
| Provisioning.SetupWifiAdvertisesDeviceName | main/wifi_setup.c:93-133 | setup from a project name and a MAC, when provisioning is required, starts provisioning under "PROV_" + the whole device name |
| Provisioning.SetupConnects | main/wifi_setup.c:142-150 | when provisioned and not reconfiguring, the manager is deinitialised, WiFi is started and reconnect resumed once. No timer is created or armed |
| Provisioning.TimerFires | main/wifi_setup.c:135-140 | the one-shot timer fires only while armed, then stops provisioning. It never deletes a handle or touches the configuration |
| Provisioning.NonEndEventsChangeNothing | main/wifi_setup.c:36-52 | any number of non-END events leave the state unchanged; a credential failure does not end the session |
| Provisioning.RunKeepsStartupConfig | main/wifi_setup.c:12-13 | after boot, nothing changes `startup_wifi_config`, and calls are only appended |
| Provisioning.RunResumesOncePerEnd | main/wifi_setup.c:75 | over any run, reconnect is resumed exactly once per END event |
| Provisioning.StepKeepsSessionInv | main/wifi_setup.c:15-23 | every stimulus keeps the invariant: no handle is deleted twice, the current handle is not deleted, and only the current timer can be armed |
| Provisioning.RunKeepsSessionInv | main/wifi_setup.c:15-23 | the same invariant holds after any run |
| Provisioning.EndClosesSession | main/wifi_setup.c:53-76 | after any run ending in END, there is no handle and no armed timer, and the manager is released. The store names a network or holds the startup configuration |
| Provisioning.SetupCallsOrder | main/wifi_setup.c:103-149 | on either branch, reconnect start comes before provisioning start, WiFi start and resume. Flash storage comes before any get/set config. No timer is deleted |
| Provisioning.SetupOrder | main/wifi_setup.c:103-149 | the same ordering holds of the trace of `setup_wifi` from power-on |
| Provisioning.OrderSurvivesAppend | main/wifi_setup.c:106 | once reconnect has started and storage is flash, any trace that extends it keeps the ordering properties |
| Provisioning.RunKeepsOrder | main/wifi_setup.c:106 | a run from a trace in safe order, where reconnect has started and storage is flash, keeps the safe order |
| Provisioning.RunFromSetup | main/wifi_setup.c:15-76 | from any state in safe order that keeps the session invariant, any run keeps the order and the invariant, leaves `startup_wifi_config` alone, and resumes reconnect once per END |
| Provisioning.SetupEstablishesSessionInv | main/wifi_setup.c:135-140 | `setup_wifi` from power-on establishes the session invariant |
| Provisioning.BootThenRun | main/wifi_setup.c:83-150 | over the whole life, boot then any stimuli: call order holds and no handle is deleted twice. `startup_wifi_config` is the boot configuration. Resumes number one for the direct-connect boot plus one per END |
| WifiSetup.Provisioner.constructor | main/wifi_setup.c:12-13 | the file-scope variables start as a NULL handle and an all-zero configuration |
| WifiSetup.Provisioner.ProvisioningTimerDelete | main/wifi_setup.c:15-23 | the in-place teardown leaves the state `Provisioning.ProvisioningTimerDelete` gives |
| WifiSetup.Provisioner.ProvisioningTimerHandler | main/wifi_setup.c:25-30 | the in-place callback leaves the state `Provisioning.ProvisioningTimerHandler` gives |
| WifiSetup.Provisioner.WifiProvEventHandler | main/wifi_setup.c:32-81 | the in-place handler leaves the state `Provisioning.WifiProvEventHandler` gives, for every event |
| WifiSetup.Provisioner.SetupWifi | main/wifi_setup.c:83-150 | the in-place setup derives the device name and leaves the state `Provisioning.SetupWifi` gives |
| WifiSetup.Provisioner.SetupWifiNamed | main/wifi_setup.c:97-150 | the in-place setup from a device name makes the platform calls in the C order and leaves the state `Provisioning.SetupWifiNamed` gives |
| Scenarios.SetupDecision | main/wifi_setup.c:124-150 | from power-on, these each hold iff the device is not provisioned or reconfiguration is asked for: provisioning running, a timer handle, an armed timer, the manager initialised. The file calls `esp_wifi_start` in exactly the other case |
| Scenarios.SessionStarted | main/wifi_setup.c:124-141 | a session started at boot holds timer 0, armed alone, with the boot configuration in the store and as startup, and satisfies the session invariant |
| Scenarios.TimeoutThenEnd | main/wifi_setup.c:25-76 | timeout followed by END: no handle, nothing armed, manager released, one more resume. The config is kept if it has an ssid and is the startup one otherwise |
| Scenarios.TimeoutWithoutNetwork | main/wifi_setup.c:25-76 | a session with no network in the store or as startup (the two may differ) that times out ends with no network, no timer, the manager released and one more resume |
| Scenarios.NoCredentialsTimeout | main/wifi_setup.c:53-76 | never provisioned, no stored network, timeout then END: no network to join, manager released, no timer, one resume |
| Scenarios.CredentialsThenEnd | main/wifi_setup.c:32-76 | credentials received, stored, success, END: the received network is kept and the timer handle deleted once. The manager is released and reconnect resumed once more |
| Scenarios.CredentialsEstablishedBeforeDeadline | main/wifi_setup.c:32-76 | the same from power-on of a never-provisioned device |
| Scenarios.TimeoutKeepsHome | main/wifi_setup.c:58-68 | a session started with `home` in the store and as startup that times out ends with `home`, whether the store kept it or lost it |
| Scenarios.ReconfigureTimesOut | main/wifi_setup.c:58-68 | a provisioned device with network `home`, forced to reconfigure, times out. It ends with `home`, whether the store kept it or lost it during the session |

## Left out

- Logging, including the branch at lines 69-73, which only logs. Log text changes no state.
- `esp_ota_get_partition_description` and `esp_efuse_mac_get_default` (lines 86-91): the project name and the MAC are inputs of `SetupWifi`.
- Byte order of the MAC: the MAC is taken as the natural number the six bytes make in the `uint64_t`.
- `esp_netif_init`, `esp_netif_create_default_wifi_sta`, `esp_wifi_init` and the BLE scheme and security level of the provisioning manager (lines 98-102, 113-116): foreign calls whose effect the model does not observe. Hostname setting, handler registration and manager configuration appear only as trace entries.
- `ESP_ERROR_CHECK` failures: every checked SDK call is modelled as succeeding.
- The answer of `wifi_prov_mgr_is_provisioned` is a flag of the platform that is fixed at power-on. How the SDK decides it is not part of this model.
- What the provisioning manager does internally: posting its events, storing received credentials and deciding when the session ends. These are stimuli of `Run`; `Run` allows any order of them.
- Concurrency: the timer callback runs on the timer task and the event handler on the event loop. Stimuli are handled one at a time, so an END that races with timer creation at lines 133-140 is not modelled.
- Provisioning.SetupWifi: requires the timeout to be at most 2147 s instead of modelling the 32-bit `int` overflow of `APP_WIFI_PROV_TIMEOUT_S * 1000000` at line 140.
- Provisioning.SetupWifi: requires the MAC to be below 2^48, because six bytes are copied into a zeroed `uint64_t`.
- Naming.DeviceName: a Dafny `char` stands for one byte of the C string. The model counts characters, so for a project name with multi-byte (UTF-8) characters C cuts at 25 bytes, and the 32-byte limit is in bytes too, while the model cuts at 25 and 32 characters. Naming.ProjectPart, Naming.DeviceNameShape, Naming.ServiceName and Naming.LongNameIsCut hold only for project names whose characters are single bytes.
- WiFi configuration: only the station part (ssid and password bytes) is modelled. The rest of `wifi_config_t` is not part of this model.
