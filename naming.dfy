/** Device-name and service-name derivation of `setup_wifi`.

    The device name is what `snprintf(device_name, 33, "%.25s-%06llx",
    project_name, mac)` leaves in the buffer, and the service name what
    `snprintf(service_name, 38, "PROV_%s", device_name)` leaves. The rules
    used are those of ISO/IEC 9899:2011: section 7.21.6.1 (a precision on `%s`
    writes at most that many characters and stops at a NUL; the `0` flag with a
    field width pads a conversion on the left with zeros up to a MINIMUM width;
    `%llx` writes lowercase hexadecimal without leading zeros) and section
    7.21.6.5 (`snprintf` with size n keeps the first n - 1 characters of its
    output and terminates them with a NUL). */
module Naming {

  /** `char device_name[33]`: at most 32 characters before the terminating NUL. */
  const DeviceNameSize: nat := 33
  /** `char service_name[sizeof(device_name) + 5]`. */
  const ServiceNameSize: nat := DeviceNameSize + 5
  /** The precision of `%.25s`. */
  const ProjectPrecision: nat := 25
  /** The field width of `%06llx`. */
  const HexWidth: nat := 6
  /** The literal text of `"PROV_%s"`. */
  const ServicePrefix: string := "PROV_"
  /** The MAC is six bytes copied into a zeroed `uint64_t`: it is below 2^48. */
  const MacBound: nat := 0x1_0000_0000_0000

  function Min(a: int, b: int): int { if a <= b then a else b }

  function Max(a: int, b: int): int { if a <= b then b else a }

  predicate IsHexDigit(c: char) { '0' <= c <= '9' || 'a' <= c <= 'f' }

  predicate AllHexDigits(s: string) { forall i :: 0 <= i < |s| ==> IsHexDigit(s[i]) }

  predicate NoNul(s: string) { forall i :: 0 <= i < |s| ==> s[i] != '\0' }

  /** Value of one lowercase hexadecimal digit. */
  function DigitValue(c: char): (d: nat)
    requires IsHexDigit(c)
    ensures d < 16
    ensures c == '0' <==> d == 0
  {
    if c <= '9' then c as int - '0' as int else c as int - 'a' as int + 10
  }

  /** The lowercase digit of value `d`, the inverse of DigitValue. */
  function HexDigit(d: nat): (c: char)
    requires d < 16
    ensures IsHexDigit(c) && DigitValue(c) == d
  {
    if d < 10 then ('0' as int + d) as char else ('a' as int + d - 10) as char
  }

  /** `%llx` of `n`: lowercase hexadecimal, most significant digit first, with no
      leading zero except for zero itself, which is "0". */
  function Hex(n: nat): (r: string)
    ensures |r| >= 1 && AllHexDigits(r)
    ensures r[0] == '0' <==> n == 0
    decreases n
  {
    if n < 16 then [HexDigit(n)] else Hex(n / 16) + [HexDigit(n % 16)]
  }

  /** The number a string of hexadecimal digits denotes (most significant first). */
  function HexValue(s: string): nat
    requires AllHexDigits(s)
  {
    if s == [] then 0 else 16 * HexValue(s[..|s| - 1]) + DigitValue(s[|s| - 1])
  }

  function Pow16(k: nat): (r: nat)
    ensures r >= 1
  {
    if k == 0 then 1 else 16 * Pow16(k - 1)
  }

  /** Reading back the rendering gives the number: `%llx` loses nothing. */
  lemma {:induction false} HexRoundTrip(n: nat)
    ensures HexValue(Hex(n)) == n
    decreases n
  {
    if n >= 16 {
      var r := Hex(n);
      assert r[..|r| - 1] == Hex(n / 16);
      HexRoundTrip(n / 16);
    }
  }

  /** `n` renders in at most `k` digits exactly when it is below 16^k. */
  lemma {:induction false} HexLength(n: nat, k: nat)
    requires k >= 1
    ensures |Hex(n)| <= k <==> n < Pow16(k)
    decreases n
  {
    if n >= 16 {
      if k == 1 {
        assert |Hex(n)| >= 2;
      } else {
        HexLength(n / 16, k - 1);
        assert n < Pow16(k) <==> n / 16 < Pow16(k - 1);
      }
    } else {
      assert Pow16(k) >= 16 by { Pow16Grows(k); }
    }
  }

  lemma {:induction false} Pow16Grows(k: nat)
    requires k >= 1
    ensures Pow16(k) >= 16
  {
    if k > 1 { Pow16Grows(k - 1); }
  }

  /** A MAC below 2^48 renders in 1 to 12 hexadecimal digits. */
  lemma MacHexLength(mac: nat)
    requires mac < MacBound
    ensures 1 <= |Hex(mac)| <= 12
  {
    assert Pow16(12) == MacBound;
    HexLength(mac, 12);
  }

  /** The `0` flag with a field width: zeros on the left up to at least `width`
      characters; a longer conversion is kept whole. */
  function ZeroPad(s: string, width: nat): (r: string)
    ensures |r| == Max(|s|, width)
    ensures r[|r| - |s|..] == s
    ensures forall i :: 0 <= i < |r| - |s| ==> r[i] == '0'
  {
    if |s| >= width then s else seq(width - |s|, _ => '0') + s
  }

  lemma {:induction false} LeadingZeroFree(z: string, s: string)
    requires forall i :: 0 <= i < |z| ==> z[i] == '0'
    requires AllHexDigits(s)
    ensures AllHexDigits(z + s) && HexValue(z + s) == HexValue(s)
    decreases |s|
  {
    if s == [] {
      assert z + s == z;
      ZerosAreZero(z);
    } else {
      var zs := z + s;
      assert zs[..|zs| - 1] == z + s[..|s| - 1];
      LeadingZeroFree(z, s[..|s| - 1]);
    }
  }

  lemma {:induction false} ZerosAreZero(z: string)
    requires forall i :: 0 <= i < |z| ==> z[i] == '0'
    ensures AllHexDigits(z) && HexValue(z) == 0
    decreases |z|
  {
    if z != [] { ZerosAreZero(z[..|z| - 1]); }
  }

  /** `%06llx` loses nothing either: the padded rendering still reads back as `n`. */
  lemma PaddedHexRoundTrip(n: nat, width: nat)
    ensures AllHexDigits(ZeroPad(Hex(n), width))
    ensures HexValue(ZeroPad(Hex(n), width)) == n
  {
    var h := Hex(n);
    var r := ZeroPad(h, width);
    assert r == r[..|r| - |h|] + h;
    LeadingZeroFree(r[..|r| - |h|], h);
    HexRoundTrip(n);
  }

  /** The C string held in a character array: everything before the first NUL,
      or the whole array when it holds none. */
  function CString(a: string): (r: string)
    ensures |r| <= |a| && r == a[..|r|]
    ensures NoNul(r)
    ensures |r| < |a| ==> a[|r|] == '\0'
  {
    if a == [] || a[0] == '\0' then [] else [a[0]] + CString(a[1..])
  }

  /** `%.<p>s`: at most `p` characters of the string, stopping at a NUL. */
  function StringWithPrecision(a: string, p: nat): (r: string)
    ensures |r| <= p && |r| <= |a| && r == a[..|r|] && NoNul(r)
    ensures |r| < p ==> |r| == |a| || a[|r|] == '\0'
  {
    var c := CString(a);
    c[..Min(|c|, p)]
  }

  /** What `snprintf(buf, size, ...)` leaves in `buf` before the NUL it writes,
      given the full output of the format. */
  function Truncate(out: string, size: nat): (r: string)
    requires size >= 1
    ensures |r| <= |out| && r == out[..|r|]
    ensures |out| < size ==> r == out
    ensures |out| >= size ==> |r| == size - 1
  {
    out[..Min(|out|, size - 1)]
  }

  /** What `%.25s` makes of the project name: at most 25 of its characters,
      stopping early only at a NUL or at the end of the array. */
  function ProjectPart(projectName: string): (r: string)
    ensures |r| <= ProjectPrecision && |r| <= |projectName| && r == projectName[..|r|]
    ensures NoNul(r)
    ensures |r| < ProjectPrecision ==> |r| == |projectName| || projectName[|r|] == '\0'
  {
    StringWithPrecision(projectName, ProjectPrecision)
  }

  /** What `%06llx` makes of the MAC: hexadecimal digits that read back as the
      MAC, exactly as many as `%llx` prints but never fewer than six. */
  function MacDigits(mac: nat): (r: string)
    ensures |r| == Max(|Hex(mac)|, HexWidth)
    ensures HexWidth <= |r|
    ensures AllHexDigits(r) && HexValue(r) == mac
  {
    PaddedHexRoundTrip(mac, HexWidth);
    ZeroPad(Hex(mac), HexWidth)
  }

  /** The whole output of `"%.25s-%06llx"`, before `snprintf` cuts it: the
      project part, a dash, and the MAC's digits (which read back as the MAC,
      by the contract of MacDigits). It holds no NUL, so `snprintf` is the
      only thing that shortens it. */
  function FullDeviceName(projectName: string, mac: nat): (r: string)
    ensures |ProjectPart(projectName)| + 1 + HexWidth <= |r|
    ensures r[..|ProjectPart(projectName)|] == ProjectPart(projectName)
    ensures r[|ProjectPart(projectName)|] == '-'
    ensures r[|ProjectPart(projectName)| + 1..] == MacDigits(mac)
    ensures NoNul(r)
  {
    var p := ProjectPart(projectName);
    var m := MacDigits(mac);
    var r := p + "-" + m;
    assert r[|p| + 1..] == m;
    HexDigitsAreNotNul(m);
    NoNulConcat(p, "-");
    NoNulConcat(p + "-", m);
    r
  }

  /** `device_name` after line 94 of wifi_setup.c. */
  function DeviceName(projectName: string, mac: nat): (r: string)
    ensures |r| <= DeviceNameSize - 1
    ensures |r| <= |FullDeviceName(projectName, mac)|
    ensures r == FullDeviceName(projectName, mac)[..|r|]
  {
    Truncate(FullDeviceName(projectName, mac), DeviceNameSize)
  }

  /** `service_name` after line 130 of wifi_setup.c: `"%s"` reads the device
      name up to its NUL. */
  function ServiceName(deviceName: string): (r: string)
    ensures |r| <= ServiceNameSize - 1
    ensures |r| <= |ServicePrefix + CString(deviceName)|
    ensures r == (ServicePrefix + CString(deviceName))[..|r|]
  {
    Truncate(ServicePrefix + CString(deviceName), ServiceNameSize)
  }

  /** The shape of the device name: the project name cut to 25 characters, a dash,
      then the MAC in 6 to 12 zero-padded hexadecimal digits of which snprintf
      keeps as many as fit in 32 characters; that is always at least 6. */
  lemma DeviceNameShape(projectName: string, mac: nat)
    requires mac < MacBound
    ensures HexWidth <= |MacDigits(mac)| <= 12
    ensures |DeviceName(projectName, mac)|
            == Min(|ProjectPart(projectName)| + 1 + |MacDigits(mac)|, DeviceNameSize - 1)
    ensures |ProjectPart(projectName)| + 1 + HexWidth <= |DeviceName(projectName, mac)|
    ensures DeviceName(projectName, mac)
            == ProjectPart(projectName) + "-"
               + MacDigits(mac)[..|DeviceName(projectName, mac)| - |ProjectPart(projectName)| - 1]
    ensures NoNul(DeviceName(projectName, mac))
  {
    DeviceNameLength(projectName, mac);
    DeviceNameParts(projectName, mac);
    NoNulPrefix(FullDeviceName(projectName, mac), |DeviceName(projectName, mac)|);
  }

  lemma DeviceNameLength(projectName: string, mac: nat)
    requires mac < MacBound
    ensures HexWidth <= |MacDigits(mac)| <= 12
    ensures |DeviceName(projectName, mac)|
            == Min(|ProjectPart(projectName)| + 1 + |MacDigits(mac)|, DeviceNameSize - 1)
    ensures |ProjectPart(projectName)| + 1 + HexWidth <= |DeviceName(projectName, mac)|
  {
    MacHexLength(mac);
  }

  lemma DeviceNameParts(projectName: string, mac: nat)
    requires |ProjectPart(projectName)| + 1 <= |DeviceName(projectName, mac)|
    ensures DeviceName(projectName, mac)
            == ProjectPart(projectName) + "-"
               + MacDigits(mac)[..|DeviceName(projectName, mac)| - |ProjectPart(projectName)| - 1]
  {
    var p := ProjectPart(projectName);
    var h := MacDigits(mac);
    var full := p + "-" + h;
    var r := DeviceName(projectName, mac);
    var k := |r| - |p| - 1;
    assert r == full[..|r|];
    assert full[..|r|] == p + "-" + h[..k];
  }

  lemma NoNulConcat(a: string, b: string)
    requires NoNul(a) && NoNul(b)
    ensures NoNul(a + b)
  {
  }

  lemma NoNulPrefix(s: string, k: nat)
    requires NoNul(s) && k <= |s|
    ensures NoNul(s[..k])
  {
  }

  lemma HexDigitsAreNotNul(h: string)
    requires AllHexDigits(h)
    ensures NoNul(h)
  {
  }

  /** When nothing is cut off, the digits after the dash read back as the MAC. */
  lemma DeviceNameKeepsMac(projectName: string, mac: nat)
    requires mac < MacBound
    requires |StringWithPrecision(projectName, ProjectPrecision)| + 1 + Max(|Hex(mac)|, HexWidth) < DeviceNameSize
    ensures var p := StringWithPrecision(projectName, ProjectPrecision);
            var r := DeviceName(projectName, mac);
            && r == FullDeviceName(projectName, mac)
            && AllHexDigits(r[|p| + 1..]) && HexValue(r[|p| + 1..]) == mac
  {
    DeviceNameShape(projectName, mac);
    PaddedHexRoundTrip(mac, HexWidth);
    var p := StringWithPrecision(projectName, ProjectPrecision);
    var r := DeviceName(projectName, mac);
    assert r[|p| + 1..] == ZeroPad(Hex(mac), HexWidth);
  }

  lemma {:induction false} CStringOfNoNul(s: string)
    requires NoNul(s)
    ensures CString(s) == s
    decreases |s|
  {
    if s != [] {
      CStringOfNoNul(s[1..]);
      assert s == [s[0]] + s[1..];
    }
  }

  /** The service name is "PROV_" followed by the whole device name: 5 + 32
      characters fit in the 38-byte buffer, so it is never cut. */
  lemma ServiceNameNeverTruncated(projectName: string, mac: nat)
    ensures ServiceName(DeviceName(projectName, mac)) == ServicePrefix + DeviceName(projectName, mac)
    ensures |ServiceName(DeviceName(projectName, mac))| <= |ServicePrefix| + DeviceNameSize - 1
  {
    var full := FullDeviceName(projectName, mac);
    NoNulPrefix(full, |DeviceName(projectName, mac)|);
    CStringOfNoNul(DeviceName(projectName, mac));
  }

  /** A 30-character project name and a 12-digit MAC: the project part is cut
      to 25 characters and only the first 6 of the 12 hexadecimal digits fit. */
  lemma LongNameIsCut()
    ensures DeviceName("MyApp-LongNameThatExceedsLimit", 0xabc123456789)
            == "MyApp-LongNameThatExceeds-abc123"
  {
    LongNameProjectPart();
    LongNameMacDigits();
    LongNameCut(FullDeviceName("MyApp-LongNameThatExceedsLimit", 0xabc123456789));
  }

  lemma LongNameCut(full: string)
    requires full == "MyApp-LongNameThatExceeds" + "-" + "abc123456789"
    ensures Truncate(full, DeviceNameSize) == "MyApp-LongNameThatExceeds-abc123"
  {
  }

  lemma LongNameNoNul()
    ensures NoNul("MyApp-LongNameThatExceedsLimit")
  {
  }

  lemma LongNameCString()
    ensures CString("MyApp-LongNameThatExceedsLimit") == "MyApp-LongNameThatExceedsLimit"
  {
    LongNameNoNul();
    CStringOfNoNul("MyApp-LongNameThatExceedsLimit");
  }

  lemma LongNameProjectPart()
    ensures ProjectPart("MyApp-LongNameThatExceedsLimit") == "MyApp-LongNameThatExceeds"
  {
    LongNamePrecision();
    LongNameSlice();
  }

  lemma LongNamePrecision()
    ensures StringWithPrecision("MyApp-LongNameThatExceedsLimit", ProjectPrecision)
            == "MyApp-LongNameThatExceedsLimit"[..25]
  {
    LongNameCString();
  }

  lemma LongNameSlice()
    ensures "MyApp-LongNameThatExceedsLimit"[..25] == "MyApp-LongNameThatExceeds"
  {
  }

  lemma LongNameMacDigits()
    ensures MacDigits(0xabc123456789) == "abc123456789"
  {
    assert Hex(0xa) == "a";
    assert Hex(0xab) == "ab";
    assert Hex(0xabc) == "abc";
    assert Hex(0xabc1) == "abc1";
    assert Hex(0xabc12) == "abc12";
    assert Hex(0xabc123) == "abc123";
    assert Hex(0xabc1234) == "abc1234";
    assert Hex(0xabc12345) == "abc12345";
    assert Hex(0xabc123456) == "abc123456";
    assert Hex(0xabc1234567) == "abc1234567";
    assert Hex(0xabc12345678) == "abc12345678";
    assert Hex(0xabc123456789) == "abc123456789";
  }
}
