/**
 * The FRITZ!Box smart-home client: session login, the `homeautoswitch`
 * command call, and the decoding of the JSON tables behind
 * `home_auto_query.lua`; together with the Actor record, whose methods call
 * back into the box that made it.
 *
 * Nothing here talks to a network. Every method takes the gateway's answer
 * as a parameter (the reply text, the values of the login XML, the JSON
 * object as a map) and returns the request(s) it would have sent.
 */
module FritzHome {
  import opened Wrappers
  import opened Text

  /** One HTTP GET: the URL and its query parameters. */
  datatype Request = Request(url: string, params: map<string, string>)

  /** The text of the `SID`, `Challenge` and `BlockTime` elements of a login_sid.lua reply. */
  datatype LoginReply = LoginReply(sid: string, challenge: string, blockTime: string)

  /** The SID the gateway sends when no session exists. */
  const ZeroSid: string := "0000000000000000"

  /** A login fails when both the first and the second reply carry the zero SID. */
  predicate LoginFails(round1: LoginReply, round2: LoginReply) {
    round1.sid == ZeroSid && round2.sid == ZeroSid
  }

  const LoginPath: string := "/login_sid.lua"
  const SwitchPath: string := "/webservices/homeautoswitch.lua"
  const QueryPath: string := "/net/home_auto_query.lua"

  predicate IsHexDigest(s: string) {
    |s| == 32 && forall i :: 0 <= i < |s| ==> s[i] in "0123456789abcdef"
  }

  /** A lower-case hexadecimal MD5 digest. */
  type HexDigest = s: string | IsHexDigest(s) witness "00000000000000000000000000000000"

  /** `hashlib.md5(text.encode("UTF-16LE")).hexdigest()`, which the model takes as given. */
  type Md5Utf16le = string -> HexDigest

  /** Python truthiness of an optional string: present and non-empty. */
  predicate Truthy(s: Option<string>) {
    s.Some? && s.value != ""
  }

  /**
   * `calculate_response`: the challenge, a hyphen, and the digest of
   * challenge, hyphen and password. The challenge is kept as a prefix.
   */
  function CalculateResponse(challenge: string, password: string, md5: Md5Utf16le): (r: string)
    ensures |r| == |challenge| + 33
    ensures r[..|challenge|] == challenge && r[|challenge|] == '-'
  {
    challenge + "-" + md5(challenge + "-" + password)
  }

  /** How the gateway reads a response: the challenge in front of the last hyphen, and the digest. */
  function SplitResponse(response: string): Option<(string, HexDigest)> {
    if |response| >= 33 && response[|response| - 33] == '-' && IsHexDigest(response[|response| - 32..])
    then Some((response[..|response| - 33], response[|response| - 32..]))
    else None
  }

  /** The response carries the challenge and the digest, and both can be read back from it. */
  lemma {:induction false} ResponseRoundTrip(challenge: string, password: string, md5: Md5Utf16le)
    ensures SplitResponse(CalculateResponse(challenge, password, md5))
            == Some((challenge, md5(challenge + "-" + password)))
  {
    var r := CalculateResponse(challenge, password, md5);
    var d := md5(challenge + "-" + password);
    assert r == challenge + "-" + d;
    assert r[|r| - 32..] == d;
    assert r[..|r| - 33] == challenge;
  }

  /** `int(x)` of an integer-valued JSON field, as returned by `Device`. */
  datatype Device = Device(deviceId: int, connectState: int, switchState: int)

  /** The energy report of `get_consumption`. */
  datatype Consumption = Consumption(values: map<string, int>, wattValues: seq<int>, voltValues: seq<int>)

  // ---- get_devices ----

  const OutletCount: string := "Outlet_count"
  const DeviceIdPrefix: string := "DeviceID_"
  const ConnectStatePrefix: string := "DeviceConnectState_"
  const SwitchStatePrefix: string := "DeviceSwitchState_"

  function DeviceIdKey(i: int): string { DeviceIdPrefix + IntString(i) }
  function ConnectStateKey(i: int): string { ConnectStatePrefix + IntString(i) }
  function SwitchStateKey(i: int): string { SwitchStatePrefix + IntString(i) }

  predicate HasDeviceKeys(data: map<string, int>, i: int) {
    DeviceIdKey(i) in data && ConnectStateKey(i) in data && SwitchStateKey(i) in data
  }

  function DeviceAt(data: map<string, int>, i: int): Device
    requires HasDeviceKeys(data, i)
  {
    Device(data[DeviceIdKey(i)], data[ConnectStateKey(i)], data[SwitchStateKey(i)])
  }

  /** The KeyError of one round of the loop of `get_devices`: the first of its three keys that is missing. */
  function MissingOutletKey(data: map<string, int>, i: int): (key: string)
    requires !HasDeviceKeys(data, i)
    ensures key !in data
  {
    if DeviceIdKey(i) !in data then DeviceIdKey(i)
    else if ConnectStateKey(i) !in data then ConnectStateKey(i)
    else SwitchStateKey(i)
  }

  /**
   * The first n rounds of the loop of `get_devices`: outlet i is read from
   * the keys with suffix i, or the loop stops with the KeyError of the first
   * missing key.
   */
  function DecodeOutlets(data: map<string, int>, n: nat): Result<seq<Device>> {
    if n == 0 then Success([])
    else
      match DecodeOutlets(data, n - 1)
      case Failure(e) => Failure(e)
      case Success(devices) =>
        if HasDeviceKeys(data, n) then Success(devices + [DeviceAt(data, n)])
        else Failure(MissingKey(MissingOutletKey(data, n)))
  }

  /** The loop runs to the end exactly when every outlet 1..n has its three keys. */
  lemma {:induction false} DecodeOutletsSuccessIff(data: map<string, int>, n: nat)
    ensures DecodeOutlets(data, n).Success? <==> forall i :: 1 <= i <= n ==> HasDeviceKeys(data, i)
  {
    if n > 0 {
      DecodeOutletsSuccessIff(data, n - 1);
    }
  }

  /** A failed loop names a key the reply does not have. */
  lemma {:induction false} DecodeOutletsFailure(data: map<string, int>, n: nat)
    requires DecodeOutlets(data, n).Failure?
    ensures DecodeOutlets(data, n).error.MissingKey? && DecodeOutlets(data, n).error.key !in data
  {
    if DecodeOutlets(data, n - 1).Failure? {
      DecodeOutletsFailure(data, n - 1);
    }
  }

  /** A completed loop lists outlet i at position i - 1, for all n outlets. */
  lemma {:induction false} DecodeOutletsValue(data: map<string, int>, n: nat)
    requires DecodeOutlets(data, n).Success?
    ensures |DecodeOutlets(data, n).value| == n
    ensures forall i :: 1 <= i <= n ==> HasDeviceKeys(data, i) && DecodeOutlets(data, n).value[i - 1] == DeviceAt(data, i)
  {
    if n > 0 {
      DecodeOutletsValue(data, n - 1);
      var prev := DecodeOutlets(data, n - 1).value;
      assert DecodeOutlets(data, n).value == prev + [DeviceAt(data, n)];
    }
  }

  /** What `get_devices` makes of the JSON reply: `Outlet_count` outlets in index order. */
  function DecodeDevices(data: map<string, int>): Result<seq<Device>> {
    if OutletCount !in data then Failure(MissingKey(OutletCount))
    else DecodeOutlets(data, if data[OutletCount] < 0 then 0 else data[OutletCount])
  }

  /** A reply with outlet n added under its three keys, and the count set to n. */
  function AddOutlet(data: map<string, int>, n: int, d: Device): map<string, int> {
    data[OutletCount := n][DeviceIdKey(n) := d.deviceId][ConnectStateKey(n) := d.connectState]
      [SwitchStateKey(n) := d.switchState]
  }

  /** The JSON object the gateway sends for a list of outlets. */
  function DevicesJson(devices: seq<Device>): map<string, int> {
    if devices == [] then map[OutletCount := 0]
    else AddOutlet(DevicesJson(devices[..|devices| - 1]), |devices|, devices[|devices| - 1])
  }

  lemma {:induction false} IntSuffixInjective(p: string, i: int, j: int)
    requires p + IntString(i) == p + IntString(j)
    ensures i == j
  {
    assert IntString(i) == (p + IntString(i))[|p|..];
    assert IntString(j) == (p + IntString(j))[|p|..];
    PyIntOfIntString(i);
    PyIntOfIntString(j);
  }

  lemma {:induction false} DifferAt(p: string, q: string, a: string, b: string, k: nat)
    requires k < |p| && k < |q| && p[k] != q[k]
    ensures p + a != q + b
  {
    assert (p + a)[k] == p[k];
    assert (q + b)[k] == q[k];
  }

  /** The three keys of an outlet differ from each other and from `Outlet_count`. */
  lemma {:induction false} OutletKeysDistinct(i: int, j: int)
    ensures DeviceIdKey(i) != ConnectStateKey(j) && DeviceIdKey(i) != SwitchStateKey(j)
    ensures ConnectStateKey(i) != SwitchStateKey(j)
    ensures OutletCount != DeviceIdKey(i) && OutletCount != ConnectStateKey(i) && OutletCount != SwitchStateKey(i)
  {
    DifferAt(DeviceIdPrefix, ConnectStatePrefix, IntString(i), IntString(j), 6);
    DifferAt(DeviceIdPrefix, SwitchStatePrefix, IntString(i), IntString(j), 6);
    DifferAt(ConnectStatePrefix, SwitchStatePrefix, IntString(i), IntString(j), 6);
    DifferAt(OutletCount, DeviceIdPrefix, [], IntString(i), 0);
    DifferAt(OutletCount, ConnectStatePrefix, [], IntString(i), 0);
    DifferAt(OutletCount, SwitchStatePrefix, [], IntString(i), 0);
    assert OutletCount + [] == OutletCount;
  }

  /** Different outlets are read from different keys. */
  lemma {:induction false} OutletsKeysDistinct(i: int, j: int)
    requires i != j
    ensures DeviceIdKey(i) != DeviceIdKey(j)
    ensures ConnectStateKey(i) != ConnectStateKey(j)
    ensures SwitchStateKey(i) != SwitchStateKey(j)
  {
    if DeviceIdKey(i) == DeviceIdKey(j) { IntSuffixInjective(DeviceIdPrefix, i, j); }
    if ConnectStateKey(i) == ConnectStateKey(j) { IntSuffixInjective(ConnectStatePrefix, i, j); }
    if SwitchStateKey(i) == SwitchStateKey(j) { IntSuffixInjective(SwitchStatePrefix, i, j); }
  }

  /** The added outlet is read back from its keys. */
  lemma {:induction false} AddOutletNew(data: map<string, int>, n: int, d: Device)
    ensures HasDeviceKeys(AddOutlet(data, n, d), n) && DeviceAt(AddOutlet(data, n, d), n) == d
    ensures OutletCount in AddOutlet(data, n, d) && AddOutlet(data, n, d)[OutletCount] == n
  {
    OutletKeysDistinct(n, n);
  }

  /** Adding outlet n leaves every other outlet as it was. */
  lemma {:induction false} AddOutletOld(data: map<string, int>, n: int, d: Device, i: int)
    requires i != n && HasDeviceKeys(data, i)
    ensures HasDeviceKeys(AddOutlet(data, n, d), i) && DeviceAt(AddOutlet(data, n, d), i) == DeviceAt(data, i)
  {
    OutletKeysDistinct(i, n);
    OutletKeysDistinct(n, i);
    OutletsKeysDistinct(i, n);
  }

  lemma {:induction false} DevicesJsonLookup(devices: seq<Device>, i: int)
    requires 1 <= i <= |devices|
    ensures HasDeviceKeys(DevicesJson(devices), i) && DeviceAt(DevicesJson(devices), i) == devices[i - 1]
  {
    var n := |devices|;
    var prev := devices[..n - 1];
    if i < n {
      DevicesJsonLookup(prev, i);
      AddOutletOld(DevicesJson(prev), n, devices[n - 1], i);
      assert prev[i - 1] == devices[i - 1];
    } else {
      AddOutletNew(DevicesJson(prev), n, devices[n - 1]);
    }
  }

  lemma {:induction false} DevicesJsonCount(devices: seq<Device>)
    ensures OutletCount in DevicesJson(devices) && DevicesJson(devices)[OutletCount] == |devices|
  {
    if devices != [] {
      AddOutletNew(DevicesJson(devices[..|devices| - 1]), |devices|, devices[|devices| - 1]);
    }
  }

  /** A reply that holds each listed outlet under its keys is decoded to exactly those outlets. */
  lemma {:induction false} DecodeOutletsOfListed(data: map<string, int>, devices: seq<Device>)
    requires forall i :: 1 <= i <= |devices| ==> HasDeviceKeys(data, i) && DeviceAt(data, i) == devices[i - 1]
    ensures DecodeOutlets(data, |devices|) == Success(devices)
  {
    DecodeOutletsSuccessIff(data, |devices|);
    DecodeOutletsValue(data, |devices|);
    var r := DecodeOutlets(data, |devices|).value;
    forall k | 0 <= k < |devices| ensures r[k] == devices[k] {
      assert r[(k + 1) - 1] == DeviceAt(data, k + 1);
    }
    assert r == devices;
  }

  /** `get_devices` gives back, in order, the outlets the gateway listed. */
  lemma {:induction false} DecodeDevicesJson(devices: seq<Device>)
    ensures DecodeDevices(DevicesJson(devices)) == Success(devices)
  {
    var data := DevicesJson(devices);
    DevicesJsonCount(devices);
    forall i | 1 <= i <= |devices| ensures HasDeviceKeys(data, i) && DeviceAt(data, i) == devices[i - 1] {
      DevicesJsonLookup(devices, i);
    }
    DecodeOutletsOfListed(data, devices);
  }

  // ---- get_consumption ----

  /** The timeranges `get_consumption` accepts. */
  predicate IsTimerange(t: string) {
    t == "10" || t == "24h" || t == "month" || t == "year"
  }

  const EnStatsCount: string := "EnStats_count"

  /** The single values of the report: gateway key, then the key of the result. */
  const SingleValueKeys: seq<(string, string)> := [
    ("MM_Value_Amp", "mm_value_amp"),
    ("MM_Value_Power", "mm_value_power"),
    ("MM_Value_Volt", "mm_value_volt"),
    ("EnStats_average_value", "enstats_average_value"),
    ("EnStats_max_value", "enstats_max_value"),
    ("EnStats_min_value", "enstats_min_value"),
    ("EnStats_timer_type", "enstats_timer_type"),
    ("sum_Day", "sum_day"),
    ("sum_Month", "sum_month"),
    ("sum_Year", "sum_year")
  ]

  /**
   * The loop over the renaming table: each gateway key's value stored under
   * its result key, or the KeyError of the first missing gateway key.
   */
  function DecodeSingles(data: map<string, int>, pairs: seq<(string, string)>): Result<map<string, int>> {
    if pairs == [] then Success(map[])
    else
      var (avmKey, pyKey) := pairs[|pairs| - 1];
      match DecodeSingles(data, pairs[..|pairs| - 1])
      case Failure(e) => Failure(e)
      case Success(m) =>
        if avmKey !in data then Failure(MissingKey(avmKey))
        else Success(m[pyKey := data[avmKey]])
  }

  /** The renaming loop runs to the end exactly when every gateway key is in the reply. */
  lemma {:induction false} DecodeSinglesSuccessIff(data: map<string, int>, pairs: seq<(string, string)>)
    ensures DecodeSingles(data, pairs).Success? <==> forall j :: 0 <= j < |pairs| ==> pairs[j].0 in data
  {
    if pairs != [] {
      var init := pairs[..|pairs| - 1];
      DecodeSinglesSuccessIff(data, init);
      assert forall j :: 0 <= j < |init| ==> init[j] == pairs[j];
    }
  }

  /** A failed renaming loop names a gateway key the reply does not have. */
  lemma {:induction false} DecodeSinglesFailure(data: map<string, int>, pairs: seq<(string, string)>)
    requires DecodeSingles(data, pairs).Failure?
    ensures DecodeSingles(data, pairs).error.MissingKey? && DecodeSingles(data, pairs).error.key !in data
  {
    if DecodeSingles(data, pairs[..|pairs| - 1]).Failure? {
      DecodeSinglesFailure(data, pairs[..|pairs| - 1]);
    }
  }

  /**
   * A completed renaming loop has exactly the result keys, and each holds the
   * value of the last gateway key renamed to it.
   */
  lemma {:induction false} DecodeSinglesValue(data: map<string, int>, pairs: seq<(string, string)>)
    requires DecodeSingles(data, pairs).Success?
    ensures forall j :: 0 <= j < |pairs| ==> pairs[j].1 in DecodeSingles(data, pairs).value
    ensures forall k :: k in DecodeSingles(data, pairs).value ==> exists j :: 0 <= j < |pairs| && pairs[j].1 == k
    ensures forall j :: 0 <= j < |pairs| && (forall t :: j < t < |pairs| ==> pairs[t].1 != pairs[j].1)
                        ==> pairs[j].0 in data && DecodeSingles(data, pairs).value[pairs[j].1] == data[pairs[j].0]
  {
    if pairs != [] {
      var init := pairs[..|pairs| - 1];
      DecodeSinglesValue(data, init);
      assert forall j :: 0 <= j < |init| ==> init[j] == pairs[j];
    }
  }

  function WattKey(i: int): string { "EnStats_watt_value_" + IntString(i) }
  function VoltKey(i: int): string { "EnStats_volt_value_" + IntString(i) }

  /**
   * The first n rounds of the statistics loop: entry i of each list from the
   * keys with suffix i, the watt key read before the volt key.
   */
  function DecodeStats(data: map<string, int>, n: nat): Result<(seq<int>, seq<int>)> {
    if n == 0 then Success(([], []))
    else
      match DecodeStats(data, n - 1)
      case Failure(e) => Failure(e)
      case Success((watts, volts)) =>
        if WattKey(n) !in data then Failure(MissingKey(WattKey(n)))
        else if VoltKey(n) !in data then Failure(MissingKey(VoltKey(n)))
        else Success((watts + [data[WattKey(n)]], volts + [data[VoltKey(n)]]))
  }

  /** The statistics loop runs to the end exactly when each entry 1..n has both keys. */
  lemma {:induction false} DecodeStatsSuccessIff(data: map<string, int>, n: nat)
    ensures DecodeStats(data, n).Success? <==> forall i :: 1 <= i <= n ==> WattKey(i) in data && VoltKey(i) in data
  {
    if n > 0 {
      DecodeStatsSuccessIff(data, n - 1);
    }
  }

  /** A failed statistics loop names a key the reply does not have. */
  lemma {:induction false} DecodeStatsFailure(data: map<string, int>, n: nat)
    requires DecodeStats(data, n).Failure?
    ensures DecodeStats(data, n).error.MissingKey? && DecodeStats(data, n).error.key !in data
  {
    if DecodeStats(data, n - 1).Failure? {
      DecodeStatsFailure(data, n - 1);
    }
  }

  /** A completed statistics loop gives two lists of n entries, entry i - 1 from the keys with suffix i. */
  lemma {:induction false} DecodeStatsValue(data: map<string, int>, n: nat)
    requires DecodeStats(data, n).Success?
    ensures |DecodeStats(data, n).value.0| == n && |DecodeStats(data, n).value.1| == n
    ensures forall i :: 1 <= i <= n ==> WattKey(i) in data && DecodeStats(data, n).value.0[i - 1] == data[WattKey(i)]
    ensures forall i :: 1 <= i <= n ==> VoltKey(i) in data && DecodeStats(data, n).value.1[i - 1] == data[VoltKey(i)]
  {
    if n > 0 {
      DecodeStatsValue(data, n - 1);
      var prev := DecodeStats(data, n - 1).value;
      assert DecodeStats(data, n).value == (prev.0 + [data[WattKey(n)]], prev.1 + [data[VoltKey(n)]]);
    }
  }

  /**
   * What `get_consumption` makes of the JSON reply once the timerange is
   * valid: the single values, then `EnStats_count` watt and volt values.
   */
  function DecodeConsumption(data: map<string, int>): Result<Consumption> {
    match DecodeSingles(data, SingleValueKeys)
    case Failure(e) => Failure(e)
    case Success(values) =>
      if EnStatsCount !in data then Failure(MissingKey(EnStatsCount))
      else
        match DecodeStats(data, StatsCount(data))
        case Failure(e) => Failure(e)
        case Success((watts, volts)) => Success(Consumption(values, watts, volts))
  }

  /** The number of entries the statistics loop runs over: `range(1, count + 1)` is empty for a negative count. */
  function StatsCount(data: map<string, int>): (n: nat)
    requires EnStatsCount in data
    ensures data[EnStatsCount] >= 0 ==> n == data[EnStatsCount]
    ensures data[EnStatsCount] < 0 ==> n == 0
  {
    if data[EnStatsCount] < 0 then 0 else data[EnStatsCount]
  }

  /** No two gateway keys of the single values are renamed to the same result key. */
  lemma {:induction false} SingleValueKeysDistinct()
    ensures forall j, t :: 0 <= j < t < |SingleValueKeys| ==> SingleValueKeys[j].1 != SingleValueKeys[t].1
  {
    forall j, t | 0 <= j < t < |SingleValueKeys| ensures SingleValueKeys[j].1 != SingleValueKeys[t].1 {
      var a, b := SingleValueKeys[j].1, SingleValueKeys[t].1;
      if |a| == |b| {
        assert j == 4 && t == 5;
        assert a[9] != b[9];
      }
    }
  }

  /**
   * `get_consumption` succeeds exactly when the reply has every single-value
   * key, `EnStats_count`, and both statistics keys of every entry; then each
   * single value is stored under its result key, and the two lists have
   * `EnStats_count` entries, entry i - 1 from the keys with suffix i.
   */
  lemma {:induction false} DecodeConsumptionSpec(data: map<string, int>)
    ensures DecodeConsumption(data).Success? <==>
              (forall j :: 0 <= j < |SingleValueKeys| ==> SingleValueKeys[j].0 in data)
              && EnStatsCount in data
              && forall i :: 1 <= i <= StatsCount(data) ==> WattKey(i) in data && VoltKey(i) in data
    ensures DecodeConsumption(data).Failure? ==>
              DecodeConsumption(data).error.MissingKey? && DecodeConsumption(data).error.key !in data
    ensures DecodeConsumption(data).Success? ==>
              var c := DecodeConsumption(data).value;
              (forall j :: 0 <= j < |SingleValueKeys| ==>
                 SingleValueKeys[j].1 in c.values && c.values[SingleValueKeys[j].1] == data[SingleValueKeys[j].0])
              && |c.wattValues| == StatsCount(data) && |c.voltValues| == StatsCount(data)
              && (forall i :: 1 <= i <= StatsCount(data) ==> c.wattValues[i - 1] == data[WattKey(i)])
              && (forall i :: 1 <= i <= StatsCount(data) ==> c.voltValues[i - 1] == data[VoltKey(i)])
  {
    DecodeSinglesSuccessIff(data, SingleValueKeys);
    var singles := DecodeSingles(data, SingleValueKeys);
    if singles.Failure? {
      DecodeSinglesFailure(data, SingleValueKeys);
    } else {
      SingleValueKeysDistinct();
      DecodeSinglesValue(data, SingleValueKeys);
      if EnStatsCount in data {
        var n := StatsCount(data);
        DecodeStatsSuccessIff(data, n);
        if DecodeStats(data, n).Failure? {
          DecodeStatsFailure(data, n);
        } else {
          DecodeStatsValue(data, n);
        }
      }
    }
  }

  // ---- the client ----

  class FritzBox {
    const baseUrl: string
    const username: string
    const password: string
    var sid: Option<string>

    /** `FritzBox(ip, username, password, use_tls=False)`: no session yet. */
    constructor (ip: string, username: string, password: string, useTls: bool := false)
      ensures baseUrl == (if useTls then "https://" else "http://") + ip
      ensures this.username == username && this.password == password
      ensures sid == None
    {
      baseUrl := (if useTls then "https://" else "http://") + ip;
      this.username := username;
      this.password := password;
      sid := None;
    }

    /** What `assert self.sid` lets through. */
    predicate LoggedIn()
      reads this
    {
      Truthy(sid)
    }

    /**
     * `login`. The first request carries no parameters; only when it answers
     * the zero SID is a second one made, with the user name and the response
     * to the challenge. A zero SID again is a blocked login; any other SID
     * becomes the session. A first answer that is not the zero SID leaves
     * the session as it was and returns `None`.
     */
    method Login(round1: LoginReply, round2: LoginReply, md5: Md5Utf16le)
      returns (requests: seq<Request>, r: Result<Option<string>>)
      modifies this
      ensures |requests| == (if round1.sid == ZeroSid then 2 else 1)
      ensures requests[0] == Request(baseUrl + LoginPath, map[])
      ensures round1.sid == ZeroSid ==>
                requests[1] == Request(baseUrl + LoginPath,
                                       map["username" := username,
                                           "response" := CalculateResponse(round1.challenge, password, md5)])
      ensures round1.sid != ZeroSid ==> r == Success(None) && sid == old(sid)
      ensures r.Failure? <==> LoginFails(round1, round2)
      ensures round1.sid == ZeroSid && round2.sid == ZeroSid ==>
                sid == old(sid)
                && r == Failure(if PyInt(round2.blockTime).Some? then LoginBlocked(PyInt(round2.blockTime).value)
                                else NotAnInteger(round2.blockTime))
      ensures round1.sid == ZeroSid && round2.sid != ZeroSid ==>
                r == Success(Some(round2.sid)) && sid == Some(round2.sid)
    {
      var url := baseUrl + LoginPath;
      requests := [Request(url, map[])];
      if round1.sid == ZeroSid {
        var challenge := round1.challenge;
        requests := requests + [Request(url, map["username" := username,
                                                 "response" := CalculateResponse(challenge, password, md5)])];
        var newSid := round2.sid;
        if round2.sid == ZeroSid {
          var blocktime := PyInt(round2.blockTime);
          if blocktime.None? {
            r := Failure(NotAnInteger(round2.blockTime));
          } else {
            r := Failure(LoginBlocked(blocktime.value));
          }
          return;
        }
        sid := Some(newSid);
        r := Success(Some(newSid));
      } else {
        r := Success(None);
      }
    }

    /** The query of a `homeautoswitch` call: command and session, and the AIN when one is given. */
    function SwitchParams(cmd: string, ain: Option<string>): (params: map<string, string>)
      requires LoggedIn()
      reads this
      ensures params.Keys == {"switchcmd", "sid"} + (if Truthy(ain) then {"ain"} else {})
      ensures params["switchcmd"] == cmd && params["sid"] == sid.value
      ensures Truthy(ain) ==> params["ain"] == ain.value
      ensures !Truthy(ain) ==> "ain" !in params
    {
      assert "ain"[0] != "sid"[0] && |"ain"| != |"switchcmd"|;
      var params := map["switchcmd" := cmd, "sid" := sid.value];
      if Truthy(ain) then params["ain" := ain.value] else params
    }

    /** The request `homeautoswitch` sends; none when there is no session. */
    function SwitchRequest(cmd: string, ain: Option<string>): (req: Option<Request>)
      reads this
      ensures req.None? <==> !LoggedIn()
      ensures req.Some? ==> req.value.url == baseUrl + SwitchPath && req.value.params == SwitchParams(cmd, ain)
    {
      if LoggedIn() then Some(Request(baseUrl + SwitchPath, SwitchParams(cmd, ain))) else None
    }

    /** The result of `homeautoswitch`: the reply stripped, or the failed assertion. */
    function SwitchReply(responseText: string): (r: Result<string>)
      reads this
      ensures r.Failure? <==> !LoggedIn()
      ensures r.Failure? ==> r.error == NotLoggedIn
      ensures r.Success? ==> r.value == Strip(responseText)
    {
      if LoggedIn() then Success(Strip(responseText)) else Failure(NotLoggedIn)
    }

    /** `homeautoswitch(cmd, ain)`, with `responseText` the body the gateway answers. */
    method HomeAutoSwitch(cmd: string, ain: Option<string>, responseText: string)
      returns (request: Option<Request>, r: Result<string>)
      ensures request == SwitchRequest(cmd, ain)
      ensures r == SwitchReply(responseText)
    {
      if !LoggedIn() {
        return None, Failure(NotLoggedIn);
      }
      var params := map["switchcmd" := cmd, "sid" := sid.value];
      if Truthy(ain) {
        params := params["ain" := ain.value];
      }
      request := Some(Request(baseUrl + SwitchPath, params));
      r := Success(Strip(responseText));
    }

    method SetSwitchOn(ain: string, responseText: string) returns (request: Option<Request>, r: Result<string>)
      ensures request == SwitchRequest("setswitchon", Some(ain)) && r == SwitchReply(responseText)
    {
      request, r := HomeAutoSwitch("setswitchon", Some(ain), responseText);
    }

    method SetSwitchOff(ain: string, responseText: string) returns (request: Option<Request>, r: Result<string>)
      ensures request == SwitchRequest("setswitchoff", Some(ain)) && r == SwitchReply(responseText)
    {
      request, r := HomeAutoSwitch("setswitchoff", Some(ain), responseText);
    }

    method SetSwitchToggle(ain: string, responseText: string) returns (request: Option<Request>, r: Result<string>)
      ensures request == SwitchRequest("setswitchtoggle", Some(ain)) && r == SwitchReply(responseText)
    {
      request, r := HomeAutoSwitch("setswitchtoggle", Some(ain), responseText);
    }

    /** `get_actor_by_ain` over the list `get_actors` returned: the first actor with that AIN. */
    method GetActorByAin(actors: seq<Actor>, ain: string) returns (r: Option<Actor>)
      ensures r.None? <==> forall i :: 0 <= i < |actors| ==> actors[i].actorId != ain
      ensures r.Some? ==> exists i :: 0 <= i < |actors| && actors[i] == r.value && actors[i].actorId == ain
                                      && forall j :: 0 <= j < i ==> actors[j].actorId != ain
    {
      var i := 0;
      while i < |actors|
        invariant 0 <= i <= |actors|
        invariant forall j :: 0 <= j < i ==> actors[j].actorId != ain
      {
        if actors[i].actorId == ain {
          return Some(actors[i]);
        }
        i := i + 1;
      }
      return None;
    }

    /** The query of a `home_auto_query.lua` call; requests leaves out a `sid` that is `None`. */
    function QueryParams(extra: map<string, string>): (params: map<string, string>)
      requires "sid" !in extra
      reads this
      ensures params.Keys == extra.Keys + (if sid.Some? then {"sid"} else {})
      ensures sid.Some? ==> params["sid"] == sid.value
      ensures forall k :: k in extra ==> params[k] == extra[k]
    {
      (if sid.Some? then map["sid" := sid.value] else map[]) + extra
    }

    /**
     * `get_devices`, with `data` the JSON object of the reply. The loop reads
     * the three keys of each outlet 1..count and stops at the first missing one.
     */
    method GetDevices(data: map<string, int>) returns (request: Request, r: Result<seq<Device>>)
      ensures request == Request(baseUrl + QueryPath, QueryParams(map["command" := "AllOutletStates", "xhr" := "0"]))
      ensures r == DecodeDevices(data)
    {
      request := Request(baseUrl + QueryPath, QueryParams(map["command" := "AllOutletStates", "xhr" := "0"]));
      if OutletCount !in data {
        return request, Failure(MissingKey(OutletCount));
      }
      var count := data[OutletCount];
      ghost var n: nat := if count < 0 then 0 else count;
      var devices: seq<Device> := [];
      var i := 1;
      while i <= count
        invariant 1 <= i <= n + 1
        invariant DecodeOutlets(data, i - 1) == Success(devices)
      {
        if DeviceIdKey(i) !in data || ConnectStateKey(i) !in data || SwitchStateKey(i) !in data {
          DecodeOutletsFailureStays(data, i, n);
        }
        if DeviceIdKey(i) !in data {
          return request, Failure(MissingKey(DeviceIdKey(i)));
        }
        if ConnectStateKey(i) !in data {
          return request, Failure(MissingKey(ConnectStateKey(i)));
        }
        if SwitchStateKey(i) !in data {
          return request, Failure(MissingKey(SwitchStateKey(i)));
        }
        devices := devices + [Device(data[DeviceIdKey(i)], data[ConnectStateKey(i)], data[SwitchStateKey(i)])];
        i := i + 1;
      }
      r := Success(devices);
    }

    /** The first loop of `get_consumption`: the single values renamed into a fresh map. */
    method ReadSingleValues(data: map<string, int>) returns (r: Result<map<string, int>>)
      ensures r == DecodeSingles(data, SingleValueKeys)
    {
      var values: map<string, int> := map[];
      var j := 0;
      while j < |SingleValueKeys|
        invariant 0 <= j <= |SingleValueKeys|
        invariant DecodeSingles(data, SingleValueKeys[..j]) == Success(values)
      {
        var (avmKey, pyKey) := SingleValueKeys[j];
        assert SingleValueKeys[..j + 1][..j] == SingleValueKeys[..j];
        if avmKey !in data {
          DecodeSinglesFailureStays(data, SingleValueKeys, j + 1);
          return Failure(MissingKey(avmKey));
        }
        values := values[pyKey := data[avmKey]];
        j := j + 1;
      }
      assert SingleValueKeys[..j] == SingleValueKeys;
      return Success(values);
    }

    /** The request `get_consumption` sends; none for an unknown timerange. */
    function ConsumptionRequest(deviceId: int, timerange: string): (req: Option<Request>)
      reads this
      ensures req.None? <==> !IsTimerange(timerange)
      ensures req.Some? ==> req.value.url == baseUrl + QueryPath
                            && "command" in req.value.params && "id" in req.value.params
                            && req.value.params["command"] == "EnergyStats_" + timerange
                            && req.value.params["id"] == IntString(deviceId)
    {
      if IsTimerange(timerange)
      then Some(Request(baseUrl + QueryPath,
                        QueryParams(map["command" := "EnergyStats_" + timerange,
                                        "id" := IntString(deviceId), "xhr" := "0"])))
      else None
    }

    /**
     * `get_consumption`, with `data` the JSON object of the reply. An unknown
     * timerange fails before any request; the single values are read into a
     * map and the statistics into two lists preallocated with `EnStats_count`
     * entries.
     */
    method GetConsumption(deviceId: int, data: map<string, int>, timerange: string := "10")
      returns (request: Option<Request>, r: Result<Consumption>)
      ensures request == ConsumptionRequest(deviceId, timerange)
      ensures r == if IsTimerange(timerange) then DecodeConsumption(data) else Failure(UnknownTimerange(timerange))
    {
      request := ConsumptionRequest(deviceId, timerange);
      if !IsTimerange(timerange) {
        return request, Failure(UnknownTimerange(timerange));
      }
      var singles := ReadSingleValues(data);
      if singles.Failure? {
        return request, Failure(singles.error);
      }
      var values := singles.value;
      if EnStatsCount !in data {
        return request, Failure(MissingKey(EnStatsCount));
      }
      var stats := ReadStats(data);
      if stats.Failure? {
        return request, Failure(stats.error);
      }
      r := Success(Consumption(values, stats.value.0, stats.value.1));
    }

    /**
     * The second loop of `get_consumption`: two lists preallocated with
     * `EnStats_count` entries, filled by index from the keys with suffix 1..count.
     */
    method ReadStats(data: map<string, int>) returns (r: Result<(seq<int>, seq<int>)>)
      requires EnStatsCount in data
      ensures r == DecodeStats(data, StatsCount(data))
    {
      var count := data[EnStatsCount];
      var n := StatsCount(data);
      var watts := new int[n];
      var volts := new int[n];
      var i := 1;
      while i <= count
        invariant 1 <= i <= n + 1
        invariant DecodeStats(data, i - 1) == Success((watts[..i - 1], volts[..i - 1]))
      {
        if WattKey(i) !in data || VoltKey(i) !in data {
          DecodeStatsFailureStays(data, i, n);
        }
        if WattKey(i) !in data {
          return Failure(MissingKey(WattKey(i)));
        }
        ghost var ws, vs := watts[..i - 1], volts[..i - 1];
        watts[i - 1] := data[WattKey(i)];
        if VoltKey(i) !in data {
          return Failure(MissingKey(VoltKey(i)));
        }
        volts[i - 1] := data[VoltKey(i)];
        assert watts[..i] == ws + [data[WattKey(i)]];
        assert volts[..i] == vs + [data[VoltKey(i)]];
        DecodeStatsStep(data, i, ws, vs);
        i := i + 1;
      }
      assert watts[..] == watts[..n] && volts[..] == volts[..n];
      return Success((watts[..], volts[..]));
    }
  }

  /** Once the loop of `get_devices` has stopped at a missing key, later rounds do not change that. */
  lemma {:induction false} DecodeOutletsFailureStays(data: map<string, int>, i: nat, n: nat)
    requires i <= n && DecodeOutlets(data, i).Failure?
    ensures DecodeOutlets(data, n) == DecodeOutlets(data, i)
    decreases n - i
  {
    if i < n {
      DecodeOutletsFailureStays(data, i, n - 1);
    }
  }

  /** One more round of the statistics loop appends the two values with the next suffix. */
  lemma {:induction false} DecodeStatsStep(data: map<string, int>, i: nat, watts: seq<int>, volts: seq<int>)
    requires 1 <= i && DecodeStats(data, i - 1) == Success((watts, volts))
    requires WattKey(i) in data && VoltKey(i) in data
    ensures DecodeStats(data, i) == Success((watts + [data[WattKey(i)]], volts + [data[VoltKey(i)]]))
  {
  }

  lemma {:induction false} DecodeStatsFailureStays(data: map<string, int>, i: nat, n: nat)
    requires i <= n && DecodeStats(data, i).Failure?
    ensures DecodeStats(data, n) == DecodeStats(data, i)
    decreases n - i
  {
    if i < n {
      DecodeStatsFailureStays(data, i, n - 1);
    }
  }

  lemma {:induction false} DecodeSinglesFailureStays(data: map<string, int>, pairs: seq<(string, string)>, j: nat)
    requires j <= |pairs| && DecodeSingles(data, pairs[..j]).Failure?
    ensures DecodeSingles(data, pairs) == DecodeSingles(data, pairs[..j])
    decreases |pairs| - j
  {
    if j < |pairs| {
      var init := pairs[..|pairs| - 1];
      assert init[..j] == pairs[..j];
      DecodeSinglesFailureStays(data, init, j);
    } else {
      assert pairs[..j] == pairs;
    }
  }

  // ---- actor.py ----

  /** One smart-home actor; its fields are set once, and `box` is the client that made it. */
  datatype Actor = Actor(box: FritzBox, actorId: string, deviceId: int, name: string,
                         fwversion: string, productname: string, manufacturer: string)
  {
    /** `switch_on`: `setswitchon` for this actor's AIN; the reply is passed on unchanged. */
    method SwitchOn(responseText: string) returns (request: Option<Request>, r: Result<string>)
      ensures request == box.SwitchRequest("setswitchon", Some(actorId))
      ensures r == box.SwitchReply(responseText)
    {
      request, r := box.SetSwitchOn(actorId, responseText);
    }

    /** `switch_off`: `setswitchoff` for this actor's AIN; the reply is passed on unchanged. */
    method SwitchOff(responseText: string) returns (request: Option<Request>, r: Result<string>)
      ensures request == box.SwitchRequest("setswitchoff", Some(actorId))
      ensures r == box.SwitchReply(responseText)
    {
      request, r := box.SetSwitchOff(actorId, responseText);
    }

    /** `get_state`: true exactly when the reply has any non-whitespace text, "0" included. */
    method GetState(responseText: string) returns (request: Option<Request>, r: Result<bool>)
      ensures request == box.SwitchRequest("getswitchstate", Some(actorId))
      ensures r.Failure? <==> !box.LoggedIn()
      ensures r.Failure? ==> r.error == NotLoggedIn
      ensures r.Success? ==> (r.value <==> HasText(responseText))
    {
      var reply;
      request, reply := box.HomeAutoSwitch("getswitchstate", Some(actorId), responseText);
      r := ReplyTruth(reply);
      StripEmptyIff(responseText);
    }

    /** `get_present`: true exactly when the reply has any non-whitespace text, "0" included. */
    method GetPresent(responseText: string) returns (request: Option<Request>, r: Result<bool>)
      ensures request == box.SwitchRequest("getswitchpresent", Some(actorId))
      ensures r.Failure? <==> !box.LoggedIn()
      ensures r.Failure? ==> r.error == NotLoggedIn
      ensures r.Success? ==> (r.value <==> HasText(responseText))
    {
      var reply;
      request, reply := box.HomeAutoSwitch("getswitchpresent", Some(actorId), responseText);
      r := ReplyTruth(reply);
      StripEmptyIff(responseText);
    }

    /** `get_power`, in milliwatts: the stripped reply read as digits, or `None`. */
    method GetPower(responseText: string) returns (request: Option<Request>, r: Result<Option<nat>>)
      ensures request == box.SwitchRequest("getswitchpower", Some(actorId))
      ensures r == if box.LoggedIn() then Success(Reading(Strip(responseText))) else Failure(NotLoggedIn)
    {
      var reply;
      request, reply := box.HomeAutoSwitch("getswitchpower", Some(actorId), responseText);
      r := ReplyReading(reply);
    }

    /** `get_energy`, in watt hours: the same rule as `get_power` on its own command. */
    method GetEnergy(responseText: string) returns (request: Option<Request>, r: Result<Option<nat>>)
      ensures request == box.SwitchRequest("getswitchenergy", Some(actorId))
      ensures r == if box.LoggedIn() then Success(Reading(Strip(responseText))) else Failure(NotLoggedIn)
    {
      var reply;
      request, reply := box.HomeAutoSwitch("getswitchenergy", Some(actorId), responseText);
      r := ReplyReading(reply);
    }

    /** `get_consumption`: the box's report for this actor's device id, not its AIN. */
    method GetConsumption(data: map<string, int>, timerange: string := "10")
      returns (request: Option<Request>, r: Result<Consumption>)
      ensures request == box.ConsumptionRequest(deviceId, timerange)
      ensures request.Some? ==> request.value.params["id"] == IntString(deviceId)
      ensures r == if IsTimerange(timerange) then DecodeConsumption(data) else Failure(UnknownTimerange(timerange))
    {
      request, r := box.GetConsumption(deviceId, data, timerange);
    }
  }

  /** `bool(reply)` on the result of a `homeautoswitch` call. */
  function ReplyTruth(reply: Result<string>): Result<bool> {
    match reply
    case Success(text) => Success(text != "")
    case Failure(e) => Failure(e)
  }

  /** `int(value) if value.isdigit() else None` on the result of a `homeautoswitch` call. */
  function ReplyReading(reply: Result<string>): Result<Option<nat>> {
    match reply
    case Success(text) => Success(Reading(text))
    case Failure(e) => Failure(e)
  }

  /** A meter reading: the number when the reply is all decimal digits, otherwise `None`. */
  function Reading(reply: string): (r: Option<nat>)
    ensures r.Some? <==> IsDigits(reply)
  {
    if IsDigits(reply) then Some(DigitsValue(reply)) else None
  }

  /** A reading the gateway renders in decimal is read back exactly. */
  lemma {:induction false} ReadingOfDecimal(n: nat)
    ensures Reading(DigitString(n)) == Some(n)
  {
    DigitStringValue(n);
  }

  /** Zero is read only from a reply made of zeros; "inval" and "" are no reading at all. */
  lemma {:induction false} ReadingZero(reply: string)
    ensures Reading(reply) == Some(0) <==> reply != [] && forall i :: 0 <= i < |reply| ==> reply[i] == '0'
  {
    if IsDigits(reply) {
      DigitsValueZero(reply);
    }
  }

  lemma {:induction false} DigitsValueZero(s: string)
    requires forall i :: 0 <= i < |s| ==> IsDigit(s[i])
    ensures DigitsValue(s) == 0 <==> forall i :: 0 <= i < |s| ==> s[i] == '0'
  {
    if s != [] {
      var init := s[..|s| - 1];
      DigitsValueZero(init);
      assert forall i :: 0 <= i < |init| ==> init[i] == s[i];
    }
  }

  lemma {:induction false} ReadingExamples()
    ensures Reading("0") == Some(0)
    ensures Reading("inval") == None && Reading("") == None
  {
    assert !IsDigit('i');
  }

  /**
   * A fresh client whose first login reply is not the zero SID keeps no
   * session, so the next command fails its "Not logged in" assertion.
   */
  method LoginWithoutChallenge(ip: string, user: string, password: string, round1: LoginReply,
                               round2: LoginReply, md5: Md5Utf16le, cmd: string, responseText: string)
    returns (login: Result<Option<string>>, r: Result<string>)
    requires round1.sid != ZeroSid
    ensures login == Success(None)
    ensures r == Failure(NotLoggedIn)
  {
    var box := new FritzBox(ip, user, password);
    var requests;
    requests, login := box.Login(round1, round2, md5);
    var request;
    request, r := box.HomeAutoSwitch(cmd, None, responseText);
  }

  /** After a successful challenge login, commands carry the new SID. */
  method LoginWithChallenge(ip: string, user: string, password: string, round1: LoginReply,
                            round2: LoginReply, md5: Md5Utf16le, cmd: string, responseText: string)
    returns (login: Result<Option<string>>, request: Option<Request>, r: Result<string>)
    requires round1.sid == ZeroSid && round2.sid != ZeroSid && round2.sid != ""
    ensures login == Success(Some(round2.sid))
    ensures request.Some? && "sid" in request.value.params && request.value.params["sid"] == round2.sid
    ensures request.Some? && "ain" !in request.value.params
    ensures r == Success(Strip(responseText))
  {
    var box := new FritzBox(ip, user, password);
    var requests;
    requests, login := box.Login(round1, round2, md5);
    assert box.LoggedIn();
    request, r := box.HomeAutoSwitch(cmd, None, responseText);
  }
}
