/**
 * The `Proxy` record of table `pp_proxy`: its constructor, the reset of the
 * probe results (`clear_test_base_result`) and the external representation
 * (`to_dict`). The record's state is specified as a `ProxyRow` value; the
 * class `Proxy` holds the same fields and updates them in place.
 */
module ProxyModel {

  import opened Wrappers
  import opened Hex
  import opened OrderedDict
  import opened Schema

  /** The bound on a UUID's 128-bit integer value. */
  const UuidLimit: nat := Pow16(32)

  /** `uuid.UUID.hex` of a UUID whose 128-bit value is `uuid`. */
  function UuidHex(uuid: nat): (s: string)
    requires uuid < UuidLimit
    ensures IsHexId(s) && Parse(s) == uuid
  {
    ParseRender(uuid, 32);
    Render(uuid, 32)
  }

  /** Distinct UUIDs give distinct ids, and equal ones the same id. */
  lemma UuidHexInjective(a: nat, b: nat)
    requires a < UuidLimit && b < UuidLimit
    ensures UuidHex(a) == UuidHex(b) <==> a == b
  {
    if UuidHex(a) == UuidHex(b) {
      RenderInjective(a, b, 32);
    }
  }

  /** The columns the constructor assigns, in the order it assigns them. */
  const InitColumns: seq<Column> := [
    Id, Host, Port, IsHttpAvailable, IsSocks5Available, Username, Password, IsChinaAvailable,
    Remark, ProviderId, ProviderType, SubscriptionId, NodeId, BaseTestInterval
  ]

  /**
   * The record the constructor builds: `id` from the UUID, the thirteen
   * arguments copied into their columns, every other column `None`. The id is
   * well formed and no column outside `InitColumns` holds a value.
   */
  function NewRow(
    uuid: nat, host: string, port: int,
    isHttpAvailable: Option<bool>, isSocks5Available: Option<bool>,
    username: string, password: Option<string>, isChinaAvailable: Option<bool>,
    remark: Option<string>, providerId: Option<string>, providerType: Option<string>,
    subscriptionId: Option<string>, nodeId: Option<string>, baseTestInterval: Option<int>
  ): (r: ProxyRow)
    requires uuid < UuidLimit
    ensures r.id.Some? && IsHexId(r.id.value)
    ensures forall c :: c !in InitColumns ==> Get(r, c) == Null
  {
    ProxyRow(
      id := Some(UuidHex(uuid)), host := host, port := port, isHttpAvailable := isHttpAvailable,
      isSocks5Available := isSocks5Available, username := username, password := password,
      isChinaAvailable := isChinaAvailable, remark := remark, providerId := providerId,
      providerType := providerType, subscriptionId := subscriptionId, nodeId := nodeId,
      exitIp := None, isIpv4Available := None, isIpv6Available := None, countryCode := None,
      region := None, city := None, longitude := None, latitude := None, timezone := None,
      asn := None, organization := None, asnName := None, asnType := None, asnDomain := None,
      asnRoute := None, isPrivacyVpn := None, isPrivacyProxy := None, isPrivacyTor := None,
      isPrivacyRelay := None, isPrivacyHosting := None, baseTestInterval := baseTestInterval,
      lastBaseTestAt := None, nextBaseTestAt := None, createdBy := None, createdByName := None,
      createdAt := None, updatedBy := None, updatedByName := None, updatedAt := None
    )
  }

  /** The columns `clear_test_base_result` resets, in the order it resets them. */
  const ObservationColumns: seq<Column> := LocationColumns + AsnColumns + PrivacyColumns

  /** There are 20 observation columns, all different, declared one after another. */
  lemma ObservationColumnsAre()
    ensures ObservationColumns == Columns[13..33] && |ObservationColumns| == 20
    ensures forall i, j :: 0 <= i < j < |ObservationColumns| ==>
      ObservationColumns[i] != ObservationColumns[j]
  {
    ColumnsDistinct();
    assert ObservationColumns == Columns[13..33];
  }

  /** The record after `clear_test_base_result`: still the same proxy, by id and by key. */
  function Cleared(r: ProxyRow): (r': ProxyRow)
    ensures r'.id == r.id
    ensures r'.host == r.host && r'.port == r.port && r'.username == r.username
  {
    r.(
      exitIp := None,
      isIpv4Available := None,
      isIpv6Available := None,
      countryCode := None,
      region := None,
      city := None,
      longitude := None,
      latitude := None,
      timezone := None,
      asn := None,
      organization := None,
      asnName := None,
      asnType := None,
      asnDomain := None,
      asnRoute := None,
      isPrivacyVpn := None,
      isPrivacyProxy := None,
      isPrivacyTor := None,
      isPrivacyRelay := None,
      isPrivacyHosting := None
    )
  }

  /** Clearing makes exactly the observation columns null and leaves every other column as it was. */
  lemma ClearedGet(r: ProxyRow, c: Column)
    ensures Get(Cleared(r), c) == if c in ObservationColumns then Null else Get(r, c)
  {
    match c
    case ExitIp | IsIpv4Available | IsIpv6Available | CountryCode | Region | City | Longitude
      | Latitude | Timezone | Asn | Organization | AsnName | AsnType | AsnDomain | AsnRoute
      | IsPrivacyVpn | IsPrivacyProxy | IsPrivacyTor | IsPrivacyRelay | IsPrivacyHosting =>
      assert c in ObservationColumns;
    case _ =>
      assert c !in ObservationColumns;
  }

  /** Clearing twice is clearing once. */
  lemma ClearIdempotent(r: ProxyRow)
    ensures Cleared(Cleared(r)) == Cleared(r)
  {
  }

  /** A new record has nothing to clear. */
  lemma NewRowIsClear(
    uuid: nat, host: string, port: int,
    isHttpAvailable: Option<bool>, isSocks5Available: Option<bool>,
    username: string, password: Option<string>, isChinaAvailable: Option<bool>,
    remark: Option<string>, providerId: Option<string>, providerType: Option<string>,
    subscriptionId: Option<string>, nodeId: Option<string>, baseTestInterval: Option<int>
  )
    requires uuid < UuidLimit
    ensures var r := NewRow(
        uuid, host, port, isHttpAvailable, isSocks5Available, username, password,
        isChinaAvailable, remark, providerId, providerType, subscriptionId, nodeId, baseTestInterval);
      Cleared(r) == r
  {
  }

  /**
   * The external representation: one (name, value) entry per column, in
   * declaration order, so that no key appears twice.
   */
  function Entries(r: ProxyRow): (d: seq<(string, Value)>)
    ensures |d| == |Columns| == 42
    ensures forall i :: 0 <= i < |d| ==> d[i].0 == Name(Columns[i])
    ensures KeysDistinct(d)
  {
    ColumnNamesDistinct();
    seq(|Columns|, i requires 0 <= i < |Columns| => (Name(Columns[i]), Get(r, Columns[i])))
  }

  /** As a mapping, the representation has exactly one key per column, mapped to that column's value. */
  lemma DictExact(r: ProxyRow)
    ensures var m := AsMap(Entries(r));
      |m| == |Columns| == 42 &&
      (forall k :: k in m <==> exists c :: Name(c) == k) &&
      forall c :: Name(c) in m && m[Name(c)] == Get(r, c)
  {
    var d := Entries(r);
    AsMapSize(d);
    forall c ensures Name(c) in AsMap(d) && AsMap(d)[Name(c)] == Get(r, c) {
      AsMapLookup(d, Index(c));
    }
  }

  /** After clearing, the representation shows null for the observation columns and is otherwise unchanged. */
  lemma EntriesAfterClear(r: ProxyRow)
    ensures |Entries(Cleared(r))| == |Entries(r)|
    ensures forall i :: 0 <= i < |Columns| ==>
      Entries(Cleared(r))[i] ==
        if Columns[i] in ObservationColumns then (Name(Columns[i]), Null) else Entries(r)[i]
  {
    forall i | 0 <= i < |Columns| {
      ClearedGet(r, Columns[i]);
    }
  }

  /** A `Proxy` record whose columns are updated in place. */
  class Proxy {

    var id: Option<string>
    var host: string
    var port: int
    var isHttpAvailable: Option<bool>
    var isSocks5Available: Option<bool>
    var username: string
    var password: Option<string>
    var isChinaAvailable: Option<bool>
    var remark: Option<string>
    var providerId: Option<string>
    var providerType: Option<string>
    var subscriptionId: Option<string>
    var nodeId: Option<string>
    var exitIp: Option<string>
    var isIpv4Available: Option<bool>
    var isIpv6Available: Option<bool>
    var countryCode: Option<string>
    var region: Option<string>
    var city: Option<string>
    var longitude: Option<string>
    var latitude: Option<string>
    var timezone: Option<string>
    var asn: Option<string>
    var organization: Option<string>
    var asnName: Option<string>
    var asnType: Option<string>
    var asnDomain: Option<string>
    var asnRoute: Option<string>
    var isPrivacyVpn: Option<bool>
    var isPrivacyProxy: Option<bool>
    var isPrivacyTor: Option<bool>
    var isPrivacyRelay: Option<bool>
    var isPrivacyHosting: Option<bool>
    var baseTestInterval: Option<int>
    var lastBaseTestAt: Option<DateTime>
    var nextBaseTestAt: Option<DateTime>
    var createdBy: Option<string>
    var createdByName: Option<string>
    var createdAt: Option<DateTime>
    var updatedBy: Option<string>
    var updatedByName: Option<string>
    var updatedAt: Option<DateTime>

    /** The record's columns as a value. */
    function Row(): ProxyRow
      reads this
    {
      ProxyRow(
        id, host, port, isHttpAvailable, isSocks5Available, username, password, isChinaAvailable,
        remark, providerId, providerType, subscriptionId, nodeId, exitIp, isIpv4Available,
        isIpv6Available, countryCode, region, city, longitude, latitude, timezone, asn,
        organization, asnName, asnType, asnDomain, asnRoute, isPrivacyVpn, isPrivacyProxy,
        isPrivacyTor, isPrivacyRelay, isPrivacyHosting, baseTestInterval, lastBaseTestAt,
        nextBaseTestAt, createdBy, createdByName, createdAt, updatedBy, updatedByName, updatedAt
      )
    }

    /**
     * `Proxy(...)`: `uuid` is the value of the `uuid4()` the source draws.
     * Columns the source does not assign read as `None` on a new instance.
     */
    constructor(
      uuid: nat, host: string, port: int,
      isHttpAvailable: Option<bool>, isSocks5Available: Option<bool>,
      username: string, password: Option<string>, isChinaAvailable: Option<bool>,
      remark: Option<string>, providerId: Option<string>, providerType: Option<string>,
      subscriptionId: Option<string>, nodeId: Option<string>, baseTestInterval: Option<int>
    )
      requires uuid < UuidLimit
      ensures Row() == NewRow(
        uuid, host, port, isHttpAvailable, isSocks5Available, username, password,
        isChinaAvailable, remark, providerId, providerType, subscriptionId, nodeId, baseTestInterval)
    {
      id := Some(UuidHex(uuid));
      this.host := host;
      this.port := port;
      this.isHttpAvailable := isHttpAvailable;
      this.isSocks5Available := isSocks5Available;
      this.username := username;
      this.password := password;
      this.isChinaAvailable := isChinaAvailable;
      this.remark := remark;
      this.providerId := providerId;
      this.providerType := providerType;
      this.subscriptionId := subscriptionId;
      this.nodeId := nodeId;
      this.baseTestInterval := baseTestInterval;
      exitIp := None;
      isIpv4Available := None;
      isIpv6Available := None;
      countryCode := None;
      region := None;
      city := None;
      longitude := None;
      latitude := None;
      timezone := None;
      asn := None;
      organization := None;
      asnName := None;
      asnType := None;
      asnDomain := None;
      asnRoute := None;
      isPrivacyVpn := None;
      isPrivacyProxy := None;
      isPrivacyTor := None;
      isPrivacyRelay := None;
      isPrivacyHosting := None;
      lastBaseTestAt := None;
      nextBaseTestAt := None;
      createdBy := None;
      createdByName := None;
      createdAt := None;
      updatedBy := None;
      updatedByName := None;
      updatedAt := None;
    }

    /**
     * `clear_test_base_result`: forget what the last probe observed. The
     * observation columns become `None` one after another; nothing else
     * changes, and `to_dict` changes only in those entries.
     */
    method ClearTestBaseResult()
      modifies this
      ensures Row() == Cleared(old(Row()))
      ensures |ToDict()| == |old(ToDict())|
      ensures forall i :: 0 <= i < |Columns| ==>
        ToDict()[i] ==
          if Columns[i] in ObservationColumns then (Name(Columns[i]), Null) else old(ToDict())[i]
    {
      SetExitIp(None);
      SetIsIpv4Available(None);
      SetIsIpv6Available(None);
      SetCountryCode(None);
      SetRegion(None);
      SetCity(None);
      SetLongitude(None);
      SetLatitude(None);
      SetTimezone(None);
      SetAsn(None);
      SetOrganization(None);
      SetAsnName(None);
      SetAsnType(None);
      SetAsnDomain(None);
      SetAsnRoute(None);
      SetIsPrivacyVpn(None);
      SetIsPrivacyProxy(None);
      SetIsPrivacyTor(None);
      SetIsPrivacyRelay(None);
      SetIsPrivacyHosting(None);
      EntriesAfterClear(old(Row()));
    }

    // Attribute assignment `self.<column> = v` for the observation columns:
    // each setter changes its own column and no other.

    method SetExitIp(v: Option<string>)
      modifies this
      ensures Row() == old(Row()).(exitIp := v)
    {
      exitIp := v;
    }

    method SetIsIpv4Available(v: Option<bool>)
      modifies this
      ensures Row() == old(Row()).(isIpv4Available := v)
    {
      isIpv4Available := v;
    }

    method SetIsIpv6Available(v: Option<bool>)
      modifies this
      ensures Row() == old(Row()).(isIpv6Available := v)
    {
      isIpv6Available := v;
    }

    method SetCountryCode(v: Option<string>)
      modifies this
      ensures Row() == old(Row()).(countryCode := v)
    {
      countryCode := v;
    }

    method SetRegion(v: Option<string>)
      modifies this
      ensures Row() == old(Row()).(region := v)
    {
      region := v;
    }

    method SetCity(v: Option<string>)
      modifies this
      ensures Row() == old(Row()).(city := v)
    {
      city := v;
    }

    method SetLongitude(v: Option<string>)
      modifies this
      ensures Row() == old(Row()).(longitude := v)
    {
      longitude := v;
    }

    method SetLatitude(v: Option<string>)
      modifies this
      ensures Row() == old(Row()).(latitude := v)
    {
      latitude := v;
    }

    method SetTimezone(v: Option<string>)
      modifies this
      ensures Row() == old(Row()).(timezone := v)
    {
      timezone := v;
    }

    method SetAsn(v: Option<string>)
      modifies this
      ensures Row() == old(Row()).(asn := v)
    {
      asn := v;
    }

    method SetOrganization(v: Option<string>)
      modifies this
      ensures Row() == old(Row()).(organization := v)
    {
      organization := v;
    }

    method SetAsnName(v: Option<string>)
      modifies this
      ensures Row() == old(Row()).(asnName := v)
    {
      asnName := v;
    }

    method SetAsnType(v: Option<string>)
      modifies this
      ensures Row() == old(Row()).(asnType := v)
    {
      asnType := v;
    }

    method SetAsnDomain(v: Option<string>)
      modifies this
      ensures Row() == old(Row()).(asnDomain := v)
    {
      asnDomain := v;
    }

    method SetAsnRoute(v: Option<string>)
      modifies this
      ensures Row() == old(Row()).(asnRoute := v)
    {
      asnRoute := v;
    }

    method SetIsPrivacyVpn(v: Option<bool>)
      modifies this
      ensures Row() == old(Row()).(isPrivacyVpn := v)
    {
      isPrivacyVpn := v;
    }

    method SetIsPrivacyProxy(v: Option<bool>)
      modifies this
      ensures Row() == old(Row()).(isPrivacyProxy := v)
    {
      isPrivacyProxy := v;
    }

    method SetIsPrivacyTor(v: Option<bool>)
      modifies this
      ensures Row() == old(Row()).(isPrivacyTor := v)
    {
      isPrivacyTor := v;
    }

    method SetIsPrivacyRelay(v: Option<bool>)
      modifies this
      ensures Row() == old(Row()).(isPrivacyRelay := v)
    {
      isPrivacyRelay := v;
    }

    method SetIsPrivacyHosting(v: Option<bool>)
      modifies this
      ensures Row() == old(Row()).(isPrivacyHosting := v)
    {
      isPrivacyHosting := v;
    }

    /**
     * `to_dict`: one (key, value) entry per column, in declaration order; as a
     * mapping it has one key per column, holding that column's current value.
     */
    function ToDict(): (d: seq<(string, Value)>)
      reads this
      ensures |d| == |Columns| == 42 && KeysDistinct(d)
      ensures forall i :: 0 <= i < |d| ==> d[i].0 == Name(Columns[i])
      ensures forall c :: Name(c) in AsMap(d) && AsMap(d)[Name(c)] == Get(Row(), c)
    {
      DictExact(Row());
      Entries(Row())
    }
  }

  /**
   * A client: a new record, a probe writing two observations, then a reset.
   * The key, the credentials and the schedule survive; the observations do not.
   */
  method ExampleScenario(uuid: nat)
    requires uuid < UuidLimit
  {
    var p := new Proxy(uuid, "1.2.3.4", 1080, Some(true), Some(false), "u1", Some("p1"), Some(false),
                       Some("test"), Some("prov1"), Some("vendorA"), None, None, Some(3600));
    assert p.id.Some? && IsHexId(p.id.value);
    assert p.exitIp == None && p.createdAt == None;
    p.SetExitIp(Some("5.6.7.8"));
    p.SetCountryCode(Some("US"));
    p.ClearTestBaseResult();
    assert p.exitIp == None && p.countryCode == None;
    assert p.host == "1.2.3.4" && p.port == 1080 && p.username == "u1";
    assert p.password == Some("p1") && p.baseTestInterval == Some(3600);
    assert |p.ToDict()| == 42;
  }
}
