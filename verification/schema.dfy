/**
 * The columns of table `pp_proxy` (the `Proxy` record): the value a column
 * holds, the record as a value, and the column names that `to_dict` uses as
 * keys.
 */
module Schema {

  import opened Wrappers

  /** A `DateTime` column; the model never computes with it, so a count of time units stands for it. */
  type DateTime = int

  /** A value in the external representation; `Null` is Python's `None`. */
  datatype Value = Null | Str(s: string) | Int(i: int) | Bool(b: bool) | Time(t: DateTime)

  function OfString(o: Option<string>): Value {
    match o
    case None => Null
    case Some(s) => Str(s)
  }

  /** A tri-state flag: true, false, or unknown (`None`). */
  function OfBool(o: Option<bool>): Value {
    match o
    case None => Null
    case Some(b) => Bool(b)
  }

  function OfInt(o: Option<int>): Value {
    match o
    case None => Null
    case Some(i) => Int(i)
  }

  function OfTime(o: Option<DateTime>): Value {
    match o
    case None => Null
    case Some(t) => Time(t)
  }

  /** One constructor per column, in declaration order. */
  datatype Column =
    | Id
    | Host
    | Port
    | IsHttpAvailable
    | IsSocks5Available
    | Username
    | Password
    | IsChinaAvailable
    | Remark
    | ProviderId
    | ProviderType
    | SubscriptionId
    | NodeId
    | ExitIp
    | IsIpv4Available
    | IsIpv6Available
    | CountryCode
    | Region
    | City
    | Longitude
    | Latitude
    | Timezone
    | Asn
    | Organization
    | AsnName
    | AsnType
    | AsnDomain
    | AsnRoute
    | IsPrivacyVpn
    | IsPrivacyProxy
    | IsPrivacyTor
    | IsPrivacyRelay
    | IsPrivacyHosting
    | BaseTestInterval
    | LastBaseTestAt
    | NextBaseTestAt
    | CreatedBy
    | CreatedByName
    | CreatedAt
    | UpdatedBy
    | UpdatedByName
    | UpdatedAt

  /** Every column, in declaration order (which is also the order of `to_dict`). */
  const Columns: seq<Column> :=
    BasicColumns + LinkageColumns + LocationColumns + AsnColumns + PrivacyColumns
    + ScheduleColumns + AuditColumns

  /** Identity, key, credentials and capability flags. */
  const BasicColumns: seq<Column> :=
    [Id, Host, Port, IsHttpAvailable, IsSocks5Available, Username, Password, IsChinaAvailable, Remark]

  /** Provider, subscription and node identifiers. */
  const LinkageColumns: seq<Column> := [ProviderId, ProviderType, SubscriptionId, NodeId]

  /** What a probe observed about the exit: address, IP versions and geolocation. */
  const LocationColumns: seq<Column> := [
    ExitIp, IsIpv4Available, IsIpv6Available, CountryCode, Region, City, Longitude, Latitude,
    Timezone
  ]

  /** What a probe observed about the exit's autonomous system. */
  const AsnColumns: seq<Column> := [Asn, Organization, AsnName, AsnType, AsnDomain, AsnRoute]

  /** The anonymity classification. */
  const PrivacyColumns: seq<Column> :=
    [IsPrivacyVpn, IsPrivacyProxy, IsPrivacyTor, IsPrivacyRelay, IsPrivacyHosting]

  /** The retest schedule. */
  const ScheduleColumns: seq<Column> := [BaseTestInterval, LastBaseTestAt, NextBaseTestAt]

  /** Creator and updater. */
  const AuditColumns: seq<Column> :=
    [CreatedBy, CreatedByName, CreatedAt, UpdatedBy, UpdatedByName, UpdatedAt]

  /** The column's name, which is also its key in `to_dict`; the key reads back as its column. */
  function Name(c: Column): (k: string)
    ensures ColumnOf(k) == Some(c)
  {
    match c
    case Id => "id"
    case Host => "host"
    case Port => "port"
    case IsHttpAvailable => "is_http_available"
    case IsSocks5Available => "is_socks5_available"
    case Username => "username"
    case Password => "password"
    case IsChinaAvailable => "is_china_available"
    case Remark => "remark"
    case ProviderId => "provider_id"
    case ProviderType => "provider_type"
    case SubscriptionId => "subscription_id"
    case NodeId => "node_id"
    case ExitIp => "exit_ip"
    case IsIpv4Available => "is_ipv4_available"
    case IsIpv6Available => "is_ipv6_available"
    case CountryCode => "country_code"
    case Region => "region"
    case City => "city"
    case Longitude => "longitude"
    case Latitude => "latitude"
    case Timezone => "timezone"
    case Asn => "asn"
    case Organization => "organization"
    case AsnName => "asn_name"
    case AsnType => "asn_type"
    case AsnDomain => "asn_domain"
    case AsnRoute => "asn_route"
    case IsPrivacyVpn => "is_privacy_vpn"
    case IsPrivacyProxy => "is_privacy_proxy"
    case IsPrivacyTor => "is_privacy_tor"
    case IsPrivacyRelay => "is_privacy_relay"
    case IsPrivacyHosting => "is_privacy_hosting"
    case BaseTestInterval => "base_test_interval"
    case LastBaseTestAt => "last_base_test_at"
    case NextBaseTestAt => "next_base_test_at"
    case CreatedBy => "created_by"
    case CreatedByName => "created_by_name"
    case CreatedAt => "created_at"
    case UpdatedBy => "updated_by"
    case UpdatedByName => "updated_by_name"
    case UpdatedAt => "updated_at"
  }

  /** Where a column stands in the declaration order. */
  function Index(c: Column): (i: nat)
    ensures i < |Columns| && Columns[i] == c
  {
    match c
    case Id => 0
    case Host => 1
    case Port => 2
    case IsHttpAvailable => 3
    case IsSocks5Available => 4
    case Username => 5
    case Password => 6
    case IsChinaAvailable => 7
    case Remark => 8
    case ProviderId => 9
    case ProviderType => 10
    case SubscriptionId => 11
    case NodeId => 12
    case ExitIp => 13
    case IsIpv4Available => 14
    case IsIpv6Available => 15
    case CountryCode => 16
    case Region => 17
    case City => 18
    case Longitude => 19
    case Latitude => 20
    case Timezone => 21
    case Asn => 22
    case Organization => 23
    case AsnName => 24
    case AsnType => 25
    case AsnDomain => 26
    case AsnRoute => 27
    case IsPrivacyVpn => 28
    case IsPrivacyProxy => 29
    case IsPrivacyTor => 30
    case IsPrivacyRelay => 31
    case IsPrivacyHosting => 32
    case BaseTestInterval => 33
    case LastBaseTestAt => 34
    case NextBaseTestAt => 35
    case CreatedBy => 36
    case CreatedByName => 37
    case CreatedAt => 38
    case UpdatedBy => 39
    case UpdatedByName => 40
    case UpdatedAt => 41
  }

  /** No column is listed twice. */
  lemma ColumnsDistinct()
    ensures forall i, j :: 0 <= i < j < |Columns| ==> Columns[i] != Columns[j]
  {
    forall i | 0 <= i < |Columns| ensures Index(Columns[i]) == i {
      IndexAt(i);
    }
  }

  /** `Index` undoes indexing into `Columns`. */
  lemma IndexAt(i: nat)
    requires i < |Columns|
    ensures Index(Columns[i]) == i
  {
    BasicIndexed();
    LinkageIndexed();
    LocationIndexed();
    AsnIndexed();
    PrivacyIndexed();
    ScheduleIndexed();
    AuditIndexed();
    var basic, linkage, location, asn, privacy, schedule :=
      |BasicColumns|, |LinkageColumns|, |LocationColumns|, |AsnColumns|, |PrivacyColumns|,
      |ScheduleColumns|;
    var probe := location + asn;
    if i < basic {
      assert Columns[i] == BasicColumns[i];
    } else if i < basic + linkage {
      assert Columns[i] == LinkageColumns[i - basic];
    } else if i < basic + linkage + location {
      assert Columns[i] == LocationColumns[i - basic - linkage];
    } else if i < basic + linkage + probe {
      assert Columns[i] == AsnColumns[i - basic - linkage - location];
    } else if i < basic + linkage + probe + privacy {
      assert Columns[i] == PrivacyColumns[i - basic - linkage - probe];
    } else if i < basic + linkage + probe + privacy + schedule {
      assert Columns[i] == ScheduleColumns[i - basic - linkage - probe - privacy];
    } else {
      assert Columns[i] == AuditColumns[i - basic - linkage - probe - privacy - schedule];
    }
  }

  /**
   * Each group of columns sits at its offset in the declaration order. The
   * column list is split into groups only so that these proofs stay small.
   */
  lemma BasicIndexed()
    ensures forall i :: 0 <= i < |BasicColumns| ==> Index(BasicColumns[i]) == 0 + i
  {
  }

  lemma LinkageIndexed()
    ensures forall i :: 0 <= i < |LinkageColumns| ==> Index(LinkageColumns[i]) == 9 + i
  {
  }

  lemma LocationIndexed()
    ensures forall i :: 0 <= i < |LocationColumns| ==> Index(LocationColumns[i]) == 13 + i
  {
    // The case split on `i` only keeps the proof cheap for the verifier.
    forall i | 0 <= i < |LocationColumns| ensures Index(LocationColumns[i]) == 13 + i {
      if i < 5 {
      } else {
      }
    }
  }

  lemma AsnIndexed()
    ensures forall i :: 0 <= i < |AsnColumns| ==> Index(AsnColumns[i]) == 22 + i
  {
  }

  lemma PrivacyIndexed()
    ensures forall i :: 0 <= i < |PrivacyColumns| ==> Index(PrivacyColumns[i]) == 28 + i
  {
  }

  lemma ScheduleIndexed()
    ensures forall i :: 0 <= i < |ScheduleColumns| ==> Index(ScheduleColumns[i]) == 33 + i
  {
  }

  lemma AuditIndexed()
    ensures forall i :: 0 <= i < |AuditColumns| ==> Index(AuditColumns[i]) == 36 + i
  {
  }

  /**
   * The column a `to_dict` key names, if any: the inverse of `Name`, which states
   * the round trip. Keys are told apart by length first only so that checking
   * that round trip stays cheap for the verifier.
   */
  function ColumnOf(k: string): Option<Column> {
    match |k|
    case 2 => if k == "id" then Some(Id) else None
    case 3 => if k == "asn" then Some(Asn) else None
    case 4 =>
      if k == "host" then Some(Host)
      else if k == "port" then Some(Port)
      else if k == "city" then Some(City)
      else None
    case 6 =>
      if k == "remark" then Some(Remark)
      else if k == "region" then Some(Region)
      else None
    case 7 =>
      if k == "node_id" then Some(NodeId)
      else if k == "exit_ip" then Some(ExitIp)
      else None
    case 8 =>
      if k == "username" then Some(Username)
      else if k == "password" then Some(Password)
      else if k == "latitude" then Some(Latitude)
      else if k == "timezone" then Some(Timezone)
      else if k == "asn_name" then Some(AsnName)
      else if k == "asn_type" then Some(AsnType)
      else None
    case 9 =>
      if k == "longitude" then Some(Longitude)
      else if k == "asn_route" then Some(AsnRoute)
      else None
    case 10 =>
      if k == "asn_domain" then Some(AsnDomain)
      else if k == "created_by" then Some(CreatedBy)
      else if k == "created_at" then Some(CreatedAt)
      else if k == "updated_by" then Some(UpdatedBy)
      else if k == "updated_at" then Some(UpdatedAt)
      else None
    case 11 => if k == "provider_id" then Some(ProviderId) else None
    case 12 =>
      if k == "country_code" then Some(CountryCode)
      else if k == "organization" then Some(Organization)
      else None
    case 13 => if k == "provider_type" then Some(ProviderType) else None
    case 14 =>
      if k == "is_privacy_vpn" then Some(IsPrivacyVpn)
      else if k == "is_privacy_tor" then Some(IsPrivacyTor)
      else None
    case 15 =>
      if k == "subscription_id" then Some(SubscriptionId)
      else if k == "created_by_name" then Some(CreatedByName)
      else if k == "updated_by_name" then Some(UpdatedByName)
      else None
    case 16 =>
      if k == "is_privacy_proxy" then Some(IsPrivacyProxy)
      else if k == "is_privacy_relay" then Some(IsPrivacyRelay)
      else None
    case 17 =>
      if k == "is_http_available" then Some(IsHttpAvailable)
      else if k == "is_ipv4_available" then Some(IsIpv4Available)
      else if k == "is_ipv6_available" then Some(IsIpv6Available)
      else if k == "last_base_test_at" then Some(LastBaseTestAt)
      else if k == "next_base_test_at" then Some(NextBaseTestAt)
      else None
    case 18 =>
      if k == "is_china_available" then Some(IsChinaAvailable)
      else if k == "is_privacy_hosting" then Some(IsPrivacyHosting)
      else if k == "base_test_interval" then Some(BaseTestInterval)
      else None
    case 19 => if k == "is_socks5_available" then Some(IsSocks5Available) else None
    case _ => None
  }

  /** The `to_dict` keys, taken in declaration order, are pairwise different. */
  lemma ColumnNamesDistinct()
    ensures forall i, j :: 0 <= i < j < |Columns| ==> Name(Columns[i]) != Name(Columns[j])
  {
    ColumnsDistinct();
  }

  /** No two columns share a name. */
  lemma NameInjective(a: Column, b: Column)
    requires Name(a) == Name(b)
    ensures a == b
  {
  }

  /** A `Proxy` record as a value: one field per column, `None` for a null column. */
  datatype ProxyRow = ProxyRow(
    id: Option<string>,
    host: string,
    port: int,
    isHttpAvailable: Option<bool>,
    isSocks5Available: Option<bool>,
    username: string,
    password: Option<string>,
    isChinaAvailable: Option<bool>,
    remark: Option<string>,
    providerId: Option<string>,
    providerType: Option<string>,
    subscriptionId: Option<string>,
    nodeId: Option<string>,
    exitIp: Option<string>,
    isIpv4Available: Option<bool>,
    isIpv6Available: Option<bool>,
    countryCode: Option<string>,
    region: Option<string>,
    city: Option<string>,
    longitude: Option<string>,
    latitude: Option<string>,
    timezone: Option<string>,
    asn: Option<string>,
    organization: Option<string>,
    asnName: Option<string>,
    asnType: Option<string>,
    asnDomain: Option<string>,
    asnRoute: Option<string>,
    isPrivacyVpn: Option<bool>,
    isPrivacyProxy: Option<bool>,
    isPrivacyTor: Option<bool>,
    isPrivacyRelay: Option<bool>,
    isPrivacyHosting: Option<bool>,
    baseTestInterval: Option<int>,
    lastBaseTestAt: Option<DateTime>,
    nextBaseTestAt: Option<DateTime>,
    createdBy: Option<string>,
    createdByName: Option<string>,
    createdAt: Option<DateTime>,
    updatedBy: Option<string>,
    updatedByName: Option<string>,
    updatedAt: Option<DateTime>
  )

  /** The SQL type a column is declared with (`String` and `Text` are both text). */
  datatype SqlType = Text | Integer | Boolean | DateTimeType

  function TypeOf(c: Column): SqlType {
    match c
    case Port | BaseTestInterval => Integer
    case IsHttpAvailable | IsSocks5Available | IsChinaAvailable | IsIpv4Available
      | IsIpv6Available | IsPrivacyVpn | IsPrivacyProxy | IsPrivacyTor | IsPrivacyRelay
      | IsPrivacyHosting => Boolean
    case LastBaseTestAt | NextBaseTestAt | CreatedAt | UpdatedAt => DateTimeType
    case _ => Text
  }

  /** The columns of the composite primary key. */
  predicate IsPrimaryKey(c: Column) {
    c == Host || c == Port || c == Username
  }

  /** `v` is a value of SQL type `t`. */
  predicate HasType(v: Value, t: SqlType) {
    match t
    case Text => v.Str?
    case Integer => v.Int?
    case Boolean => v.Bool?
    case DateTimeType => v.Time?
  }

  /**
   * The value of one column of a record, as the external representation shows
   * it: null or of the column's declared type, and never null in the key.
   */
  function Get(r: ProxyRow, c: Column): (v: Value)
    ensures v == Null || HasType(v, TypeOf(c))
    ensures IsPrimaryKey(c) ==> v != Null
  {
    match c
    case Id => OfString(r.id)
    case Host => Str(r.host)
    case Port => Int(r.port)
    case IsHttpAvailable => OfBool(r.isHttpAvailable)
    case IsSocks5Available => OfBool(r.isSocks5Available)
    case Username => Str(r.username)
    case Password => OfString(r.password)
    case IsChinaAvailable => OfBool(r.isChinaAvailable)
    case Remark => OfString(r.remark)
    case ProviderId => OfString(r.providerId)
    case ProviderType => OfString(r.providerType)
    case SubscriptionId => OfString(r.subscriptionId)
    case NodeId => OfString(r.nodeId)
    case ExitIp => OfString(r.exitIp)
    case IsIpv4Available => OfBool(r.isIpv4Available)
    case IsIpv6Available => OfBool(r.isIpv6Available)
    case CountryCode => OfString(r.countryCode)
    case Region => OfString(r.region)
    case City => OfString(r.city)
    case Longitude => OfString(r.longitude)
    case Latitude => OfString(r.latitude)
    case Timezone => OfString(r.timezone)
    case Asn => OfString(r.asn)
    case Organization => OfString(r.organization)
    case AsnName => OfString(r.asnName)
    case AsnType => OfString(r.asnType)
    case AsnDomain => OfString(r.asnDomain)
    case AsnRoute => OfString(r.asnRoute)
    case IsPrivacyVpn => OfBool(r.isPrivacyVpn)
    case IsPrivacyProxy => OfBool(r.isPrivacyProxy)
    case IsPrivacyTor => OfBool(r.isPrivacyTor)
    case IsPrivacyRelay => OfBool(r.isPrivacyRelay)
    case IsPrivacyHosting => OfBool(r.isPrivacyHosting)
    case BaseTestInterval => OfInt(r.baseTestInterval)
    case LastBaseTestAt => OfTime(r.lastBaseTestAt)
    case NextBaseTestAt => OfTime(r.nextBaseTestAt)
    case CreatedBy => OfString(r.createdBy)
    case CreatedByName => OfString(r.createdByName)
    case CreatedAt => OfTime(r.createdAt)
    case UpdatedBy => OfString(r.updatedBy)
    case UpdatedByName => OfString(r.updatedByName)
    case UpdatedAt => OfTime(r.updatedAt)
  }
}
