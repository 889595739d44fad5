# Proxy record model

A Dafny model of the `Proxy` record of table `pp_proxy` (file `Proxy.py`): the
42 columns a proxy endpoint carries (identity, connection key, credentials,
capability flags, provider linkage, what the last probe observed about the exit,
the retest schedule and the audit trail), and the three operations the class
defines:

- the constructor, which draws a fresh `uuid4().hex` id, copies its thirteen
  arguments into their columns and leaves every other column `None`;
- `clear_test_base_result`, which sets the twenty columns a base test fills in
  (exit address, IP versions, geolocation, ASN data and the five privacy flags)
  back to `None`;
- `to_dict`, which returns a dictionary with one key per column, named after the
  column, in declaration order.

Layout:

- `wrappers.dfy`: `Option`, the model of a nullable column.
- `hex.dfy`: fixed-width lower-case hex rendering and its inverse. This is what
  `uuid.UUID.hex` does to the 128-bit value.
- `ordered_dict.dfy`: an insertion-ordered dictionary as a sequence of
  `(key, value)` pairs, together with the mapping it denotes.
- `schema.dfy`: the column enumeration, its declaration order and its groups, the
  column names, the record as a value (`ProxyRow`), and `Get`, the value of one
  column as `to_dict` shows it.
- `proxy.dfy`:
  - the specification functions `NewRow`, `Cleared` and `Entries`, and the lemmas
    about them;
  - the class `Proxy`, whose fields are the 42 columns. Its constructor,
    `ClearTestBaseResult` and `ToDict` are proved against those functions through
    `Row()`, the record's current value;
  - `ExampleScenario`, a client that constructs, probes and resets a record.

`to_dict` has 42 keys (Proxy.py:173-214) and `clear_test_base_result` clears 20
columns (Proxy.py:147-166).

## Model

| member | source | states |
|---|---|---|
| Schema.Index | Proxy.py:30-111 | every column has a position in the declaration order, and the column list holds that column at that position |
| Schema.ColumnsDistinct | Proxy.py:30-111 | no column is declared twice: the 42 entries of the column list are pairwise different |
| Schema.Name | Proxy.py:173-214 | each column's `to_dict` key is the key string of the literal, and reading the key back yields that column |
| Schema.ColumnNamesDistinct | Proxy.py:173-214 | the 42 keys of the literal, in declaration order, are pairwise different |
| Schema.Get | Proxy.py:30-111 | the value a column shows is null or of the SQL type the column is declared with, and the primary-key columns `host`, `port` and `username` are never null |
| Schema.NameInjective | Proxy.py:173-214 | two columns with the same `to_dict` key are the same column |
| Hex.Render | Proxy.py:128 | rendering a value to `width` hex digits yields exactly `width` characters, all lower-case hex digits |
| Hex.ParseRender | Proxy.py:128 | rendering loses nothing: parsing the digits gives back any value that fits in `width` digits |
| Hex.RenderInjective | Proxy.py:128 | two values that fit in `width` digits have the same rendering only if they are equal |
| ProxyModel.UuidHex | Proxy.py:128 | the id the constructor stores is 32 lower-case hex digits and encodes the UUID's 128-bit value |
| ProxyModel.UuidHexInjective | Proxy.py:128 | distinct UUIDs give distinct ids, and equal UUIDs the same id |
| ProxyModel.NewRow | Proxy.py:128-141 | the record the constructor builds has a 32-digit lower-case hex id, and every column outside `InitColumns` (the id and the thirteen arguments' columns) is null |
| ProxyModel.NewRowIsClear | Proxy.py:113-141 | a new record has no probe result: clearing it changes nothing |
| ProxyModel.Proxy.constructor | Proxy.py:113-141 | the new object's columns are the id from the UUID, the thirteen arguments in their columns, and null everywhere else |
| ProxyModel.Cleared | Proxy.py:147-166 | the reset record is still the same proxy: its id and its primary key (`host`, `port`, `username`) are unchanged |
| ProxyModel.ObservationColumnsAre | Proxy.py:147-166 | the reset touches 20 distinct columns, the contiguous run from `exit_ip` to `is_privacy_hosting` in declaration order |
| ProxyModel.ClearedGet | Proxy.py:143-166 | after the reset, a column is null if it is one of the 20 observation columns, and otherwise holds its old value |
| ProxyModel.ClearIdempotent | Proxy.py:143-166 | resetting twice is the same as resetting once |
| ProxyModel.Proxy.ClearTestBaseResult | Proxy.py:143-166 | the object's new state is the old one with the 20 observation columns null; `to_dict` then shows null for those keys and the old entry for every other key |
| ProxyModel.Proxy.SetExitIp | Proxy.py:147 | assigning `exit_ip` changes that column to the new value and leaves the other 41 as they were |
| ProxyModel.Proxy.SetIsIpv4Available | Proxy.py:148 | assigning `is_ipv4_available` changes that column to the new value and leaves the other 41 as they were |
| ProxyModel.Proxy.SetIsIpv6Available | Proxy.py:149 | assigning `is_ipv6_available` changes that column to the new value and leaves the other 41 as they were |
| ProxyModel.Proxy.SetCountryCode | Proxy.py:150 | assigning `country_code` changes that column to the new value and leaves the other 41 as they were |
| ProxyModel.Proxy.SetRegion | Proxy.py:151 | assigning `region` changes that column to the new value and leaves the other 41 as they were |
| ProxyModel.Proxy.SetCity | Proxy.py:152 | assigning `city` changes that column to the new value and leaves the other 41 as they were |
| ProxyModel.Proxy.SetLongitude | Proxy.py:153 | assigning `longitude` changes that column to the new value and leaves the other 41 as they were |
| ProxyModel.Proxy.SetLatitude | Proxy.py:154 | assigning `latitude` changes that column to the new value and leaves the other 41 as they were |
| ProxyModel.Proxy.SetTimezone | Proxy.py:155 | assigning `timezone` changes that column to the new value and leaves the other 41 as they were |
| ProxyModel.Proxy.SetAsn | Proxy.py:156 | assigning `asn` changes that column to the new value and leaves the other 41 as they were |
| ProxyModel.Proxy.SetOrganization | Proxy.py:157 | assigning `organization` changes that column to the new value and leaves the other 41 as they were |
| ProxyModel.Proxy.SetAsnName | Proxy.py:158 | assigning `asn_name` changes that column to the new value and leaves the other 41 as they were |
| ProxyModel.Proxy.SetAsnType | Proxy.py:159 | assigning `asn_type` changes that column to the new value and leaves the other 41 as they were |
| ProxyModel.Proxy.SetAsnDomain | Proxy.py:160 | assigning `asn_domain` changes that column to the new value and leaves the other 41 as they were |
| ProxyModel.Proxy.SetAsnRoute | Proxy.py:161 | assigning `asn_route` changes that column to the new value and leaves the other 41 as they were |
| ProxyModel.Proxy.SetIsPrivacyVpn | Proxy.py:162 | assigning `is_privacy_vpn` changes that column to the new value and leaves the other 41 as they were |
| ProxyModel.Proxy.SetIsPrivacyProxy | Proxy.py:163 | assigning `is_privacy_proxy` changes that column to the new value and leaves the other 41 as they were |
| ProxyModel.Proxy.SetIsPrivacyTor | Proxy.py:164 | assigning `is_privacy_tor` changes that column to the new value and leaves the other 41 as they were |
| ProxyModel.Proxy.SetIsPrivacyRelay | Proxy.py:165 | assigning `is_privacy_relay` changes that column to the new value and leaves the other 41 as they were |
| ProxyModel.Proxy.SetIsPrivacyHosting | Proxy.py:166 | assigning `is_privacy_hosting` changes that column to the new value and leaves the other 41 as they were |
| ProxyModel.DictExact | Proxy.py:172-215 | as a mapping, `to_dict` has exactly 42 keys, which are the column names, and each key maps to its column's current value |
| ProxyModel.Entries | Proxy.py:172-215 | the external representation has 42 entries whose keys are the column names in declaration order, no key twice |
| ProxyModel.EntriesAfterClear | Proxy.py:143-215 | after the reset, `to_dict` keeps its length and order, shows null under the observation keys, and keeps every other entry unchanged |
| ProxyModel.Proxy.ToDict | Proxy.py:168-215 | `to_dict` returns 42 entries with distinct keys: the column names in declaration order, each mapped to the current value of its column |
| OrderedDict.AsMap | Proxy.py:172-215 | the mapping a dictionary literal denotes has exactly the keys that occur among its entries |
| OrderedDict.AsMapLookup | Proxy.py:172-215 | when keys are distinct, looking up an entry's key gives that entry's value |
| OrderedDict.AsMapSize | Proxy.py:172-215 | when keys are distinct, the mapping has as many keys as the literal has entries |

## Left out

- The ORM base class, the table mapping and persistence (Proxy.py:19-28) are not modelled. `Proxy.py` imports the base class from `external.rab_common`, which is not part of this model.
- The database's enforcement of column constraints is not modelled: string lengths (32, 255, text) are not checked, and uniqueness of the composite key (host, port, username) is not enforced. Nullability and key membership are reflected in the field types (see below).
- ProxyModel.Proxy.constructor: `uuid4()` is randomness, so the UUID's 128-bit value is a parameter. The version and variant bits that `uuid4` fixes are not modelled: any value below 2^128 is accepted.
- `DateTime` columns are opaque values (an `int`). The class never computes with them.
- Python attributes accept values of any type. The model gives each column the type its `Column(...)` declaration names (string, integer, boolean or timestamp), nullable where the declaration allows it. `host`, `port` and `username` are primary-key parts and are never null.
- Attribute assignment from outside the class is modelled only for the 20 observation columns, as one setter method per column (`SetExitIp` and so on). Those are the writes `clear_test_base_result` performs and a probe makes. Writes to other columns from outside are not modelled.
- ProxyModel.Proxy.ToDict: the result is an insertion-ordered sequence of `(key, value)` pairs, built from the column list and `Name` rather than written as a 42-entry literal. `Name` spells out the literal's keys (Proxy.py:173-214), and the column list follows declaration order, which is also the literal's order.
- Calling `to_dict` twice without a mutation in between yields equal results. This holds because `ToDict` is a function and needs no lemma.
