/**
 * `fixAddressData($data, $oldCountryId, $oldRegionId)` of Helper/Data.php:
 * the address data a client writes may name its region by id, code or
 * name; the region is resolved against Magento's region directory, which
 * is given here as three lookups.
 */
module Region {
  import opened Wrappers
  import opened Values
  import opened Casts

  /** A row of `directory/region`. */
  datatype RegionRow = RegionRow(id: Value, name: Value, countryId: Value)

  /** `load($id)`, `loadByCode($code, $country)` and `loadByName($name, $country)`. */
  datatype Regions = Regions(
    byId: Value -> Option<RegionRow>,
    byCode: (Value, Value) -> Option<RegionRow>,
    byName: (Value, Value) -> Option<RegionRow>)

  /** `$regionModel->getId()` is truthy after the load. */
  predicate Found(o: Option<RegionRow>) {
    o.Some? && Truthy(o.value.id)
  }

  /** The row a by-code-then-by-name lookup ends with. */
  function ByCodeOrName(regions: Regions, region: Value, countryId: Value): Option<RegionRow> {
    if Found(regions.byCode(region, countryId)) then regions.byCode(region, countryId) else regions.byName(region, countryId)
  }

  /**
   * Whether a region value resolves: a numeric one must exist and lie in the
   * given country, if one is given; a non-numeric one needs a country and a
   * match by code or by name.
   */
  predicate Resolves(regions: Regions, region: Value, countryId: Value) {
    if IsNumeric(region) then
      Found(regions.byId(region)) && (IsEmpty(countryId) || regions.byId(region).value.countryId == countryId)
    else
      !IsEmpty(countryId) && Found(ByCodeOrName(regions, region, countryId))
  }

  /** The row a resolving region value resolves to. */
  function ResolvedRow(regions: Regions, region: Value, countryId: Value): RegionRow
    requires Resolves(regions, region, countryId)
  {
    if IsNumeric(region) then regions.byId(region).value else ByCodeOrName(regions, region, countryId).value
  }

  /** The region value `fixAddressData` works with: the given one, or the old region id when only the country is given. */
  function RegionInput(data: Record, oldRegionId: Value): Value {
    if HasKey(data, "region") then Get(data, "region") else oldRegionId
  }

  /** The country `fixAddressData` resolves against: the given one, else the old one. */
  function CountryInput(data: Record, oldCountryId: Value): Value {
    if HasKey(data, "country_id") then Get(data, "country_id") else oldCountryId
  }

  /** The branch of `fixAddressData` that runs once region is present and region_id cleared. */
  function ApplyResolution(regions: Regions, d2: Record, oldCountryId: Value): Record {
    var countryId := if HasKey(d2, "country_id") then Get(d2, "country_id") else oldCountryId;
    var region := Get(d2, "region");
    if IsNumeric(region) then
      var row := regions.byId(region);
      if Found(row) && (IsEmpty(countryId) || row.value.countryId == countryId) then
        Put(Put(Put(d2, "region", row.value.name), "region_id", row.value.id), "country_id", row.value.countryId)
      else d2
    else if !IsEmpty(countryId) then
      var row := if Found(regions.byCode(region, countryId)) then regions.byCode(region, countryId) else regions.byName(region, countryId);
      if Found(row) then Put(Put(d2, "region", row.value.name), "region_id", row.value.id) else d2
    else d2
  }

  /** `fixAddressData`. */
  function FixAddressData(regions: Regions, data: Record, oldCountryId: Value, oldRegionId: Value): Record {
    var d1 := if HasKey(data, "country_id") && !HasKey(data, "region") then Put(data, "region", oldRegionId) else data;
    if !HasKey(d1, "region") then d1
    else ApplyResolution(regions, Put(d1, "region_id", Null), oldCountryId)
  }

  /** Region resolution only ever touches region, region_id and country_id. */
  const REGION_KEYS: set<string> := {"region", "region_id", "country_id"}

  /** Writing a resolved row: its name as region, its id as region_id and, for a numeric region, its country. */
  function WriteRow(d: Record, row: RegionRow, withCountry: bool): Record {
    var d4 := Put(Put(d, "region", row.name), "region_id", row.id);
    if withCountry then Put(d4, "country_id", row.countryId) else d4
  }

  lemma WriteRowEffect(d: Record, row: RegionRow, withCountry: bool)
    ensures var r := WriteRow(d, row, withCountry);
      && Lookup(r, "region") == Some(row.name) && Lookup(r, "region_id") == Some(row.id)
      && Lookup(r, "country_id") == (if withCountry then Some(row.countryId) else Lookup(d, "country_id"))
      && (forall k :: k !in REGION_KEYS ==> Lookup(r, k) == Lookup(d, k))
      && (forall k :: HasKey(r, k) ==> HasKey(d, k) || k in REGION_KEYS)
      && (DistinctKeys(d) ==> DistinctKeys(r))
  {
    assert |"region"| == 6 && |"region_id"| == 9 && |"country_id"| == 10;
    var d3 := Put(d, "region", row.name);
    var d4 := Put(d3, "region_id", row.id);
    assert Lookup(d4, "region") == Some(row.name);
    assert Lookup(d4, "country_id") == Lookup(d, "country_id");
    assert forall k :: k !in REGION_KEYS ==> Lookup(d4, k) == Lookup(d, k);
    PutShape(d, "region", row.name);
    PutShape(d3, "region_id", row.id);
    if withCountry {
      PutShape(d4, "country_id", row.countryId);
    }
  }

  /** The resolution step writes the row the region resolves to, or leaves the data as it is. */
  lemma ApplyResolutionIsWriteRow(regions: Regions, d2: Record, oldCountryId: Value)
    ensures var region := Get(d2, "region");
            var country := if HasKey(d2, "country_id") then Get(d2, "country_id") else oldCountryId;
            ApplyResolution(regions, d2, oldCountryId) ==
              if Resolves(regions, region, country) then WriteRow(d2, ResolvedRow(regions, region, country), IsNumeric(region)) else d2
  {
  }

  /** The data before resolution: region filled in from the old region id if only the country is given, region_id cleared. */
  function Prepared(data: Record, oldRegionId: Value): Record {
    var d1 := if HasKey(data, "country_id") && !HasKey(data, "region") then Put(data, "region", oldRegionId) else data;
    Put(d1, "region_id", Null)
  }

  lemma PreparedEffect(data: Record, oldRegionId: Value)
    requires HasKey(data, "region") || HasKey(data, "country_id")
    ensures var d2 := Prepared(data, oldRegionId);
      && Lookup(d2, "region") == Some(RegionInput(data, oldRegionId)) && Lookup(d2, "region_id") == Some(Null)
      && Lookup(d2, "country_id") == Lookup(data, "country_id")
      && (forall k :: k !in REGION_KEYS ==> Lookup(d2, k) == Lookup(data, k))
      && (forall k :: HasKey(d2, k) ==> HasKey(data, k) || k in REGION_KEYS)
      && (DistinctKeys(data) ==> DistinctKeys(d2))
  {
    assert |"region"| == 6 && |"region_id"| == 9 && |"country_id"| == 10;
    if HasKey(data, "region") {
      PutShape(data, "region_id", Null);
      assert Prepared(data, oldRegionId) == Put(data, "region_id", Null);
    } else {
      var d1 := Put(data, "region", oldRegionId);
      PutShape(data, "region", oldRegionId);
      PutShape(d1, "region_id", Null);
      assert Prepared(data, oldRegionId) == Put(d1, "region_id", Null);
      assert Lookup(d1, "region") == Some(oldRegionId);
    }
    forall k | k !in REGION_KEYS ensures Lookup(Prepared(data, oldRegionId), k) == Lookup(data, k) {
      assert k != "region" && k != "region_id";
    }
  }

  /** `fixAddressData` is the resolution step applied to the prepared data, once a region or a country is given. */
  lemma FixAddressDataSteps(regions: Regions, data: Record, oldCountryId: Value, oldRegionId: Value)
    ensures FixAddressData(regions, data, oldCountryId, oldRegionId) ==
            if !HasKey(data, "region") && !HasKey(data, "country_id") then data
            else ApplyResolution(regions, Prepared(data, oldRegionId), oldCountryId)
  {
    if HasKey(data, "country_id") && !HasKey(data, "region") {
      assert HasKey(Put(data, "region", oldRegionId), "region");
    }
  }

  /**
   * When the data names neither a region nor a country it comes back
   * unchanged. Otherwise the result always has region and region_id; the
   * region_id is the resolved row's id when the region resolves, null when
   * it does not, and then the region keeps the value given (or the old
   * region id). The country changes only when a numeric region resolves.
   * No key outside region, region_id and country_id changes, and distinct
   * keys stay distinct.
   */
  lemma FixAddressDataEffect(regions: Regions, data: Record, oldCountryId: Value, oldRegionId: Value)
    ensures var r := FixAddressData(regions, data, oldCountryId, oldRegionId);
            var region := RegionInput(data, oldRegionId);
            var country := CountryInput(data, oldCountryId);
      && (!HasKey(data, "region") && !HasKey(data, "country_id") ==> r == data)
      && (HasKey(data, "region") || HasKey(data, "country_id") ==>
            && HasKey(r, "region") && HasKey(r, "region_id")
            && (Resolves(regions, region, country) ==>
                  && Lookup(r, "region_id") == Some(ResolvedRow(regions, region, country).id)
                  && Lookup(r, "region") == Some(ResolvedRow(regions, region, country).name)
                  && Lookup(r, "country_id") ==
                       (if IsNumeric(region) then Some(ResolvedRow(regions, region, country).countryId) else Lookup(data, "country_id")))
            && (!Resolves(regions, region, country) ==>
                  Lookup(r, "region_id") == Some(Null) && Lookup(r, "region") == Some(region)
                  && Lookup(r, "country_id") == Lookup(data, "country_id")))
      && (forall k :: k !in REGION_KEYS ==> Lookup(r, k) == Lookup(data, k))
      && (forall k :: HasKey(r, k) ==> HasKey(data, k) || k in REGION_KEYS)
      && (DistinctKeys(data) ==> DistinctKeys(r))
  {
    FixAddressDataSteps(regions, data, oldCountryId, oldRegionId);
    if HasKey(data, "region") || HasKey(data, "country_id") {
      var d2 := Prepared(data, oldRegionId);
      PreparedEffect(data, oldRegionId);
      var region := Get(d2, "region");
      var country := if HasKey(d2, "country_id") then Get(d2, "country_id") else oldCountryId;
      assert region == RegionInput(data, oldRegionId);
      assert country == CountryInput(data, oldCountryId);
      ApplyResolutionIsWriteRow(regions, d2, oldCountryId);
      if Resolves(regions, region, country) {
        WriteRowEffect(d2, ResolvedRow(regions, region, country), IsNumeric(region));
      }
    }
  }
}
