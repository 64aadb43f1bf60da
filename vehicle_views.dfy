/** The vehicle list page and the vehicle lookup that fills the vehicle
    dropdown of the trip form. */
module VehicleViews {
  import opened Base
  import opened Domain
  import opened Seqs
  import opened VendorViews

  /** Whether a vehicle answers the lookup. A vendor id takes precedence and
      the district is then not consulted; a non-empty type narrows either
      branch. */
  predicate LookupMatches(v: Vehicle, vendorId: Param<int>, vtype: Option<string>, district: Option<string>)
  {
    (if vendorId.Given? then v.vendor.id == vendorId.value
     else !Truthy(district) || InDistrict(v.vendor, district.value)) &&
    (!Truthy(vtype) || VehicleTypeValue(v.vtype) == vtype.value)
  }

  const BadVendorIdMessage: string := "Field 'id' expected a number"

  /** `filter(vendor__district__iexact=d)`. */
  function InDistrictRows(vehicles: seq<Vehicle>, d: string): (r: seq<Vehicle>)
    ensures forall i :: 0 <= i < |r| ==> r[i] in vehicles && InDistrict(r[i].vendor, d)
    ensures forall v :: v in vehicles && InDistrict(v.vendor, d) ==> v in r
  {
    var p := (v: Vehicle) => InDistrict(v.vendor, d);
    forall v | v in vehicles && InDistrict(v.vendor, d) ensures v in Filter(vehicles, p) {
      FilterKeepsRow(vehicles, p, v);
    }
    Filter(vehicles, p)
  }

  /** `filter(type=t)`: the stored type text must equal `t` exactly. */
  function OfTypeRows(vehicles: seq<Vehicle>, t: string): (r: seq<Vehicle>)
    ensures forall i :: 0 <= i < |r| ==> r[i] in vehicles && VehicleTypeValue(r[i].vtype) == t
    ensures forall v :: v in vehicles && VehicleTypeValue(v.vtype) == t ==> v in r
  {
    var p := (v: Vehicle) => VehicleTypeValue(v.vtype) == t;
    forall v | v in vehicles && VehicleTypeValue(v.vtype) == t ensures v in Filter(vehicles, p) {
      FilterKeepsRow(vehicles, p, v);
    }
    Filter(vehicles, p)
  }

  /** `filter(vendor_id=id)`. */
  function OfVendorRows(vehicles: seq<Vehicle>, id: int): (r: seq<Vehicle>)
    ensures forall i :: 0 <= i < |r| ==> r[i] in vehicles && r[i].vendor.id == id
    ensures forall v :: v in vehicles && v.vendor.id == id ==> v in r
  {
    var p := (v: Vehicle) => v.vendor.id == id;
    forall v | v in vehicles && v.vendor.id == id ensures v in Filter(vehicles, p) {
      FilterKeepsRow(vehicles, p, v);
    }
    Filter(vehicles, p)
  }

  /** The vehicles `vehicles_by_vendor_api` selects, in table order. A vendor
      id that is not a number fails the request. */
  function SelectVehicles(vehicles: seq<Vehicle>, vendorId: Param<int>, vtype: Option<string>, district: Option<string>)
    : (r: Result<seq<Vehicle>>)
    ensures r.Err? <==> vendorId.Malformed?
    ensures r.Ok? ==> forall i :: 0 <= i < |r.value| ==>
              r.value[i] in vehicles && LookupMatches(r.value[i], vendorId, vtype, district)
    ensures r.Ok? ==> forall v :: v in vehicles && LookupMatches(v, vendorId, vtype, district) ==> v in r.value
  {
    if vendorId.Malformed? then Err(BadVendorIdMessage)
    else
      var byOwner :=
        if vendorId.Given? then OfVendorRows(vehicles, vendorId.value)
        else if Truthy(district) then InDistrictRows(vehicles, district.value)
        else vehicles;
      Ok(if Truthy(vtype) then OfTypeRows(byOwner, vtype.value) else byOwner)
  }

  /** With a vendor id, the district plays no part. */
  lemma VendorIdOverridesDistrict(vehicles: seq<Vehicle>, id: int, vtype: Option<string>, d1: Option<string>, d2: Option<string>)
    ensures SelectVehicles(vehicles, Given(id), vtype, d1) == SelectVehicles(vehicles, Given(id), vtype, d2)
  {
  }

  /** Without parameters, every vehicle, in table order. */
  lemma NoParametersSelectEverything(vehicles: seq<Vehicle>)
    ensures SelectVehicles(vehicles, Missing, None, None) == Ok(vehicles)
  {
  }

  /** One dropdown entry. */
  datatype VehicleEntry = VehicleEntry(id: nat, name: string)

  /** The entry's name: "number - make model (vendor name)". */
  function DropdownName(v: Vehicle): (name: string)
    ensures |name| >= |v.number| + 3 && StartsWith(name, v.number)
    ensures name[|v.number|..|v.number| + 3] == " - "
  {
    v.number + " - " + v.make + " " + v.model + " (" + v.vendor.name + ")"
  }

  /** `vehicles_by_vendor_api`: the selection, then one entry per vehicle,
      appended in order. */
  method VehiclesByVendor(vehicles: seq<Vehicle>, vendorId: Param<int>, vtype: Option<string>, district: Option<string>)
    returns (r: Result<seq<VehicleEntry>>)
    ensures r.Err? <==> vendorId.Malformed?
    ensures r.Ok? ==>
              var selected := SelectVehicles(vehicles, vendorId, vtype, district).value;
              |r.value| == |selected| &&
              forall k :: 0 <= k < |selected| ==>
                r.value[k].id == selected[k].id && r.value[k].name == DropdownName(selected[k])
  {
    var selection := SelectVehicles(vehicles, vendorId, vtype, district);
    if selection.Err? {
      return Err(selection.error);
    }
    var selected := selection.value;
    var entries: seq<VehicleEntry> := [];
    for i := 0 to |selected|
      invariant |entries| == i
      invariant forall k :: 0 <= k < i ==> entries[k].id == selected[k].id && entries[k].name == DropdownName(selected[k])
    {
      var v := selected[i];
      entries := entries + [VehicleEntry(v.id, DropdownName(v))];
    }
    r := Ok(entries);
  }

  /** `vehicle_list_view`'s table: the district and the type narrow the list
      together, and an empty selection does not narrow it. */
  function VehicleList(vehicles: seq<Vehicle>, district: string, vtype: string): (r: seq<Vehicle>)
    ensures district == "" && vtype == "" ==> r == vehicles
    ensures forall i :: 0 <= i < |r| ==>
              (r[i] in vehicles &&
               (district == "" || InDistrict(r[i].vendor, district)) &&
               (vtype == "" || VehicleTypeValue(r[i].vtype) == vtype))
    ensures forall v ::
              (v in vehicles && (district == "" || InDistrict(v.vendor, district)) &&
               (vtype == "" || VehicleTypeValue(v.vtype) == vtype)) ==> v in r
  {
    var byDistrict := if district != "" then InDistrictRows(vehicles, district) else vehicles;
    if vtype != "" then OfTypeRows(byDistrict, vtype) else byDistrict
  }

  /** With no vendor chosen, the list page's table is the lookup's selection
      for the same district and type, in the same order. */
  lemma ListAgreesWithLookup(vehicles: seq<Vehicle>, district: string, vtype: string)
    ensures VehicleList(vehicles, district, vtype) ==
            SelectVehicles(vehicles, Missing, if vtype == "" then None else Some(vtype),
                           if district == "" then None else Some(district)).value
  {
  }

  datatype VehicleListPage = VehicleListPage(
    vehicles: seq<Vehicle>,
    districts: seq<string>,
    vehicleTypes: seq<VehicleType>,
    selectedDistrict: string,
    selectedType: string)

  const AllVehicleTypes: seq<VehicleType> := [Sedan, Hatchback, SUV, Van, Minibus]

  function VehicleListView(vendors: seq<Vendor>, vehicles: seq<Vehicle>, district: string, vtype: string)
    : (page: VehicleListPage)
    ensures page.vehicles == VehicleList(vehicles, district, vtype)
    ensures page.districts == Districts(vendors) && page.vehicleTypes == AllVehicleTypes
    ensures page.selectedDistrict == district && page.selectedType == vtype
  {
    VehicleListPage(VehicleList(vehicles, district, vtype), Districts(vendors), AllVehicleTypes, district, vtype)
  }
}
