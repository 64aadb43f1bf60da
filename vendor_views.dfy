/** The vendor list page and the vendors-by-district lookup that fills the
    vendor dropdown of the trip form. */
module VendorViews {
  import opened Base
  import opened Domain
  import opened Seqs

  /** One entry of the lookup's answer: the id and the name, nothing else. */
  datatype VendorEntry = VendorEntry(id: nat, name: string)

  function EntryOf(v: Vendor): VendorEntry
  {
    VendorEntry(v.id, v.name)
  }

  /** `district__iexact=d`. */
  predicate InDistrict(v: Vendor, d: string)
  {
    EqualsIgnoringCase(v.district, d)
  }

  /** `filter(district__iexact=d)`, in table order. */
  function DistrictRows(vendors: seq<Vendor>, d: string): (r: seq<Vendor>)
    ensures |r| <= |vendors|
    ensures forall i :: 0 <= i < |r| ==> r[i] in vendors && InDistrict(r[i], d)
    ensures forall v :: v in vendors && InDistrict(v, d) ==> v in r
  {
    var p := (v: Vendor) => InDistrict(v, d);
    forall v | v in vendors && InDistrict(v, d) ensures v in Filter(vendors, p) {
      FilterKeepsRow(vendors, p, v);
    }
    Filter(vendors, p)
  }

  /** `vendors_by_district_api`: with a non-empty district, the vendors in it
      (in any letter case); otherwise every vendor. */
  function VendorsByDistrict(vendors: seq<Vendor>, district: Option<string>): (r: seq<VendorEntry>)
    ensures |r| <= |vendors|
    ensures forall i :: 0 <= i < |r| ==>
              exists v :: v in vendors && r[i] == EntryOf(v) && (!Truthy(district) || InDistrict(v, district.value))
    ensures forall v :: v in vendors && (!Truthy(district) || InDistrict(v, district.value)) ==> EntryOf(v) in r
    ensures !Truthy(district) ==> |r| == |vendors|
  {
    var rows := if Truthy(district) then DistrictRows(vendors, district.value) else vendors;
    assert forall v :: v in vendors && (!Truthy(district) || InDistrict(v, district.value)) ==> v in rows;
    assert forall i :: 0 <= i < |rows| ==> rows[i] in vendors && (!Truthy(district) || InDistrict(rows[i], district.value));
    EntriesOf(rows);
    MapRows(rows, EntryOf)
  }

  /** Each entry comes from a row, and each row has its entry. */
  lemma EntriesOf(rows: seq<Vendor>)
    ensures forall i :: 0 <= i < |rows| ==> MapRows(rows, EntryOf)[i] == EntryOf(rows[i])
    ensures forall v :: v in rows ==> EntryOf(v) in MapRows(rows, EntryOf)
  {
    var r := MapRows(rows, EntryOf);
    forall v | v in rows ensures EntryOf(v) in r {
      var k :| 0 <= k < |rows| && rows[k] == v;
      assert r[k] == EntryOf(v);
    }
  }

  /** The lookup matches districts without regard to letter case. */
  lemma DistrictLookupIgnoresCase(vendors: seq<Vendor>, d: string)
    requires d != ""
    ensures VendorsByDistrict(vendors, Some(d)) == VendorsByDistrict(vendors, Some(Lower(d)))
  {
    LowerTwice(d);
    FilterSame(vendors, (v: Vendor) => InDistrict(v, d), (v: Vendor) => InDistrict(v, Lower(d)));
  }

  /** Folding the case twice changes nothing more. */
  lemma {:induction false} LowerTwice(s: string)
    ensures Lower(Lower(s)) == Lower(s)
  {
    if s != [] {
      LowerTwice(s[1..]);
      assert Lower(s)[1..] == Lower(s[1..]);
    }
  }

  /** `vendor_list_view`'s table: the vendors of the selected district, or
      every vendor when the selection is empty. */
  function VendorList(vendors: seq<Vendor>, selected: string): (r: seq<Vendor>)
    ensures selected == "" ==> r == vendors
    ensures forall i :: 0 <= i < |r| ==> r[i] in vendors && (selected == "" || InDistrict(r[i], selected))
    ensures forall v :: v in vendors && (selected == "" || InDistrict(v, selected)) ==> v in r
  {
    if selected != "" then DistrictRows(vendors, selected) else vendors
  }

  /** Text order as the database sorts it here: character by character, a
      proper prefix first. */
  predicate LexLess(a: string, b: string)
  {
    b != [] && (a == [] || a[0] < b[0] || (a[0] == b[0] && LexLess(a[1..], b[1..])))
  }

  lemma {:induction false} LexIrreflexive(a: string)
    ensures !LexLess(a, a)
  {
    if a != [] {
      LexIrreflexive(a[1..]);
    }
  }

  lemma {:induction false} LexAsymmetric(a: string, b: string)
    requires LexLess(a, b)
    ensures !LexLess(b, a)
  {
    if a != [] && a[0] == b[0] {
      LexAsymmetric(a[1..], b[1..]);
    }
  }

  /** Any two different texts are ordered one way or the other. */
  lemma {:induction false} LexTotal(a: string, b: string)
    requires a != b
    ensures LexLess(a, b) || LexLess(b, a)
  {
    if a != [] && b != [] && a[0] == b[0] {
      assert a == [a[0]] + a[1..] && b == [b[0]] + b[1..];
      LexTotal(a[1..], b[1..]);
    }
  }

  /** Ascending with no repeats. */
  predicate StrictlyAscending(s: seq<string>)
  {
    forall i, j :: 0 <= i < j < |s| ==> LexLess(s[i], s[j])
  }

  /** Puts a district into an ascending list, once. */
  function InsertDistrict(d: string, s: seq<string>): (r: seq<string>)
    requires StrictlyAscending(s)
    ensures StrictlyAscending(r)
    ensures forall x :: x in r <==> x == d || x in s
  {
    if s == [] then [d]
    else if d == s[0] then s
    else if LexLess(d, s[0]) then
      forall j | 0 <= j < |s| ensures LexLess(d, s[j]) {
        if j > 0 {
          LexTransitive(d, s[0], s[j]);
        }
      }
      [d] + s
    else
      LexTotal(d, s[0]);
      var rest := InsertDistrict(d, s[1..]);
      forall j | 0 <= j < |rest| ensures LexLess(s[0], rest[j]) {
        if rest[j] != d {
          assert rest[j] in rest;
          assert rest[j] in s[1..];
          var k :| 0 <= k < |s[1..]| && s[1..][k] == rest[j];
          assert s[k + 1] == rest[j];
        }
      }
      [s[0]] + rest
  }

  lemma {:induction false} LexTransitive(a: string, b: string, c: string)
    requires LexLess(a, b) && LexLess(b, c)
    ensures LexLess(a, c)
  {
    if a != [] && a[0] == b[0] && b[0] == c[0] {
      LexTransitive(a[1..], b[1..], c[1..]);
    }
  }

  /** The district dropdown: each vendor district once, ascending. */
  function Districts(vendors: seq<Vendor>): (r: seq<string>)
    ensures StrictlyAscending(r)
    ensures forall d :: d in r <==> exists v :: v in vendors && v.district == d
  {
    if vendors == [] then []
    else
      var rest := Districts(vendors[1..]);
      assert vendors == [vendors[0]] + vendors[1..];
      InsertDistrict(vendors[0].district, rest)
  }

  /** A strictly ascending list has no repeats. */
  lemma NoRepeatedDistrict(vendors: seq<Vendor>, i: int, j: int)
    requires 0 <= i < j < |Districts(vendors)|
    ensures Districts(vendors)[i] != Districts(vendors)[j]
  {
    var r := Districts(vendors);
    LexIrreflexive(r[i]);
  }

  /** The vendor list page. */
  datatype VendorListPage = VendorListPage(vendors: seq<Vendor>, districts: seq<string>, selectedDistrict: string)

  function VendorListView(vendors: seq<Vendor>, selected: string): (page: VendorListPage)
    ensures page.vendors == VendorList(vendors, selected) && page.districts == Districts(vendors)
    ensures page.selectedDistrict == selected
  {
    VendorListPage(VendorList(vendors, selected), Districts(vendors), selected)
  }
}
