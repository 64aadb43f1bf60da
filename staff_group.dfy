/** The data migration that creates the "Staff" group and gives it every
    permission of the business models except the delete permissions. */
module StaffGroup {
  import opened Base
  import opened Seqs

  datatype ContentType = ContentType(appLabel: string, model: string)

  /** A permission row: its codename and the content type it belongs to. */
  datatype Permission = Permission(codename: string, contentType: ContentType)

  /** An app and the models of it the group gets permissions for. */
  datatype AppModels = AppModels(appLabel: string, modelNames: seq<string>)

  const StaffAppModels: seq<AppModels> := [
    AppModels("customers", ["customer"]),
    AppModels("vendors", ["vendor"]),
    AppModels("vehicles", ["vehicle"]),
    AppModels("trips", ["trip", "package", "rating"])
  ]

  const StaffGroupName: string := "Staff"

  /** Every permission except those whose codename starts with "delete". */
  predicate Grantable(p: Permission)
  {
    !StartsWith(p.codename, "delete")
  }

  /** The content types named by some models of one app. */
  function ModelsOf(app: string, names: seq<string>): set<ContentType>
  {
    set m | m in names :: ContentType(app, m)
  }

  /** The content types named by a list of apps. */
  function Listed(apps: seq<AppModels>): set<ContentType>
  {
    if apps == [] then {}
    else Listed(apps[..|apps| - 1]) + ModelsOf(apps[|apps| - 1].appLabel, apps[|apps| - 1].modelNames)
  }

  /** The permissions the group receives for the given content types: those
      of a content type that exists, without the delete permissions. */
  function Granted(perms: seq<Permission>, existing: set<ContentType>, considered: set<ContentType>): (g: set<Permission>)
    ensures forall p :: p in g <==>
              p in perms && p.contentType in existing && p.contentType in considered && Grantable(p)
  {
    set p | p in perms && p.contentType in existing && p.contentType in considered && Grantable(p)
  }

  /** The migration names exactly the six business models. */
  lemma StaffModels()
    ensures Listed(StaffAppModels) == {
              ContentType("customers", "customer"), ContentType("vendors", "vendor"),
              ContentType("vehicles", "vehicle"), ContentType("trips", "trip"),
              ContentType("trips", "package"), ContentType("trips", "rating")}
  {
    var a := StaffAppModels;
    assert a[..3] == [a[0], a[1], a[2]] && a[..3][..2] == a[..2] && a[..2][..1] == a[..1] && a[..1][..0] == [];
    assert ModelsOf("customers", ["customer"]) == {ContentType("customers", "customer")};
    assert ModelsOf("vendors", ["vendor"]) == {ContentType("vendors", "vendor")};
    assert ModelsOf("vehicles", ["vehicle"]) == {ContentType("vehicles", "vehicle")};
    assert ModelsOf("trips", ["trip", "package", "rating"]) ==
           {ContentType("trips", "trip"), ContentType("trips", "package"), ContentType("trips", "rating")};
    assert Listed(a[..1]) == {ContentType("customers", "customer")};
    assert Listed(a[..2]) == Listed(a[..1]) + {ContentType("vendors", "vendor")};
    assert Listed(a[..3]) == Listed(a[..2]) + {ContentType("vehicles", "vehicle")};
  }

  /** The groups after the migration: the "Staff" group, created if absent,
      holds what it held plus the granted permissions; no other group changes. */
  function AfterMigration(groups: map<string, set<Permission>>, perms: seq<Permission>, existing: set<ContentType>)
    : (r: map<string, set<Permission>>)
    ensures r.Keys == groups.Keys + {StaffGroupName}
    ensures forall name :: name in groups && name != StaffGroupName ==> r[name] == groups[name]
    ensures StaffGroupName in groups ==> groups[StaffGroupName] <= r[StaffGroupName]
    ensures Granted(perms, existing, Listed(StaffAppModels)) <= r[StaffGroupName]
    ensures forall p :: p in r[StaffGroupName] && (StaffGroupName !in groups || p !in groups[StaffGroupName]) ==>
              p in perms && Grantable(p) && p.contentType in existing && p.contentType in Listed(StaffAppModels)
  {
    var before := if StaffGroupName in groups then groups[StaffGroupName] else {};
    groups[StaffGroupName := before + Granted(perms, existing, Listed(StaffAppModels))]
  }

  /** A second run finds the group and the permissions in place and changes
      nothing. */
  lemma MigrationIsIdempotent(groups: map<string, set<Permission>>, perms: seq<Permission>, existing: set<ContentType>)
    ensures AfterMigration(AfterMigration(groups, perms, existing), perms, existing) == AfterMigration(groups, perms, existing)
  {
    var once := AfterMigration(groups, perms, existing);
    var g := Granted(perms, existing, Listed(StaffAppModels));
    assert once[StaffGroupName] + g == once[StaffGroupName];
  }

  /** A fresh "Staff" group never holds a delete permission. */
  lemma NoDeletePermission(groups: map<string, set<Permission>>, perms: seq<Permission>, existing: set<ContentType>, p: Permission)
    requires StaffGroupName !in groups
    requires p in AfterMigration(groups, perms, existing)[StaffGroupName]
    ensures !StartsWith(p.codename, "delete")
  {
  }

  /** A content type that does not exist only loses its own permissions; the
      other models' permissions are granted as before. */
  lemma MissingContentTypeIsSkipped(perms: seq<Permission>, existing: set<ContentType>, ct: ContentType)
    ensures Granted(perms, existing - {ct}, Listed(StaffAppModels)) ==
            Granted(perms, existing, Listed(StaffAppModels)) - (set p | p in perms && p.contentType == ct)
  {
  }

  /** The permissions among `rows` that are not delete permissions. */
  function GrantableRows(rows: seq<Permission>): (g: set<Permission>)
    ensures forall p :: p in g <==> p in rows && Grantable(p)
  {
    if rows == [] then {}
    else
      var last := rows[|rows| - 1];
      assert rows == rows[..|rows| - 1] + [last];
      GrantableRows(rows[..|rows| - 1]) + (if Grantable(last) then {last} else {})
  }

  /** Adding the grantable permissions of one existing content type grants
      that content type. */
  lemma GrantedStep(perms: seq<Permission>, existing: set<ContentType>, considered: set<ContentType>, ct: ContentType,
                    rows: seq<Permission>)
    requires ct in existing
    requires forall p :: p in rows <==> p in perms && p.contentType == ct
    ensures Granted(perms, existing, considered) + GrantableRows(rows) == Granted(perms, existing, considered + {ct})
  {
  }

  /** `groups` is `start` with the "Staff" group holding `staff`. */
  predicate OnlyStaffChanged(groups: map<string, set<Permission>>, start: map<string, set<Permission>>, staff: set<Permission>)
  {
    StaffGroupName in start && groups.Keys == start.Keys && groups[StaffGroupName] == staff &&
    forall n :: n in start && n != StaffGroupName ==> groups[n] == start[n]
  }

  /** The groups the loops leave behind are the groups after the migration. */
  lemma MigrationResult(g0: map<string, set<Permission>>, start: map<string, set<Permission>>,
                        groups: map<string, set<Permission>>, perms: seq<Permission>, existing: set<ContentType>)
    requires start == if StaffGroupName in g0 then g0 else g0[StaffGroupName := {}]
    requires OnlyStaffChanged(groups, start, start[StaffGroupName] + Granted(perms, existing, Listed(StaffAppModels)))
    ensures groups == AfterMigration(g0, perms, existing)
  {
    var want := AfterMigration(g0, perms, existing);
    assert groups.Keys == want.Keys;
  }

  /** The database tables the migration reads and writes. */
  class AuthTables {
    var contentTypes: set<ContentType>
    var permissions: seq<Permission>
    var groups: map<string, set<Permission>>

    constructor (contentTypes: set<ContentType>, permissions: seq<Permission>, groups: map<string, set<Permission>>)
      ensures this.contentTypes == contentTypes && this.permissions == permissions && this.groups == groups
    {
      this.contentTypes := contentTypes;
      this.permissions := permissions;
      this.groups := groups;
    }

    /** `create_staff_group`: get or create the group, then for each listed
        model that has a content type, add each of its permissions whose
        codename does not start with "delete". */
    method CreateStaffGroup()
      modifies this
      ensures contentTypes == old(contentTypes) && permissions == old(permissions)
      ensures groups == AfterMigration(old(groups), permissions, contentTypes)
    {
      if StaffGroupName !in groups {
        groups := groups[StaffGroupName := {}];
      }
      ghost var start := groups;
      assert StaffAppModels[..0] == [];
      for i := 0 to |StaffAppModels|
        invariant contentTypes == old(contentTypes) && permissions == old(permissions)
        invariant OnlyStaffChanged(groups, start, start[StaffGroupName] + Granted(permissions, contentTypes, Listed(StaffAppModels[..i])))
      {
        assert StaffAppModels[..i + 1][..i] == StaffAppModels[..i];
        AddAppPermissions(StaffAppModels[i], Listed(StaffAppModels[..i]), start);
      }
      assert StaffAppModels[..|StaffAppModels|] == StaffAppModels;
      MigrationResult(old(groups), start, groups, permissions, contentTypes);
    }

    /** The loop over one app's models; a model without a content type is
        passed over. */
    method AddAppPermissions(app: AppModels, ghost listed: set<ContentType>, ghost start: map<string, set<Permission>>)
      requires StaffGroupName in start
      requires OnlyStaffChanged(groups, start, start[StaffGroupName] + Granted(permissions, contentTypes, listed))
      modifies this
      ensures contentTypes == old(contentTypes) && permissions == old(permissions)
      ensures OnlyStaffChanged(groups, start, start[StaffGroupName] +
                Granted(permissions, contentTypes, listed + ModelsOf(app.appLabel, app.modelNames)))
    {
      assert app.modelNames[..0] == [];
      for j := 0 to |app.modelNames|
        invariant contentTypes == old(contentTypes) && permissions == old(permissions)
        invariant OnlyStaffChanged(groups, start, start[StaffGroupName] +
                    Granted(permissions, contentTypes, listed + ModelsOf(app.appLabel, app.modelNames[..j])))
      {
        var ct := ContentType(app.appLabel, app.modelNames[j]);
        ghost var considered := listed + ModelsOf(app.appLabel, app.modelNames[..j]);
        assert listed + ModelsOf(app.appLabel, app.modelNames[..j + 1]) == considered + {ct} by {
          assert app.modelNames[..j + 1] == app.modelNames[..j] + [app.modelNames[j]];
        }
        if ct in contentTypes {
          AddModelPermissions(ct, considered, start);
        } else {
          assert Granted(permissions, contentTypes, considered + {ct}) == Granted(permissions, contentTypes, considered);
        }
      }
      assert app.modelNames[..|app.modelNames|] == app.modelNames;
    }

    /** The innermost loop: the permissions of one content type, each added
        to the group unless it is a delete permission. */
    method AddModelPermissions(ct: ContentType, ghost considered: set<ContentType>, ghost start: map<string, set<Permission>>)
      requires ct in contentTypes && StaffGroupName in start
      requires OnlyStaffChanged(groups, start, start[StaffGroupName] + Granted(permissions, contentTypes, considered))
      modifies this
      ensures contentTypes == old(contentTypes) && permissions == old(permissions)
      ensures OnlyStaffChanged(groups, start, start[StaffGroupName] + Granted(permissions, contentTypes, considered + {ct}))
    {
      var rows := Filter(permissions, (p: Permission) => p.contentType == ct);
      ghost var before := groups[StaffGroupName];
      assert rows[..0] == [];
      for k := 0 to |rows|
        invariant contentTypes == old(contentTypes) && permissions == old(permissions)
        invariant OnlyStaffChanged(groups, start, before + GrantableRows(rows[..k]))
      {
        var perm := rows[k];
        assert rows[..k + 1][..k] == rows[..k];
        if Grantable(perm) {
          groups := groups[StaffGroupName := groups[StaffGroupName] + {perm}];
        }
      }
      assert rows[..|rows|] == rows;
      forall p | p in permissions && p.contentType == ct ensures p in rows {
        FilterKeepsRow(permissions, (p: Permission) => p.contentType == ct, p);
      }
      GrantedStep(permissions, contentTypes, considered, ct, rows);
    }
  }
}
