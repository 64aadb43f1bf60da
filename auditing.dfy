/** The audit trail: the current-user cell the middleware sets around each
    request, and the signal handlers that decide whether a save, a deletion,
    a login or a logout appends an entry to the append-only log. */
module Auditing {
  import opened Base
  import opened Domain
  import opened Seqs

  datatype User = User(id: nat, username: string, isAuthenticated: bool, isSuperuser: bool)

  /** The content types an entry can refer to. */
  datatype ContentKind = UserKind | PackageKind | CustomerKind | TripKind | VendorKind | VehicleKind

  datatype ActionFlag = Addition | Change | Deletion

  /** The stored value of each flag. */
  function FlagValue(f: ActionFlag): (v: int)
    ensures 1 <= v <= 3
  {
    match f
    case Addition => 1
    case Change => 2
    case Deletion => 3
  }

  datatype LogEntry = LogEntry(
    actionTime: DateTime,
    userId: nat,
    contentType: ContentKind,
    objectId: nat,
    objectRepr: string,
    flag: ActionFlag,
    message: string)

  /** The request headers the handlers read, and the authenticated user the
      framework attached to the request, if any. */
  datatype Request = Request(forwardedFor: Option<string>, remoteAddr: Option<string>, user: Option<User>)

  /** A saved row as the post-save handlers see it: its key, the field the
      message names, and its string form. */
  datatype Instance =
    | PackageRow(pk: nat, name: string, repr: string)
    | CustomerRow(pk: nat, name: string, repr: string)
    | TripRow(pk: nat, status: TripStatus, repr: string)
    | VendorRow(pk: nat, name: string, repr: string)
    | VehicleRow(pk: nat, number: string, repr: string)

  function KindOf(i: Instance): ContentKind
  {
    match i
    case PackageRow(_, _, _) => PackageKind
    case CustomerRow(_, _, _) => CustomerKind
    case TripRow(_, _, _) => TripKind
    case VendorRow(_, _, _) => VendorKind
    case VehicleRow(_, _, _) => VehicleKind
  }

  /** The text before the first comma (`split(',')[0]`). */
  function BeforeComma(s: string): (r: string)
    ensures |r| <= |s| && r == s[..|r|]
    ensures ',' !in r
    ensures |r| < |s| ==> s[|r|] == ','
  {
    if s == [] || s[0] == ',' then [] else [s[0]] + BeforeComma(s[1..])
  }

  /** A comma-separated list yields its first item. */
  lemma {:induction false} BeforeCommaOfList(first: string, rest: string)
    requires ',' !in first
    ensures BeforeComma(first + "," + rest) == first
  {
    if first != [] {
      assert (first + "," + rest)[1..] == first[1..] + "," + rest;
      BeforeCommaOfList(first[1..], rest);
    }
  }

  /** `get_client_ip`: the first address of a non-empty forwarding header,
      otherwise the peer address (which may be absent). */
  function ClientIp(r: Request): (ip: Option<string>)
    ensures Truthy(r.forwardedFor) ==> ip.Some? && |ip.value| <= |r.forwardedFor.value|
                                       && ip.value == r.forwardedFor.value[..|ip.value|]
                                       && ',' !in ip.value
    ensures !Truthy(r.forwardedFor) ==> ip == r.remoteAddr
  {
    if Truthy(r.forwardedFor) then Some(BeforeComma(r.forwardedFor.value)) else r.remoteAddr
  }

  /** The client address is the first hop of the forwarding chain. */
  lemma ClientIpIsFirstHop(r: Request, first: string, rest: string)
    requires r.forwardedFor == Some(first + "," + rest) && ',' !in first
    ensures ClientIp(r) == Some(first)
  {
    BeforeCommaOfList(first, rest);
  }

  /** How an f-string prints an optional address. */
  function IpText(ip: Option<string>): string
  {
    if ip.Some? then ip.value else "None"
  }

  /** The handlers log only for a present, authenticated user. */
  predicate Authenticated(u: Option<User>)
  {
    u.Some? && u.value.isAuthenticated
  }

  /** The entry a login or logout records against the user's own row. */
  function SessionEntry(user: User, verb: string, ip: Option<string>, now: DateTime): (e: LogEntry)
    ensures e.contentType == UserKind && e.flag == Change
    ensures e.userId == user.id && e.objectId == user.id && e.objectRepr == user.username
    ensures e.message == "User logged " + verb + " from IP address: " + IpText(ip)
  {
    LogEntry(now, user.id, UserKind, user.id, user.username, Change,
             "User logged " + verb + " from IP address: " + IpText(ip))
  }

  /** What a message says about the row it concerns. */
  function Subject(i: Instance): string
  {
    match i
    case PackageRow(_, name, _) => "Package '" + name + "'"
    case CustomerRow(_, name, _) => "Customer '" + name + "'"
    case TripRow(pk, _, _) => "Trip #" + NatToString(pk)
    case VendorRow(_, name, _) => "Vendor '" + name + "'"
    case VehicleRow(_, number, _) => "Vehicle '" + number + "'"
  }

  /** The entry a post-save handler writes for `user`. */
  function SaveEntry(i: Instance, created: bool, user: User, now: DateTime): (e: LogEntry)
    ensures e.userId == user.id && e.objectId == i.pk && e.objectRepr == i.repr
    ensures e.contentType == KindOf(i) && e.contentType != UserKind
    ensures e.flag == Addition <==> created
    ensures e.flag != Deletion
  {
    LogEntry(now, user.id, KindOf(i), i.pk, i.repr, if created then Addition else Change, Subject(i) + SaveVerb(i, created))
  }

  /** How the message ends: created, cancelled (a trip whose status is
      "Cancelled") or updated. */
  function SaveVerb(i: Instance, created: bool): string
  {
    if created then " was created"
    else if i.TripRow? && StatusValue(i.status) == "Cancelled" then " was cancelled"
    else " was updated"
  }

  /** A save message names the row and says "was created" for a new row,
      "was cancelled" exactly for a changed trip whose status is Cancelled,
      and "was updated" for every other change. */
  lemma SaveEntryMessage(i: Instance, created: bool, user: User, now: DateTime)
    ensures created ==> SaveEntry(i, created, user, now).message == Subject(i) + " was created"
    ensures SaveEntry(i, created, user, now).message == Subject(i) + " was cancelled" <==>
              i.TripRow? && !created && i.status == Cancelled
    ensures SaveEntry(i, created, user, now).message == Subject(i) + " was updated" <==>
              !created && !(i.TripRow? && i.status == Cancelled)
  {
    var verb := SaveVerb(i, created);
    assert SaveEntry(i, created, user, now).message == Subject(i) + verb;
    assert (Subject(i) + verb)[|Subject(i)|..] == verb;
    assert i.TripRow? ==> (StatusValue(i.status) == "Cancelled" <==> i.status == Cancelled);
  }

  /** What one post-save handler appends: one entry for an authenticated
      current user whose write succeeds, nothing otherwise. */
  function SaveLog(user: Option<User>, i: Instance, created: bool, writeFails: bool, now: DateTime): (r: seq<LogEntry>)
    ensures |r| <= 1
    ensures |r| == 1 <==> Authenticated(user) && !writeFails
    ensures forall k :: 0 <= k < |r| ==> r[k] == SaveEntry(i, created, user.value, now)
  {
    if Authenticated(user) && !writeFails then [SaveEntry(i, created, user.value, now)] else []
  }

  /** One save performed while a request is handled. */
  datatype SaveEvent = SaveEvent(instance: Instance, created: bool, writeFails: bool, now: DateTime)

  /** What a series of saves appends for the current user `user`. */
  function SavesLog(user: Option<User>, saves: seq<SaveEvent>): (r: seq<LogEntry>)
    ensures |r| <= |saves|
    ensures !Authenticated(user) ==> r == []
    ensures forall k :: 0 <= k < |r| ==> r[k].userId == user.value.id && r[k].contentType != UserKind
  {
    if saves == [] then []
    else
      var last := saves[|saves| - 1];
      SavesLog(user, saves[..|saves| - 1]) + SaveLog(user, last.instance, last.created, last.writeFails, last.now)
  }

  /** The entries one save adds, for the current user `user`. */
  function LogOf(user: Option<User>): SaveEvent -> seq<LogEntry>
  {
    (e: SaveEvent) => SaveLog(user, e.instance, e.created, e.writeFails, e.now)
  }

  /** The log of a series of saves joins the logs of the single saves. */
  lemma {:induction false} SavesLogJoins(user: Option<User>, saves: seq<SaveEvent>)
    ensures SavesLog(user, saves) == FlatMap(saves, LogOf(user))
  {
    if saves != [] {
      SavesLogJoins(user, saves[..|saves| - 1]);
    }
  }

  /** For an authenticated user whose writes all succeed, every save is logged,
      in order. */
  lemma EverySaveLogged(user: Option<User>, saves: seq<SaveEvent>)
    requires Authenticated(user)
    requires forall k :: 0 <= k < |saves| ==> !saves[k].writeFails
    ensures |SavesLog(user, saves)| == |saves|
    ensures forall k :: 0 <= k < |saves| ==>
              SavesLog(user, saves)[k] == SaveEntry(saves[k].instance, saves[k].created, user.value, saves[k].now)
  {
    SavesLogJoins(user, saves);
    var entryOf := (e: SaveEvent) => SaveEntry(e.instance, e.created, user.value, e.now);
    forall k | 0 <= k < |saves| ensures LogOf(user)(saves[k]) == [entryOf(saves[k])] {
      var e := saves[k];
      var r := SaveLog(user, e.instance, e.created, e.writeFails, e.now);
      assert |r| == 1 && r[0] == entryOf(e);
    }
    FlatMapSingletons(saves, LogOf(user), entryOf);
  }

  /** What the request handler does while the current user is set: the saves
      it performs, and how it ends. */
  datatype Outcome = Responded(response: nat) | Raised(error: string)
  datatype HandlerRun = HandlerRun(saves: seq<SaveEvent>, outcome: Outcome)

  /** The log and the current-user cell. */
  class AuditLog {
    var currentUser: Option<User>
    var entries: seq<LogEntry>

    /** Before any request the cell is empty, and so is the log. */
    constructor ()
      ensures currentUser == None && entries == []
    {
      currentUser := None;
      entries := [];
    }

    /** `get_current_user`. */
    function GetCurrentUser(): Option<User>
      reads this
    {
      currentUser
    }

    /** `set_current_user`: the last value set is the one read back. */
    method SetCurrentUser(u: Option<User>)
      modifies this
      ensures GetCurrentUser() == u
      ensures entries == old(entries)
    {
      currentUser := u;
    }

    /** The post-save handlers of packages, customers, trips, vendors and
        vehicles. A failed write is swallowed. */
    method OnSaved(i: Instance, created: bool, writeFails: bool, now: DateTime)
      modifies this
      ensures currentUser == old(currentUser)
      ensures entries == old(entries) + SaveLog(old(currentUser), i, created, writeFails, now)
    {
      var user := GetCurrentUser();
      if user.Some? && user.value.isAuthenticated {
        var entry := SaveEntry(i, created, user.value, now);
        if !writeFails {
          entries := entries + [entry];
        }
      }
    }

    /** The post-delete handler, registered for packages only. */
    method OnPackageDeleted(pk: nat, name: string, repr: string, writeFails: bool, now: DateTime)
      modifies this
      ensures currentUser == old(currentUser)
      ensures Authenticated(old(currentUser)) && !writeFails ==>
                entries == old(entries) + [LogEntry(now, old(currentUser).value.id, PackageKind, pk, repr, Deletion,
                                                    "Package '" + name + "' was deleted")]
      ensures !(Authenticated(old(currentUser)) && !writeFails) ==> entries == old(entries)
    {
      var user := GetCurrentUser();
      if user.Some? && user.value.isAuthenticated && !writeFails {
        entries := entries + [LogEntry(now, user.value.id, PackageKind, pk, repr, Deletion,
                                       "Package '" + name + "' was deleted")];
      }
    }

    /** The login handler logs unconditionally; its write is not guarded, so
        a failure propagates to the caller. */
    method OnLogin(request: Request, user: User, writeFails: bool, now: DateTime) returns (raised: bool)
      modifies this
      ensures raised == writeFails
      ensures currentUser == old(currentUser)
      ensures !writeFails ==> entries == old(entries) + [SessionEntry(user, "in", ClientIp(request), now)]
      ensures writeFails ==> entries == old(entries)
    {
      var ip := ClientIp(request);
      raised := writeFails;
      if !writeFails {
        entries := entries + [SessionEntry(user, "in", ip, now)];
      }
    }

    /** The logout handler logs only for a present, authenticated user. */
    method OnLogout(request: Request, user: Option<User>, writeFails: bool, now: DateTime) returns (raised: bool)
      modifies this
      ensures raised == (Authenticated(user) && writeFails)
      ensures currentUser == old(currentUser)
      ensures Authenticated(user) && !writeFails ==>
                entries == old(entries) + [SessionEntry(user.value, "out", ClientIp(request), now)]
      ensures !(Authenticated(user) && !writeFails) ==> entries == old(entries)
    {
      raised := false;
      if user.Some? && user.value.isAuthenticated {
        var ip := ClientIp(request);
        if writeFails {
          raised := true;
        } else {
          entries := entries + [SessionEntry(user.value, "out", ip, now)];
        }
      }
    }

    /** `CurrentUserMiddleware.__call__`: the request's user is current while
        the handler runs, so the saves it makes are logged under that user;
        afterwards the cell is cleared, whether the handler returned or
        raised, and the handler's outcome is passed on unchanged. */
    method HandleRequest(request: Request, handler: Option<User> -> HandlerRun) returns (outcome: Outcome)
      modifies this
      ensures outcome == handler(request.user).outcome
      ensures currentUser == None
      ensures entries == old(entries) + SavesLog(request.user, handler(request.user).saves)
    {
      SetCurrentUser(request.user);
      var run := handler(GetCurrentUser());
      var i := 0;
      while i < |run.saves|
        invariant 0 <= i <= |run.saves|
        invariant currentUser == request.user
        invariant entries == old(entries) + SavesLog(request.user, run.saves[..i])
      {
        var e := run.saves[i];
        assert run.saves[..i + 1][..i] == run.saves[..i];
        OnSaved(e.instance, e.created, e.writeFails, e.now);
        i := i + 1;
      }
      assert run.saves[..i] == run.saves;
      SetCurrentUser(None);
      outcome := run.outcome;
    }
  }
}
