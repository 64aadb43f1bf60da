/** The log viewer: the whole log newest first, split into session entries
    (logins and logouts) and action entries (changes to business rows). */
module AuditViews {
  import opened Base
  import opened Seqs
  import opened Auditing

  /** `is_admin`, the viewer's access test. */
  predicate IsAdmin(u: User)
  {
    u.isSuperuser
  }

  function ActionTime(e: LogEntry): int
  {
    e.actionTime
  }

  /** An entry on the user content type whose message mentions "logged". */
  predicate IsSessionEntry(e: LogEntry)
  {
    e.contentType == UserKind && ContainsIgnoringCase(e.message, "logged")
  }

  /** An entry about any other content type. */
  predicate IsActionEntry(e: LogEntry)
  {
    e.contentType != UserKind
  }

  /** Every entry, newest first. */
  function AllLogs(entries: seq<LogEntry>): (r: seq<LogEntry>)
    ensures Descending(r, ActionTime)
    ensures multiset(r) == multiset(entries)
  {
    SortDescending(entries, ActionTime)
  }

  function SessionLogs(entries: seq<LogEntry>): (r: seq<LogEntry>)
    ensures Descending(r, ActionTime)
    ensures forall i :: 0 <= i < |r| ==> r[i] in entries && IsSessionEntry(r[i])
    ensures forall i :: 0 <= i < |entries| && IsSessionEntry(entries[i]) ==> entries[i] in r
    ensures forall e :: multiset(r)[e] == if IsSessionEntry(e) then multiset(entries)[e] else 0
  {
    var all := AllLogs(entries);
    var r := Filter(all, IsSessionEntry);
    FilterMultiset(all, IsSessionEntry);
    FilterKeepsDescending(all, IsSessionEntry, ActionTime);
    forall i | 0 <= i < |entries| && IsSessionEntry(entries[i]) ensures entries[i] in r {
      assert entries[i] in multiset(all);
      FilterKeepsRow(all, IsSessionEntry, entries[i]);
    }
    forall i | 0 <= i < |r| ensures r[i] in entries {
      assert r[i] in multiset(entries);
    }
    r
  }

  function ActionLogs(entries: seq<LogEntry>): (r: seq<LogEntry>)
    ensures Descending(r, ActionTime)
    ensures forall i :: 0 <= i < |r| ==> r[i] in entries && IsActionEntry(r[i])
    ensures forall i :: 0 <= i < |entries| && IsActionEntry(entries[i]) ==> entries[i] in r
    ensures forall e :: multiset(r)[e] == if IsActionEntry(e) then multiset(entries)[e] else 0
  {
    var all := AllLogs(entries);
    var r := Filter(all, IsActionEntry);
    FilterMultiset(all, IsActionEntry);
    FilterKeepsDescending(all, IsActionEntry, ActionTime);
    forall i | 0 <= i < |entries| && IsActionEntry(entries[i]) ensures entries[i] in r {
      assert entries[i] in multiset(all);
      FilterKeepsRow(all, IsActionEntry, entries[i]);
    }
    forall i | 0 <= i < |r| ensures r[i] in entries {
      assert r[i] in multiset(entries);
    }
    r
  }

  /** No entry is both a session entry and an action entry. */
  lemma SessionAndActionDisjoint(entries: seq<LogEntry>)
    ensures forall i, j :: 0 <= i < |SessionLogs(entries)| && 0 <= j < |ActionLogs(entries)| ==>
              SessionLogs(entries)[i] != ActionLogs(entries)[j]
  {
  }

  /** The viewer's page; anyone who is not a superuser is sent to log in. */
  datatype LogPage = LoginRedirect | LogPage(actionLogs: seq<LogEntry>, sessionLogs: seq<LogEntry>)

  function ActionLogView(viewer: User, entries: seq<LogEntry>): (p: LogPage)
    ensures p.LogPage? <==> viewer.isSuperuser
    ensures p.LogPage? ==> p.actionLogs == ActionLogs(entries) && p.sessionLogs == SessionLogs(entries)
  {
    if IsAdmin(viewer) then LogPage(ActionLogs(entries), SessionLogs(entries)) else LoginRedirect
  }

  /** The login and logout entries are exactly what the session list shows. */
  lemma SessionEntriesAreSessionLogs(user: User, verb: string, ip: Option<string>, now: DateTime)
    ensures IsSessionEntry(SessionEntry(user, verb, ip, now))
    ensures !IsActionEntry(SessionEntry(user, verb, ip, now))
  {
    var m := SessionEntry(user, verb, ip, now).message;
    var low := Lower(m);
    assert m[5..11] == "logged";
    assert low[5..11] == "logged" by {
      forall k | 5 <= k < 11 ensures low[k] == m[k] {
        assert low[k] == LowerChar(m[k]);
      }
    }
    assert Lower("logged") == "logged";
    assert OccursAt(low, Lower("logged"), 5);
  }

  /** Every entry a save writes is shown among the action logs. */
  lemma SaveEntriesAreActionLogs(i: Instance, created: bool, user: User, now: DateTime)
    ensures IsActionEntry(SaveEntry(i, created, user, now))
    ensures !IsSessionEntry(SaveEntry(i, created, user, now))
  {
  }
}
