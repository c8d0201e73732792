/** `logAction` (backend/src/middleware/logger.js): one row of the operation log. */
module Logger {
  import opened Wrappers
  import opened Js
  import opened AccountModel
  import opened LogModel
  import opened Database

  /** `req.admin ? 'admin' : (req.user ? 'user' : 'guest')`. */
  function ActorOf(c: Caller): (t: ActorType)
    ensures t == AdminActor <==> c.admin.Some?
    ensures t == UserActor <==> c.admin.None? && c.user.Some?
    ensures t == GuestActor <==> c.admin.None? && c.user.None?
  {
    if c.admin.Some? then AdminActor else if c.user.Some? then UserActor else GuestActor
  }

  /**
   * `req.admin?.id || req.user?.id || null`. `||` skips a falsy id, so an
   * id of 0 falls through to the next candidate.
   */
  function ActorIdOf(c: Caller): (id: Option<nat>)
    ensures id.Some? ==> id.value != 0
    ensures id.Some? ==> (c.admin.Some? && id.value == c.admin.value.id) || (c.user.Some? && id.value == c.user.value.id)
    ensures c.admin.Some? && c.admin.value.id != 0 ==> id == Some(c.admin.value.id)
    ensures id.None? <==> (c.admin.None? || c.admin.value.id == 0) && (c.user.None? || c.user.value.id == 0)
  {
    if c.admin.Some? && c.admin.value.id != 0 then Some(c.admin.value.id)
    else if c.user.Some? && c.user.value.id != 0 then Some(c.user.value.id)
    else None
  }

  /** The row `logAction` hands to `Log.create`; a present `data` object is kept, an absent one is null. */
  function EntryFor(c: Caller, action: string, resource: Option<string>, resourceId: Option<nat>,
                    data: Option<map<string, JsValue>>): (e: LogEntry)
    ensures e.userType == ActorOf(c) && e.userId == ActorIdOf(c)
    ensures e.action == action && e.resource == resource && e.resourceId == resourceId
    ensures e.ipAddress == c.ip && e.userAgent == c.userAgent && e.data == data
  {
    LogEntry(ActorOf(c), ActorIdOf(c), action, resource, resourceId, c.ip, c.userAgent, data)
  }

  /** A guest's entries name no one; an entry that names someone names the caller's admin or user. */
  lemma GuestEntryHasNoId(c: Caller, action: string)
    requires c.admin.None? && c.user.None?
    ensures EntryFor(c, action, None, None, None).userType == GuestActor
    ensures EntryFor(c, action, None, None, None).userId == None
  {
  }

  /**
   * `logAction`: append one entry. A failed insert (`insertFails`) is caught
   * and swallowed, so the call never fails and then leaves the log as it was.
   */
  method LogAction(db: Db, c: Caller, action: string, resource: Option<string>, resourceId: Option<nat>,
                   data: Option<map<string, JsValue>>, insertFails: bool)
    modifies db`logs
    ensures !insertFails ==> db.logs == old(db.logs) + [EntryFor(c, action, resource, resourceId, data)]
    ensures insertFails ==> db.logs == old(db.logs)
    ensures db.Valid() == old(db.Valid())
  {
    if !insertFails {
      db.logs := db.logs + [EntryFor(c, action, resource, resourceId, data)];
    }
  }
}
