/** A row of `logs` (backend/src/models/Log.js), as `logAction` writes it. */
module LogModel {
  import opened Wrappers
  import opened Js

  datatype ActorType = AdminActor | UserActor | GuestActor

  /** `data` holds the logged object; its JSON rendering is not modelled. */
  datatype LogEntry = LogEntry(
    userType: ActorType,
    userId: Option<nat>,
    action: string,
    resource: Option<string>,
    resourceId: Option<nat>,
    ipAddress: string,
    userAgent: Option<string>,
    data: Option<map<string, JsValue>>)
}
