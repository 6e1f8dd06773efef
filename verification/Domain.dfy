/** The application's own tables: users, licences, seat assignments and the
    audit log. A row's primary key is its key in the map, or its position in
    the sequence for the two tables that only ever grow at the end. */
module Domain {
  import opened Basics

  datatype UserStatus = Active | Inactive

  datatype Policy = Allow | RequireApproval | Deny

  datatype User = User(email: string, name: string, status: UserStatus)

  datatype Licence = Licence(product: string, seatsTotal: int, policy: Policy)

  datatype Assignment = Assignment(userId: int, licenceId: int, revokedAt: Option<int>) {
    predicate Active() { revokedAt.None? }

    predicate ActiveFor(u: int, l: int) { userId == u && licenceId == l && Active() }
  }

  datatype Action = AssignmentCreate | AssignmentRevoke | UserCreate | LicenceCreate

  /** The business fields an audit event keeps of the row it describes. */
  datatype Snapshot =
    | Assigned(userId: int, licenceId: int)
    | Revocation(userId: int, licenceId: int, revokedAt: Option<int>)
    | UserFields(email: string, name: string, status: UserStatus)
    | LicenceFields(product: string, seatsTotal: int, policy: Policy)

  datatype AuditEvent = AuditEvent(
    actor: string, action: Action, entityId: int, before: Option<Snapshot>, after: Option<Snapshot>)

  /** The committed application state that services read and change. */
  datatype Store = Store(
    users: map<int, User>,
    licences: map<int, Licence>,
    assignments: seq<Assignment>,
    audit: seq<AuditEvent>)

  datatype ServiceError =
    | InvalidInput
    | UserNotFound
    | LicenceNotFound
    | AssignmentAlreadyExists
    | NoSeatsAvailable
    | UserInactive
    | AssignmentNotFound
    | AssignmentAlreadyRevoked
    | EmailAlreadyExists
    | ProductAlreadyExists
    | Unexpected(errorType: string)
}
