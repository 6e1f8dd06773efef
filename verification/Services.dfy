/** The business services. Each operation is given by what it does to the store,
    or the error it raises; `AssignmentService` carries it out in place, inside
    a transaction that the caller owns. */
module Services {
  import opened Basics
  import opened Listings
  import opened Text
  import opened Domain

  const EMAIL_MAX_LENGTH := 320
  const NAME_MAX_LENGTH := 200
  const PRODUCT_MAX_LENGTH := 200
  const SEATS_TOTAL_MAX := 2_147_483_647

  // --- reads ------------------------------------------------------------------

  /** The rows that use a seat of licence `l`. */
  function SeatHolders(rows: seq<Assignment>, l: int): (s: set<nat>) {
    set i: nat | i < |rows| && rows[i].licenceId == l && rows[i].Active()
  }

  function SeatsTaken(rows: seq<Assignment>, l: int): nat {
    |SeatHolders(rows, l)|
  }

  predicate HoldsSeat(rows: seq<Assignment>, u: int, l: int) {
    exists i :: 0 <= i < |rows| && rows[i].ActiveFor(u, l)
  }

  /** The active row of the pair, as the query returns it. */
  function ActiveRow(rows: seq<Assignment>, u: int, l: int): (found: Option<nat>)
    ensures found.Some? <==> HoldsSeat(rows, u, l)
    ensures found.Some? ==> found.value < |rows| && rows[found.value].ActiveFor(u, l)
  {
    if rows == [] then None
    else
      var last := |rows| - 1;
      var earlier := ActiveRow(rows[..last], u, l);
      assert rows == rows[..last] + [rows[last]];
      if earlier.Some? then
        assert rows[earlier.value].ActiveFor(u, l);
        earlier
      else if rows[last].ActiveFor(u, l) then Some(last)
      else None
  }

  /** A licence's seats at the moment of reading. */
  datatype SeatUsage = SeatUsage(licence: Licence, active: nat) {
    function Available(): int {
      if licence.seatsTotal - active > 0 then licence.seatsTotal - active else 0
    }
  }

  function GetSeatUsage(b: Store, l: int): Result<SeatUsage, ServiceError> {
    if l in b.licences then Ok(SeatUsage(b.licences[l], SeatsTaken(b.assignments, l))) else Err(LicenceNotFound)
  }

  // --- changes ----------------------------------------------------------------

  /** `assign_licence`: the new row's id and the store with the row and its event. */
  function AssignLicence(b: Store, u: int, l: int, actor: string): Result<(nat, Store), ServiceError> {
    match ValidatedActor(actor)
    case Err(_) => Err(InvalidInput)
    case Ok(name) =>
      if u !in b.users then Err(UserNotFound)
      else if b.users[u].status != Active then Err(UserInactive)
      else if l !in b.licences then Err(LicenceNotFound)
      else if HoldsSeat(b.assignments, u, l) then Err(AssignmentAlreadyExists)
      else if SeatsTaken(b.assignments, l) >= b.licences[l].seatsTotal then Err(NoSeatsAvailable)
      else
        var id := |b.assignments|;
        Ok((id, b.(assignments := b.assignments + [Assignment(u, l, None)],
                   audit := b.audit + [AuditEvent(name, AssignmentCreate, id, None, Some(Assigned(u, l)))])))
  }

  function RevocationOf(a: Assignment): Snapshot {
    Revocation(a.userId, a.licenceId, a.revokedAt)
  }

  /** `revoke_assignment` at time `now`. The row is kept as history. */
  function RevokeAssignment(b: Store, id: int, now: int, actor: string): Result<Store, ServiceError> {
    match ValidatedActor(actor)
    case Err(_) => Err(InvalidInput)
    case Ok(name) =>
      if !(0 <= id < |b.assignments|) then Err(AssignmentNotFound)
      else if !b.assignments[id].Active() then Err(AssignmentAlreadyRevoked)
      else
        var revoked := b.assignments[id].(revokedAt := Some(now));
        var event := AuditEvent(name, AssignmentRevoke, id, Some(RevocationOf(b.assignments[id])), Some(RevocationOf(revoked)));
        Ok(b.(assignments := b.assignments[id := revoked], audit := b.audit + [event]))
  }

  function NormalizeEmail(email: string): string {
    Fold(Strip(email))
  }

  /** Exactly one "@" with something on each side, and no space anywhere. */
  predicate EmailForm(s: string) {
    exists at {:trigger s[at]} ::
      && 0 < at < |s| - 1 && s[at] == '@'
      && forall j | 0 <= j < |s| :: !IsSpace(s[j]) && (j != at ==> s[j] != '@')
  }

  function ValidatedEmail(email: string): Result<string, ServiceError> {
    match RequiredText(NormalizeEmail(email), EMAIL_MAX_LENGTH)
    case Err(_) => Err(InvalidInput)
    case Ok(normalized) => if EmailForm(normalized) then Ok(normalized) else Err(InvalidInput)
  }

  predicate EmailTaken(b: Store, email: string) {
    exists u :: u in b.users && b.users[u].email == email
  }

  predicate ProductTaken(b: Store, product: string) {
    exists l :: l in b.licences && b.licences[l].product == product
  }

  /** `create_user`, with the primary key the database hands out. */
  function CreateUser(b: Store, id: int, email: string, name: string, actor: string): Result<Store, ServiceError>
    requires id !in b.users
  {
    match (ValidatedEmail(email), RequiredText(name, NAME_MAX_LENGTH), ValidatedActor(actor))
    case (Ok(address), Ok(fullName), Ok(author)) =>
      if EmailTaken(b, address) then Err(EmailAlreadyExists)
      else
        var event := AuditEvent(author, UserCreate, id, None, Some(UserFields(address, fullName, Active)));
        Ok(b.(users := b.users[id := User(address, fullName, Active)], audit := b.audit + [event]))
    case _ => Err(InvalidInput)
  }

  /** `create_licence`, with the primary key the database hands out. */
  function CreateLicence(b: Store, id: int, product: string, seats: int, policy: Policy, actor: string)
    : Result<Store, ServiceError>
    requires id !in b.licences
  {
    match (RequiredText(product, PRODUCT_MAX_LENGTH), ValidatedActor(actor))
    case (Ok(name), Ok(author)) =>
      if !(0 <= seats <= SEATS_TOTAL_MAX) then Err(InvalidInput)
      else if ProductTaken(b, name) then Err(ProductAlreadyExists)
      else
        var event := AuditEvent(author, LicenceCreate, id, None, Some(LicenceFields(name, seats, policy)));
        Ok(b.(licences := b.licences[id := Licence(name, seats, policy)], audit := b.audit + [event]))
    case _ => Err(InvalidInput)
  }

  // --- lookups by name ------------------------------------------------------------

  function UsersByEmail(b: Store, email: string): set<int> {
    set u | u in b.users && b.users[u].email == email
  }

  function FindUserByEmail(b: Store, email: string): Result<set<int>, ServiceError> {
    match ValidatedEmail(email)
    case Err(e) => Err(e)
    case Ok(normalized) => Ok(UsersByEmail(b, normalized))
  }

  function LicencesByFold(b: Store, wanted: string): set<int> {
    set l | l in b.licences && Fold(b.licences[l].product) == wanted
  }

  /** The matching licences' ids, in id order. */
  function FindLicencesByProduct(b: Store, product: string): (r: Result<seq<int>, ServiceError>)
    ensures r.Ok? ==> AllListed(b, r.value)
  {
    match RequiredText(product, PRODUCT_MAX_LENGTH)
    case Err(_) => Err(InvalidInput)
    case Ok(name) =>
      MatchesAreListed(b, Fold(name));
      Ok(SortedIds(LicencesByFold(b, Fold(name))))
  }

  predicate AllListed(b: Store, listed: seq<int>) {
    forall i | 0 <= i < |listed| :: listed[i] in b.licences
  }

  lemma MatchesAreListed(b: Store, wanted: string)
    ensures AllListed(b, SortedIds(LicencesByFold(b, wanted)))
  {
    var listed := SortedIds(LicencesByFold(b, wanted));
    forall i | 0 <= i < |listed| ensures listed[i] in b.licences {
      assert listed[i] in listed;
    }
  }

  function ProductsOf(b: Store, listed: seq<int>): (names: seq<string>)
    requires AllListed(b, listed)
    ensures |names| == |listed| && forall i | 0 <= i < |listed| :: names[i] == b.licences[listed[i]].product
  {
    seq(|listed|, i requires 0 <= i < |listed| => b.licences[listed[i]].product)
  }

  // --- what people do between an agent's transactions --------------------------

  /** A request made through the API by a person, or an administrator's edit of
      a licence's policy or a user's status, which no endpoint offers. */
  datatype HumanStep =
    | HumanAssign(u: int, l: int, actor: string)
    | HumanRevoke(id: int, now: int, actor: string)
    | HumanCreateUser(id: int, email: string, name: string, actor: string)
    | HumanCreateLicence(id: int, product: string, seats: int, policy: Policy, actor: string)
    | EditPolicy(l: int, policy: Policy)
    | EditStatus(u: int, status: UserStatus)

  predicate ReservedRequest(step: HumanStep) {
    match step
    case HumanAssign(_, _, actor) => Reserved(actor)
    case HumanRevoke(_, _, actor) => Reserved(actor)
    case HumanCreateUser(_, _, _, actor) => Reserved(actor)
    case HumanCreateLicence(_, _, _, _, actor) => Reserved(actor)
    case _ => false
  }

  /** The committed state after a person's step; a refused one rolls back. */
  function HumanTx(b: Store, step: HumanStep): Store {
    if ReservedRequest(step) then b
    else match step
      case HumanAssign(u, l, actor) =>
        (match AssignLicence(b, u, l, actor) case Ok((_, after)) => after case Err(_) => b)
      case HumanRevoke(id, now, actor) =>
        (match RevokeAssignment(b, id, now, actor) case Ok(after) => after case Err(_) => b)
      case HumanCreateUser(id, email, name, actor) =>
        if id in b.users then b
        else (match CreateUser(b, id, email, name, actor) case Ok(after) => after case Err(_) => b)
      case HumanCreateLicence(id, product, seats, policy, actor) =>
        if id in b.licences then b
        else (match CreateLicence(b, id, product, seats, policy, actor) case Ok(after) => after case Err(_) => b)
      case EditPolicy(l, policy) =>
        if l in b.licences then b.(licences := b.licences[l := b.licences[l].(policy := policy)]) else b
      case EditStatus(u, status) =>
        if u in b.users then b.(users := b.users[u := b.users[u].(status := status)]) else b
  }

  // --- what each change answers, exactly -------------------------------------------

  /** Text that may be stored: not blank once stripped, and not too long. */
  predicate Fits(text: string, maxLength: nat) {
    0 < |Strip(text)| <= maxLength
  }

  /** An assignment succeeds exactly for an active user, a licence with a seat
      left and a pair without one. Otherwise it fails with the first error, in
      this order, whose condition holds. */
  lemma AssignsExactlyWhenFree(b: Store, u: int, l: int, actor: string)
    ensures var r := AssignLicence(b, u, l, actor);
      var named := Fits(actor, ACTOR_MAX_LENGTH);
      var may := named && u in b.users && b.users[u].status == Active;
      var held := exists i :: 0 <= i < |b.assignments| && b.assignments[i].ActiveFor(u, l);
      && (r == Err(InvalidInput) <==> !named)
      && (r == Err(UserNotFound) <==> named && u !in b.users)
      && (r == Err(UserInactive) <==> named && u in b.users && b.users[u].status == Inactive)
      && (r == Err(LicenceNotFound) <==> may && l !in b.licences)
      && (r == Err(AssignmentAlreadyExists) <==> may && l in b.licences && held)
      && (r == Err(NoSeatsAvailable) <==>
            may && l in b.licences && !held && SeatsTaken(b.assignments, l) >= b.licences[l].seatsTotal)
      && (r.Ok? <==> may && l in b.licences && !held && SeatsTaken(b.assignments, l) < b.licences[l].seatsTotal)
  {
  }

  /** And then it adds one active row at the end of the table, and its event. */
  lemma AssignmentAddsOneRow(b: Store, u: int, l: int, actor: string)
    requires AssignLicence(b, u, l, actor).Ok?
    ensures var (id, after) := AssignLicence(b, u, l, actor).value;
      && id == |b.assignments| && |after.assignments| == id + 1 && after.assignments[..id] == b.assignments
      && after.assignments[id].userId == u && after.assignments[id].licenceId == l && after.assignments[id].Active()
      && SeatsTaken(after.assignments, l) == SeatsTaken(b.assignments, l) + 1
      && after.users == b.users && after.licences == b.licences
      && |after.audit| == |b.audit| + 1 && after.audit[..|b.audit|] == b.audit
      && var e := after.audit[|b.audit|];
         && e.actor == Strip(actor) && e.action == AssignmentCreate && e.entityId == id
         && e.before == None && e.after == Some(Assigned(u, l))
  {
    SeatHoldersAppend(b.assignments, Assignment(u, l, None), l);
  }

  /** A revocation succeeds exactly for an active row, and changes only when it
      was revoked. */
  lemma RevokesExactlyWhenActive(b: Store, id: int, now: int, actor: string)
    ensures var r := RevokeAssignment(b, id, now, actor);
      var named := Fits(actor, ACTOR_MAX_LENGTH);
      var known := 0 <= id < |b.assignments|;
      && (r == Err(InvalidInput) <==> !named)
      && (r == Err(AssignmentNotFound) <==> named && !known)
      && (r == Err(AssignmentAlreadyRevoked) <==> named && known && b.assignments[id].revokedAt.Some?)
      && (r.Ok? <==> named && known && b.assignments[id].revokedAt.None?)
      && (r.Ok? ==>
            var after := r.value;
            && |after.assignments| == |b.assignments| && after.assignments[id].revokedAt == Some(now)
            && after.assignments[id].userId == b.assignments[id].userId
            && after.assignments[id].licenceId == b.assignments[id].licenceId
            && (forall i | 0 <= i < |b.assignments| && i != id :: after.assignments[i] == b.assignments[i])
            && after.users == b.users && after.licences == b.licences
            && |after.audit| == |b.audit| + 1 && after.audit[..|b.audit|] == b.audit
            && after.audit[|b.audit|].actor == Strip(actor) && after.audit[|b.audit|].action == AssignmentRevoke
            && after.audit[|b.audit|].entityId == id)
  {
  }

  /** An email is valid exactly if its normal form, stripped and in small letters,
      fits and has one "@" with something on either side and no space; and then
      that form is what is stored and looked up. */
  lemma EmailIsValidExactly(email: string)
    ensures var s := Strip(NormalizeEmail(email));
      && (ValidatedEmail(email).Ok? <==>
            && 0 < |s| <= 320
            && exists at :: 0 < at < |s| - 1 && s[at] == '@' && forall j | 0 <= j < |s| && j != at :: s[j] != '@' && !IsSpace(s[j]))
      && (ValidatedEmail(email).Ok? ==> ValidatedEmail(email).value == s)
      && (ValidatedEmail(email).Err? ==> ValidatedEmail(email) == Err(InvalidInput))
  {
    var s := Strip(NormalizeEmail(email));
    if at :| 0 < at < |s| - 1 && s[at] == '@' && forall j | 0 <= j < |s| && j != at :: s[j] != '@' && !IsSpace(s[j]) {
      assert !IsSpace('@');
    }
  }

  /** A user is created exactly for a fitting, free email, a name and an actor:
      active, under the normalized email. */
  lemma CreatesUserExactlyWhenFree(b: Store, id: int, email: string, name: string, actor: string)
    requires id !in b.users
    ensures var r := CreateUser(b, id, email, name, actor);
      var valid := ValidatedEmail(email).Ok? && Fits(name, NAME_MAX_LENGTH) && Fits(actor, ACTOR_MAX_LENGTH);
      var taken := valid && exists u :: u in b.users && b.users[u].email == ValidatedEmail(email).value;
      && (r == Err(InvalidInput) <==> !valid)
      && (r == Err(EmailAlreadyExists) <==> taken)
      && (r.Ok? <==> valid && !taken)
      && (r.Ok? ==>
            && r.value.users.Keys == b.users.Keys + {id} && (forall u | u in b.users :: r.value.users[u] == b.users[u])
            && r.value.users[id] == User(ValidatedEmail(email).value, Strip(name), Active)
            && r.value.licences == b.licences && r.value.assignments == b.assignments
            && |r.value.audit| == |b.audit| + 1 && r.value.audit[..|b.audit|] == b.audit
            && r.value.audit[|b.audit|].actor == Strip(actor) && r.value.audit[|b.audit|].action == UserCreate
            && r.value.audit[|b.audit|].entityId == id)
  {
    hide ValidatedEmail;
  }

  /** A licence is created exactly for a fitting, free product name, a seat count
      that the column holds and an actor. */
  lemma CreatesLicenceExactlyWhenFree(b: Store, id: int, product: string, seats: int, policy: Policy, actor: string)
    requires id !in b.licences
    ensures var r := CreateLicence(b, id, product, seats, policy, actor);
      var valid := Fits(product, PRODUCT_MAX_LENGTH) && Fits(actor, ACTOR_MAX_LENGTH) && 0 <= seats < 0x8000_0000;
      var taken := valid && exists l :: l in b.licences && b.licences[l].product == Strip(product);
      && (r == Err(InvalidInput) <==> !valid)
      && (r == Err(ProductAlreadyExists) <==> taken)
      && (r.Ok? <==> valid && !taken)
      && (r.Ok? ==>
            && r.value.licences.Keys == b.licences.Keys + {id}
            && (forall l | l in b.licences :: r.value.licences[l] == b.licences[l])
            && r.value.licences[id] == Licence(Strip(product), seats, policy)
            && r.value.users == b.users && r.value.assignments == b.assignments
            && |r.value.audit| == |b.audit| + 1 && r.value.audit[..|b.audit|] == b.audit
            && r.value.audit[|b.audit|].actor == Strip(actor) && r.value.audit[|b.audit|].action == LicenceCreate
            && r.value.audit[|b.audit|].entityId == id)
  {
  }

  /** What each of a person's steps leaves: a reserved actor changes nothing; an
      assignment or a creation adds its row, and a revocation its date, exactly
      if the service does; an edit changes one column of one row. */
  lemma PersonChangesExactly(b: Store, step: HumanStep)
    ensures ReservedRequest(step) ==> HumanTx(b, step) == b
    ensures !ReservedRequest(step) ==>
      match step
      case HumanAssign(u, l, actor) =>
        var r := AssignLicence(b, u, l, actor);
        HumanTx(b, step) == if r.Ok? then r.value.1 else b
      case HumanRevoke(id, now, actor) =>
        var r := RevokeAssignment(b, id, now, actor);
        HumanTx(b, step) == if r.Ok? then r.value else b
      case HumanCreateUser(id, email, name, actor) =>
        id !in b.users ==>
          HumanTx(b, step) == if CreateUser(b, id, email, name, actor).Ok? then CreateUser(b, id, email, name, actor).value else b
      case HumanCreateLicence(id, product, seats, policy, actor) =>
        id !in b.licences ==>
          var r := CreateLicence(b, id, product, seats, policy, actor);
          HumanTx(b, step) == if r.Ok? then r.value else b
      case EditPolicy(l, policy) =>
        var after := HumanTx(b, step);
        && after.(licences := b.licences) == b && after.licences.Keys == b.licences.Keys
        && forall m | m in b.licences ::
             after.licences[m] == if m == l then b.licences[m].(policy := policy) else b.licences[m]
      case EditStatus(u, status) =>
        var after := HumanTx(b, step);
        && after.(users := b.users) == b && after.users.Keys == b.users.Keys
        && forall v | v in b.users :: after.users[v] == if v == u then b.users[v].(status := status) else b.users[v]
  {
    hide AssignLicence, RevokeAssignment, CreateUser, CreateLicence;
  }

  // --- audit replay -------------------------------------------------------------

  /** What one event says happened to the assignments table, or None if the
      event cannot have been written against that table. */
  function ReplayOne(rows: seq<Assignment>, e: AuditEvent): Option<seq<Assignment>> {
    match e.action
    case AssignmentCreate =>
      if e.entityId == |rows| && e.before.None? && e.after.Some? && e.after.value.Assigned?
      then Some(rows + [Assignment(e.after.value.userId, e.after.value.licenceId, None)])
      else None
    case AssignmentRevoke =>
      if 0 <= e.entityId < |rows| && e.before == Some(RevocationOf(rows[e.entityId]))
         && e.after.Some? && e.after.value.Revocation?
      then Some(rows[e.entityId := Assignment(e.after.value.userId, e.after.value.licenceId, e.after.value.revokedAt)])
      else None
    case _ => Some(rows)
  }

  function Replay(events: seq<AuditEvent>): Option<seq<Assignment>> {
    if events == [] then Some([])
    else
      match Replay(events[..|events| - 1])
      case None => None
      case Some(rows) => ReplayOne(rows, events[|events| - 1])
  }

  /** The audit log, replayed from the start, is the assignments table. */
  predicate Audited(b: Store) {
    Replay(b.audit) == Some(b.assignments)
  }

  lemma ReplayAppend(b: Store, e: AuditEvent)
    requires Audited(b)
    ensures Replay(b.audit + [e]) == ReplayOne(b.assignments, e)
  {
    assert (b.audit + [e])[..|b.audit|] == b.audit;
  }

  // --- seat safety ----------------------------------------------------------------

  predicate OneActiveRowPerPair(rows: seq<Assignment>) {
    forall i, j | 0 <= i < j < |rows| && rows[i].Active() && rows[j].Active() ::
      rows[i].userId != rows[j].userId || rows[i].licenceId != rows[j].licenceId
  }

  predicate SeatsWithinTotals(b: Store) {
    forall l | l in b.licences :: SeatsTaken(b.assignments, l) <= b.licences[l].seatsTotal
  }

  predicate RowsReferToTables(b: Store) {
    forall a | a in b.assignments :: a.userId in b.users && a.licenceId in b.licences
  }

  predicate UniqueNames(b: Store) {
    && (forall u, v | u in b.users && v in b.users && b.users[u].email == b.users[v].email :: u == v)
    && (forall l, m | l in b.licences && m in b.licences && b.licences[l].product == b.licences[m].product :: l == m)
  }

  /** What every serial history of service calls and edits keeps true. */
  predicate SoundStore(b: Store) {
    && OneActiveRowPerPair(b.assignments)
    && SeatsWithinTotals(b)
    && RowsReferToTables(b)
    && UniqueNames(b)
    && Audited(b)
  }

  const EMPTY_STORE := Store(map[], map[], [], [])

  lemma EmptyStoreIsSound()
    ensures SoundStore(EMPTY_STORE)
  {
  }

  lemma SeatHoldersAppend(rows: seq<Assignment>, a: Assignment, l: int)
    requires a.Active()
    ensures SeatsTaken(rows + [a], l) == SeatsTaken(rows, l) + if a.licenceId == l then 1 else 0
  {
    var before, after := SeatHolders(rows, l), SeatHolders(rows + [a], l);
    if a.licenceId == l {
      assert after == before + {|rows|};
    } else {
      assert after == before;
    }
  }

  lemma SeatHoldersRevoke(rows: seq<Assignment>, id: nat, revoked: Assignment, l: int)
    requires id < |rows| && rows[id].Active() && !revoked.Active()
    ensures SeatsTaken(rows[id := revoked], l) == SeatsTaken(rows, l) - if rows[id].licenceId == l then 1 else 0
  {
    var before, after := SeatHolders(rows, l), SeatHolders(rows[id := revoked], l);
    assert after == before - {id};
  }

  lemma AssignLicenceKeepsSound(b: Store, u: int, l: int, actor: string)
    requires SoundStore(b)
    requires AssignLicence(b, u, l, actor).Ok?
    ensures SoundStore(AssignLicence(b, u, l, actor).value.1)
  {
    var after := AssignLicence(b, u, l, actor).value.1;
    ReplayAppend(b, after.audit[|b.audit|]);
    forall m | m in b.licences ensures SeatsTaken(after.assignments, m) <= b.licences[m].seatsTotal {
      SeatHoldersAppend(b.assignments, Assignment(u, l, None), m);
    }
  }

  lemma RevokeAssignmentKeepsSound(b: Store, id: int, now: int, actor: string)
    requires SoundStore(b)
    requires RevokeAssignment(b, id, now, actor).Ok?
    ensures SoundStore(RevokeAssignment(b, id, now, actor).value)
  {
    var after := RevokeAssignment(b, id, now, actor).value;
    ReplayAppend(b, after.audit[|b.audit|]);
    assert b.assignments[id] in b.assignments;
    forall m | m in b.licences ensures SeatsTaken(after.assignments, m) <= b.licences[m].seatsTotal {
      SeatHoldersRevoke(b.assignments, id, after.assignments[id], m);
    }
  }

  /** Seat safety and audit replay survive anything a person can do, refused and
      rolled-back requests included. */
  lemma HumanTxKeepsSound(b: Store, step: HumanStep)
    requires SoundStore(b)
    ensures SoundStore(HumanTx(b, step))
  {
    var after := HumanTx(b, step);
    if after != b {
      match step
      case HumanAssign(u, l, actor) => AssignLicenceKeepsSound(b, u, l, actor);
      case HumanRevoke(id, now, actor) => RevokeAssignmentKeepsSound(b, id, now, actor);
      case HumanCreateUser(_, _, _, _) => ReplayAppend(b, after.audit[|b.audit|]);
      case HumanCreateLicence(id, _, _, _, _) =>
        ReplayAppend(b, after.audit[|b.audit|]);
        assert SeatHolders(b.assignments, id) == {} by {
          forall i: nat | i < |b.assignments| ensures b.assignments[i].licenceId != id {
            assert b.assignments[i] in b.assignments;
          }
        }
      case EditPolicy(_, _) =>
      case EditStatus(_, _) =>
    }
  }

  /** In a sound store the seats shown as available are exactly the free ones:
      the clamp at zero is never used. */
  lemma SeatsAvailableIsExact(b: Store, l: int)
    requires SoundStore(b) && l in b.licences
    ensures GetSeatUsage(b, l).Ok?
    ensures GetSeatUsage(b, l).value.Available() == b.licences[l].seatsTotal - SeatsTaken(b.assignments, l)
  {
  }

  /** The ids of a user's rows, active and revoked, in id order. */
  function RowsOfUser(rows: seq<Assignment>, u: int): (ids: seq<nat>)
    ensures forall k | 0 <= k < |ids| :: ids[k] < |rows|
  {
    if rows == [] then []
    else
      var last := |rows| - 1;
      RowsOfUser(rows[..last], u) + if rows[last].userId == u then [last] else []
  }

  /** The listing holds every row of the user, no other, in id order. */
  lemma {:induction false} RowsOfUserIsComplete(rows: seq<Assignment>, u: int)
    ensures forall i: nat :: i in RowsOfUser(rows, u) <==> i < |rows| && rows[i].userId == u
    ensures forall j, k | 0 <= j < k < |RowsOfUser(rows, u)| :: RowsOfUser(rows, u)[j] < RowsOfUser(rows, u)[k]
  {
    if rows != [] {
      RowsOfUserIsComplete(rows[..|rows| - 1], u);
    }
  }

  // --- the services, in place --------------------------------------------------------

  /** The service bound to one session: its fields are the session's view of the
      tables, changed in place until the caller commits or rolls back. */
  class AssignmentService {
    var users: map<int, User>
    var licences: map<int, Licence>
    var assignments: seq<Assignment>
    var audit: seq<AuditEvent>

    constructor (b: Store)
      ensures State() == b
    {
      users, licences, assignments, audit := b.users, b.licences, b.assignments, b.audit;
    }

    function State(): Store
      reads this
    {
      Store(users, licences, assignments, audit)
    }

    method GetActive(u: int, l: int) returns (found: Option<nat>)
      ensures found == ActiveRow(assignments, u, l)
      ensures found.Some? <==> HoldsSeat(assignments, u, l)
      ensures found.Some? ==> found.value < |assignments| && assignments[found.value].ActiveFor(u, l)
    {
      found := None;
      for i := 0 to |assignments|
        invariant found == ActiveRow(assignments[..i], u, l)
      {
        assert assignments[..i + 1][..i] == assignments[..i];
        if found.None? && assignments[i].ActiveFor(u, l) {
          found := Some(i);
        }
      }
      assert assignments[..|assignments|] == assignments;
    }

    method CountActiveForLicence(l: int) returns (n: nat)
      ensures n == SeatsTaken(assignments, l)
    {
      n := 0;
      for i := 0 to |assignments|
        invariant n == SeatsTaken(assignments[..i], l)
      {
        assert assignments[..i + 1] == assignments[..i] + [assignments[i]];
        if assignments[i].Active() {
          SeatHoldersAppend(assignments[..i], assignments[i], l);
        } else {
          assert SeatHolders(assignments[..i + 1], l) == SeatHolders(assignments[..i], l);
        }
        if assignments[i].licenceId == l && assignments[i].Active() {
          n := n + 1;
        }
      }
      assert assignments[..|assignments|] == assignments;
    }

    method ListForUser(u: int) returns (r: Result<seq<nat>, ServiceError>)
      ensures r.Err? <==> u !in users
      ensures r.Err? ==> r.error == UserNotFound
      ensures r.Ok? ==> r.value == RowsOfUser(assignments, u)
    {
      if u !in users {
        return Err(UserNotFound);
      }
      var ids: seq<nat> := [];
      for i := 0 to |assignments|
        invariant ids == RowsOfUser(assignments[..i], u)
      {
        assert assignments[..i + 1][..i] == assignments[..i];
        if assignments[i].userId == u {
          ids := ids + [i];
        }
      }
      assert assignments[..|assignments|] == assignments;
      return Ok(ids);
    }

    method SeatUsageOf(l: int) returns (r: Result<SeatUsage, ServiceError>)
      ensures r == GetSeatUsage(State(), l)
    {
      if l !in licences {
        return Err(LicenceNotFound);
      }
      var active := CountActiveForLicence(l);
      return Ok(SeatUsage(licences[l], active));
    }

    method Assign(u: int, l: int, actor: string) returns (r: Result<nat, ServiceError>)
      modifies this
      ensures match AssignLicence(old(State()), u, l, actor)
              case Ok((id, after)) => r == Ok(id) && State() == after
              case Err(e) => r == Err(e) && State() == old(State())
    {
      var name := ValidatedActor(actor);
      if name.Err? {
        return Err(InvalidInput);
      }
      if u !in users {
        return Err(UserNotFound);
      }
      if users[u].status != Active {
        return Err(UserInactive);
      }
      if l !in licences {
        return Err(LicenceNotFound);
      }
      var held := GetActive(u, l);
      if held.Some? {
        return Err(AssignmentAlreadyExists);
      }
      var used := CountActiveForLicence(l);
      if used >= licences[l].seatsTotal {
        return Err(NoSeatsAvailable);
      }
      var id := |assignments|;
      assignments := assignments + [Assignment(u, l, None)];
      audit := audit + [AuditEvent(name.value, AssignmentCreate, id, None, Some(Assigned(u, l)))];
      return Ok(id);
    }

    method Revoke(id: int, now: int, actor: string) returns (r: Result<nat, ServiceError>)
      modifies this
      ensures match RevokeAssignment(old(State()), id, now, actor)
              case Ok(after) => r == Ok(id) && State() == after
              case Err(e) => r == Err(e) && State() == old(State())
    {
      var name := ValidatedActor(actor);
      if name.Err? {
        return Err(InvalidInput);
      }
      if id < 0 || id >= |assignments| {
        return Err(AssignmentNotFound);
      }
      if !assignments[id].Active() {
        return Err(AssignmentAlreadyRevoked);
      }
      var before := RevocationOf(assignments[id]);
      assignments := assignments[id := assignments[id].(revokedAt := Some(now))];
      audit := audit + [AuditEvent(name.value, AssignmentRevoke, id, Some(before), Some(RevocationOf(assignments[id])))];
      return Ok(id);
    }
  }

  /** `UserService`, bound to one session. */
  class UserService {
    var users: map<int, User>
    var audit: seq<AuditEvent>
    const others: Store

    constructor (b: Store)
      ensures State() == b
    {
      users, audit, others := b.users, b.audit, b;
    }

    function State(): Store
      reads this
    {
      others.(users := users, audit := audit)
    }

    method Get(id: int) returns (r: Result<User, ServiceError>)
      ensures r == if id in users then Ok(users[id]) else Err(UserNotFound)
    {
      return if id in users then Ok(users[id]) else Err(UserNotFound);
    }

    method GetByEmail(email: string) returns (found: Option<int>)
      ensures found.Some? <==> EmailTaken(State(), email)
      ensures found.Some? ==> found.value in users && users[found.value].email == email
    {
      var left := users.Keys;
      found := None;
      while left != {}
        invariant left <= users.Keys
        invariant forall u | u in users && u !in left :: users[u].email != email
        decreases |left|
      {
        assert exists u :: u in left by { assert (forall u :: u !in left) ==> left == {}; }
        var u :| u in left;
        if users[u].email == email {
          return Some(u);
        }
        left := left - {u};
      }
    }

    /** `find_user_by_email`: the query's one row or none; more would be an error. */
    method FindByEmail(email: string) returns (r: Result<Option<int>, ServiceError>)
      ensures match FindUserByEmail(State(), email)
              case Err(e) => r == Err(e)
              case Ok(found) =>
                if |found| > 1 then r == Err(Unexpected("MultipleResultsFound"))
                else r.Ok? && found == if r.value.Some? then {r.value.value} else {}
    {
      var address := ValidatedEmail(email);
      if address.Err? {
        return Err(address.error);
      }
      var left := users.Keys;
      var found: Option<int> := None;
      while left != {}
        invariant left <= users.Keys
        invariant (if found.Some? then {found.value} else {})
               == set u | u in users && u !in left && users[u].email == address.value
        decreases |left|
      {
        assert exists u :: u in left by { assert (forall u :: u !in left) ==> left == {}; }
        var u :| u in left;
        if users[u].email == address.value {
          if found.Some? {
            TwoElements(UsersByEmail(State(), address.value), u, found.value);
            return Err(Unexpected("MultipleResultsFound"));
          }
          found := Some(u);
        }
        left := left - {u};
      }
      assert UsersByEmail(State(), address.value) == if found.Some? then {found.value} else {};
      return Ok(found);
    }

    /** The row is stored under the id the database hands out. */
    method Create(id: int, email: string, name: string, actor: string) returns (r: Result<int, ServiceError>)
      requires id !in users
      modifies this
      ensures match CreateUser(old(State()), id, email, name, actor)
              case Ok(after) => r == Ok(id) && State() == after
              case Err(e) => r == Err(e) && State() == old(State())
    {
      var address := ValidatedEmail(email);
      var fullName := RequiredText(name, NAME_MAX_LENGTH);
      var author := ValidatedActor(actor);
      if address.Err? || fullName.Err? || author.Err? {
        return Err(InvalidInput);
      }
      var held := GetByEmail(address.value);
      if held.Some? {
        return Err(EmailAlreadyExists);
      }
      users := users[id := User(address.value, fullName.value, Active)];
      audit := audit + [AuditEvent(author.value, UserCreate, id, None, Some(UserFields(address.value, fullName.value, Active)))];
      return Ok(id);
    }
  }

  /** `LicenceService`, bound to one session. */
  class LicenceService {
    var licences: map<int, Licence>
    var audit: seq<AuditEvent>
    const others: Store

    constructor (b: Store)
      ensures State() == b
    {
      licences, audit, others := b.licences, b.audit, b;
    }

    function State(): Store
      reads this
    {
      others.(licences := licences, audit := audit)
    }

    method Get(id: int) returns (r: Result<Licence, ServiceError>)
      ensures r == if id in licences then Ok(licences[id]) else Err(LicenceNotFound)
    {
      return if id in licences then Ok(licences[id]) else Err(LicenceNotFound);
    }

    method GetByProduct(product: string) returns (found: Option<int>)
      ensures found.Some? <==> ProductTaken(State(), product)
      ensures found.Some? ==> found.value in licences && licences[found.value].product == product
    {
      var left := licences.Keys;
      found := None;
      while left != {}
        invariant left <= licences.Keys
        invariant forall l | l in licences && l !in left :: licences[l].product != product
        decreases |left|
      {
        assert exists l :: l in left by { assert (forall l :: l !in left) ==> left == {}; }
        var l :| l in left;
        if licences[l].product == product {
          return Some(l);
        }
        left := left - {l};
      }
    }

    /** `list_all`: every licence's id, in id order. */
    method ListAll() returns (ids: seq<int>)
      ensures InOrder(ids, licences.Keys)
    {
      ids := [];
      var left := licences.Keys;
      while left != {}
        invariant left <= licences.Keys
        invariant forall x :: x in ids <==> x in licences.Keys - left
        invariant Ascending(ids)
        invariant forall x, y | x in ids && y in left :: x < y
        decreases |left|
      {
        var l := Least(left);
        AscendsFurther(ids, l);
        ids := ids + [l];
        left := left - {l};
      }
      AscendingIsInOrder(ids, licences.Keys);
    }

    /** `find_licences_by_product`: every licence of that name, ignoring case and
        surrounding space, in id order. */
    method FindByProduct(product: string) returns (r: Result<seq<int>, ServiceError>)
      ensures r == FindLicencesByProduct(State(), product)
    {
      var name := RequiredText(product, PRODUCT_MAX_LENGTH);
      if name.Err? {
        return Err(InvalidInput);
      }
      var wanted := Fold(name.value);
      var all := ListAll();
      var found: seq<int> := [];
      for i := 0 to |all|
        invariant forall x :: x in found <==> x in all[..i] && x in licences && Fold(licences[x].product) == wanted
        invariant Ascending(found)
      {
        assert all[i] in all && all[..i + 1] == all[..i] + [all[i]];
        forall x | x in found ensures x < all[i] {
          assert x in all[..i];
        }
        if Fold(licences[all[i]].product) == wanted {
          AscendsFurther(found, all[i]);
          found := found + [all[i]];
        }
      }
      assert all[..|all|] == all;
      var matches := LicencesByFold(State(), wanted);
      AscendingIsInOrder(found, matches);
      InOrderIsUnique(found, SortedIds(matches), matches);
      return Ok(found);
    }

    /** The row is stored under the id the database hands out. */
    method Create(id: int, product: string, seats: int, policy: Policy, actor: string) returns (r: Result<int, ServiceError>)
      requires id !in licences
      modifies this
      ensures match CreateLicence(old(State()), id, product, seats, policy, actor)
              case Ok(after) => r == Ok(id) && State() == after
              case Err(e) => r == Err(e) && State() == old(State())
    {
      var name := RequiredText(product, PRODUCT_MAX_LENGTH);
      var author := ValidatedActor(actor);
      if name.Err? || author.Err? || seats < 0 || seats > SEATS_TOTAL_MAX {
        return Err(InvalidInput);
      }
      var held := GetByProduct(name.value);
      if held.Some? {
        return Err(ProductAlreadyExists);
      }
      licences := licences[id := Licence(name.value, seats, policy)];
      audit := audit + [AuditEvent(author.value, LicenceCreate, id, None, Some(LicenceFields(name.value, seats, policy)))];
      return Ok(id);
    }
  }
}
