/** The whole database under other user and licence ids, and the proof that no
    service, tool or check can tell the difference. */
module Renaming {
  import opened Basics
  import opened Listings
  import opened Text
  import opened Domain
  import opened AgentRows
  import opened Services
  import opened Resolution
  import opened Tools

  /** Other ids for the same users and licences. */
  datatype Ids = Ids(user: int -> int, licence: int -> int) {
    /** The other ids are ordered as the old ones were. */
    ghost predicate KeepsOrder() {
      forall l, m :: l < m ==> licence(l) < licence(m)
    }

    ghost predicate Injective() {
      && (forall u, v :: user(u) == user(v) ==> u == v)
      && (forall l, m :: licence(l) == licence(m) ==> l == m)
    }

    // --- the application's tables ----------------------------------------------

    function Row(a: Assignment): Assignment {
      a.(userId := user(a.userId), licenceId := licence(a.licenceId))
    }

    function Rows(rows: seq<Assignment>): (t: seq<Assignment>)
      ensures |t| == |rows| && forall i | 0 <= i < |rows| :: t[i] == Row(rows[i])
    {
      seq(|rows|, i requires 0 <= i < |rows| => Row(rows[i]))
    }

    function Fields(s: Snapshot): Snapshot {
      match s
      case Assigned(u, l) => Assigned(user(u), licence(l))
      case Revocation(u, l, at) => Revocation(user(u), licence(l), at)
      case _ => s
    }

    function Optional(s: Option<Snapshot>): Option<Snapshot> {
      match s case None => None case Some(fields) => Some(Fields(fields))
    }

    function Entry(e: AuditEvent): AuditEvent {
      var id := match e.action
        case UserCreate => user(e.entityId)
        case LicenceCreate => licence(e.entityId)
        case _ => e.entityId;
      AuditEvent(e.actor, e.action, id, Optional(e.before), Optional(e.after))
    }

    function Log(audit: seq<AuditEvent>): (t: seq<AuditEvent>)
      ensures |t| == |audit| && forall i | 0 <= i < |audit| :: t[i] == Entry(audit[i])
    {
      seq(|audit|, i requires 0 <= i < |audit| => Entry(audit[i]))
    }

    ghost function Users(m: map<int, User>): map<int, User>
      requires Injective()
    {
      map u | u in m :: user(u) := m[u]
    }

    ghost function Licences(m: map<int, Licence>): map<int, Licence>
      requires Injective()
    {
      map l | l in m :: licence(l) := m[l]
    }

    ghost function Tables(b: Store): Store
      requires Injective()
    {
      Store(Users(b.users), Licences(b.licences), Rows(b.assignments), Log(b.audit))
    }

    // --- the agent's values ------------------------------------------------------

    function OfGoal(g: Goal): Goal {
      g.(userId := user(g.userId), licenceId := licence(g.licenceId))
    }

    function View(v: AssignmentView): AssignmentView {
      v.(userId := user(v.userId), licenceId := licence(v.licenceId))
    }

    function Views(vs: seq<AssignmentView>): (t: seq<AssignmentView>)
      ensures |t| == |vs| && forall i | 0 <= i < |vs| :: t[i] == View(vs[i])
    {
      seq(|vs|, i requires 0 <= i < |vs| => View(vs[i]))
    }

    function Output(o: ToolOutput): ToolOutput {
      match o
      case UserOutput(u, email, name, status) => UserOutput(user(u), email, name, status)
      case CapacityOutput(l, product, total, active, available) =>
        CapacityOutput(licence(l), product, total, active, available)
      case ListOutput(u, rows) => ListOutput(user(u), Views(rows))
      case AssignedOutput(row) => AssignedOutput(View(row))
    }

    function Outcome(o: Result<ToolOutput, ToolError>): Result<ToolOutput, ToolError> {
      match o case Ok(output) => Ok(Output(output)) case Err(e) => Err(e)
    }

    function OfArguments(a: Arguments): Arguments {
      Arguments(if a.userId.Some? then Some(user(a.userId.value)) else None,
                if a.licenceId.Some? then Some(licence(a.licenceId.value)) else None)
    }

    function OfVerdict(v: Verdict): Verdict {
      Verdict(v.satisfied, user(v.userId), licence(v.licenceId), if v.found.Some? then Some(View(v.found.value)) else None)
    }

    function OptionalOutput(o: Option<ToolOutput>): Option<ToolOutput> {
      match o case None => None case Some(output) => Some(Output(output))
    }

    function OfCheck(c: BlockCheck): BlockCheck {
      c.(user := OptionalOutput(c.user), licence := OptionalOutput(c.licence))
    }

    function OptionalCheck(c: Option<BlockCheck>): Option<BlockCheck> {
      match c case None => None case Some(check) => Some(OfCheck(check))
    }

    function OfDetail(d: Detail): Detail {
      match d
      case VerdictDetail(verdict, rejection, check) => VerdictDetail(OfVerdict(verdict), rejection, OptionalCheck(check))
      case _ => d
    }

    function OfResolution(r: Resolution): Resolution {
      match r
      case ResolvedTo(goal) => ResolvedTo(OfGoal(goal))
      case Unresolved(code, detail) => Unresolved(code, OfDetail(detail))
    }

    function OfStep(step: HumanStep): HumanStep {
      match step
      case HumanAssign(u, l, actor) => HumanAssign(user(u), licence(l), actor)
      case HumanRevoke(id, now, actor) => step
      case HumanCreateUser(id, email, name, actor) => HumanCreateUser(user(id), email, name, actor)
      case HumanCreateLicence(id, product, seats, policy, actor) =>
        HumanCreateLicence(licence(id), product, seats, policy, actor)
      case EditPolicy(l, policy) => EditPolicy(licence(l), policy)
      case EditStatus(u, status) => EditStatus(user(u), status)
    }
  }

  // --- queries ------------------------------------------------------------------------

  lemma UsersKeep(ids: Ids, m: map<int, User>, u: int)
    requires ids.Injective()
    ensures ids.user(u) in ids.Users(m) <==> u in m
    ensures u in m ==> ids.Users(m)[ids.user(u)] == m[u]
  {
  }

  lemma LicencesKeep(ids: Ids, m: map<int, Licence>, l: int)
    requires ids.Injective()
    ensures ids.licence(l) in ids.Licences(m) <==> l in m
    ensures l in m ==> ids.Licences(m)[ids.licence(l)] == m[l]
  {
  }

  lemma SameSeats(ids: Ids, rows: seq<Assignment>, u: int, l: int)
    requires ids.Injective()
    ensures SeatsTaken(ids.Rows(rows), ids.licence(l)) == SeatsTaken(rows, l)
    ensures HoldsSeat(ids.Rows(rows), ids.user(u), ids.licence(l)) <==> HoldsSeat(rows, u, l)
  {
    assert SeatHolders(ids.Rows(rows), ids.licence(l)) == SeatHolders(rows, l);
    if HoldsSeat(rows, u, l) {
      var i :| 0 <= i < |rows| && rows[i].ActiveFor(u, l);
      assert ids.Rows(rows)[i].ActiveFor(ids.user(u), ids.licence(l));
    }
  }

  lemma {:induction false} SameRowsOfUser(ids: Ids, rows: seq<Assignment>, u: int)
    requires ids.Injective()
    ensures RowsOfUser(ids.Rows(rows), ids.user(u)) == RowsOfUser(rows, u)
  {
    if rows != [] {
      var last := |rows| - 1;
      SameRowsOfUser(ids, rows[..last], u);
      assert ids.Rows(rows)[..last] == ids.Rows(rows[..last]);
    }
  }

  lemma {:induction false} SameActiveRow(ids: Ids, rows: seq<Assignment>, u: int, l: int)
    requires ids.Injective()
    ensures ActiveRow(ids.Rows(rows), ids.user(u), ids.licence(l)) == ActiveRow(rows, u, l)
  {
    if rows != [] {
      var last := |rows| - 1;
      SameActiveRow(ids, rows[..last], u, l);
      assert ids.Rows(rows)[..last] == ids.Rows(rows[..last]);
    }
  }

  lemma SameNamesTaken(ids: Ids, b: Store, email: string, product: string)
    requires ids.Injective()
    ensures EmailTaken(ids.Tables(b), email) <==> EmailTaken(b, email)
    ensures ProductTaken(ids.Tables(b), product) <==> ProductTaken(b, product)
  {
    if EmailTaken(b, email) {
      var u :| u in b.users && b.users[u].email == email;
      assert ids.user(u) in ids.Users(b.users);
    }
    if ProductTaken(b, product) {
      var l :| l in b.licences && b.licences[l].product == product;
      assert ids.licence(l) in ids.Licences(b.licences);
    }
  }

  // --- services --------------------------------------------------------------------------

  ghost function Changed(ids: Ids, r: Result<Store, ServiceError>): Result<Store, ServiceError>
    requires ids.Injective()
  {
    match r case Ok(after) => Ok(ids.Tables(after)) case Err(e) => Err(e)
  }

  lemma SameAssign(ids: Ids, b: Store, u: int, l: int, actor: string)
    requires ids.Injective()
    ensures AssignLicence(ids.Tables(b), ids.user(u), ids.licence(l), actor) ==
      match AssignLicence(b, u, l, actor) case Ok((id, after)) => Ok((id, ids.Tables(after))) case Err(e) => Err(e)
  {
    hide SeatsTaken, HoldsSeat, ValidatedActor, Ids.Injective, Ids.Users, Ids.Licences;
    UsersKeep(ids, b.users, u);
    LicencesKeep(ids, b.licences, l);
    SameSeats(ids, b.assignments, u, l);
    match AssignLicence(b, u, l, actor)
    case Ok((id, after)) =>
      assert ids.Rows(after.assignments) == ids.Rows(b.assignments) + [Assignment(ids.user(u), ids.licence(l), None)];
      var event := after.audit[|b.audit|];
      assert ids.Log(after.audit) == ids.Log(b.audit) + [ids.Entry(event)];
    case Err(_) =>
  }

  lemma SameRevoke(ids: Ids, b: Store, id: int, now: int, actor: string)
    requires ids.Injective()
    ensures RevokeAssignment(ids.Tables(b), id, now, actor) == Changed(ids, RevokeAssignment(b, id, now, actor))
  {
    hide ValidatedActor, Ids.Injective, Ids.Users, Ids.Licences;
    match RevokeAssignment(b, id, now, actor)
    case Ok(after) =>
      assert ids.Rows(after.assignments) == ids.Rows(b.assignments)[id := ids.Row(after.assignments[id])];
      var event := after.audit[|b.audit|];
      assert ids.Log(after.audit) == ids.Log(b.audit) + [ids.Entry(event)];
    case Err(_) =>
  }

  lemma SameCreateUser(ids: Ids, b: Store, id: int, email: string, name: string, actor: string)
    requires ids.Injective() && id !in b.users
    ensures ids.user(id) !in ids.Tables(b).users
    ensures CreateUser(ids.Tables(b), ids.user(id), email, name, actor) == Changed(ids, CreateUser(b, id, email, name, actor))
  {
    hide ValidatedEmail, RequiredText, ValidatedActor, EmailTaken, Ids.Injective, Ids.Users, Ids.Licences;
    UsersKeep(ids, b.users, id);
    if ValidatedEmail(email).Ok? {
      SameNamesTaken(ids, b, ValidatedEmail(email).value, "");
    }
    match CreateUser(b, id, email, name, actor)
    case Ok(after) =>
      PutUser(ids, b.users, id, after.users[id]);
      assert ids.Log(after.audit) == ids.Log(b.audit) + [ids.Entry(after.audit[|b.audit|])];
    case Err(_) =>
  }

  lemma SameCreateLicence(ids: Ids, b: Store, id: int, product: string, seats: int, policy: Policy, actor: string)
    requires ids.Injective() && id !in b.licences
    ensures ids.licence(id) !in ids.Tables(b).licences
    ensures CreateLicence(ids.Tables(b), ids.licence(id), product, seats, policy, actor)
         == Changed(ids, CreateLicence(b, id, product, seats, policy, actor))
  {
    hide RequiredText, ValidatedActor, ProductTaken, Ids.Injective, Ids.Users, Ids.Licences;
    LicencesKeep(ids, b.licences, id);
    if RequiredText(product, PRODUCT_MAX_LENGTH).Ok? {
      SameNamesTaken(ids, b, "", RequiredText(product, PRODUCT_MAX_LENGTH).value);
    }
    match CreateLicence(b, id, product, seats, policy, actor)
    case Ok(after) =>
      PutLicence(ids, b.licences, id, after.licences[id]);
      assert ids.Log(after.audit) == ids.Log(b.audit) + [ids.Entry(after.audit[|b.audit|])];
    case Err(_) =>
  }

  lemma UserAt(ids: Ids, m: map<int, User>, v: int)
    requires ids.Injective()
    ensures v in ids.Users(m) <==> exists u :: u in m && ids.user(u) == v
    ensures forall u | u in m && ids.user(u) == v :: ids.Users(m)[v] == m[u]
  {
  }

  lemma LicenceAt(ids: Ids, m: map<int, Licence>, v: int)
    requires ids.Injective()
    ensures v in ids.Licences(m) <==> exists l :: l in m && ids.licence(l) == v
    ensures forall l | l in m && ids.licence(l) == v :: ids.Licences(m)[v] == m[l]
  {
  }

  lemma PutUser(ids: Ids, m: map<int, User>, id: int, user: User)
    requires ids.Injective()
    ensures ids.Users(m[id := user]) == ids.Users(m)[ids.user(id) := user]
  {
    hide Ids.Users;
    var put, renamed := m[id := user], ids.Users(m)[ids.user(id) := user];
    forall v ensures v in ids.Users(put) <==> v in renamed
      ensures v in renamed ==> ids.Users(put)[v] == renamed[v]
    {
      UserAt(ids, put, v);
      UserAt(ids, m, v);
      assert id in put && put[id] == user;
    }
  }

  lemma PutLicence(ids: Ids, m: map<int, Licence>, id: int, row: Licence)
    requires ids.Injective()
    ensures ids.Licences(m[id := row]) == ids.Licences(m)[ids.licence(id) := row]
  {
    hide Ids.Licences;
    var put, renamed := m[id := row], ids.Licences(m)[ids.licence(id) := row];
    forall v ensures v in ids.Licences(put) <==> v in renamed
      ensures v in renamed ==> ids.Licences(put)[v] == renamed[v]
    {
      LicenceAt(ids, put, v);
      LicenceAt(ids, m, v);
      assert id in put && put[id] == row;
    }
  }

  /** A person's step on renamed rows changes the renamed tables alike. */
  lemma SameHumanTx(ids: Ids, b: Store, step: HumanStep)
    requires ids.Injective()
    ensures HumanTx(ids.Tables(b), ids.OfStep(step)) == ids.Tables(HumanTx(b, step))
  {
    hide AssignLicence, RevokeAssignment, CreateUser, CreateLicence, Reserved, Ids.Injective, Ids.Users, Ids.Licences;
    match step
    case HumanAssign(u, l, actor) => SameAssign(ids, b, u, l, actor);
    case HumanRevoke(id, now, actor) => SameRevoke(ids, b, id, now, actor);
    case HumanCreateUser(id, email, name, actor) =>
      UsersKeep(ids, b.users, id);
      if id !in b.users { SameCreateUser(ids, b, id, email, name, actor); }
    case HumanCreateLicence(id, product, seats, policy, actor) =>
      LicencesKeep(ids, b.licences, id);
      if id !in b.licences { SameCreateLicence(ids, b, id, product, seats, policy, actor); }
    case EditPolicy(l, policy) =>
      LicencesKeep(ids, b.licences, l);
      if l in b.licences { PutLicence(ids, b.licences, l, b.licences[l].(policy := policy)); }
    case EditStatus(u, status) =>
      UsersKeep(ids, b.users, u);
      if u in b.users { PutUser(ids, b.users, u, b.users[u].(status := status)); }
  }

  // --- resolution ----------------------------------------------------------------------------

  lemma {:induction false} ImageHasSameSize(s: set<int>, t: set<int>, f: int -> int)
    requires forall x, y | x in s && y in s && f(x) == f(y) :: x == y
    requires forall x | x in s :: f(x) in t
    requires forall y | y in t :: exists x :: x in s && f(x) == y
    ensures |s| == |t|
    decreases s
  {
    if |t| > 0 {
      HasElement(t);
    }
    if |s| > 0 {
      HasElement(s);
      var x :| x in s;
      ImageHasSameSize(s - {x}, t - {f(x)}, f);
    }
  }

  lemma SameUsersByEmail(ids: Ids, b: Store, email: string)
    requires ids.Injective()
    ensures |UsersByEmail(ids.Tables(b), email)| == |UsersByEmail(b, email)|
    ensures forall u :: ids.user(u) in UsersByEmail(ids.Tables(b), email) <==> u in UsersByEmail(b, email)
  {
    hide Ids.Users, Ids.Licences, Ids.Rows, Ids.Log;
    var s, t := UsersByEmail(b, email), UsersByEmail(ids.Tables(b), email);
    forall u ensures ids.user(u) in t <==> u in s {
      UsersKeep(ids, b.users, u);
    }
    forall v | v in t ensures exists u :: u in s && ids.user(u) == v {
      UserAt(ids, b.users, v);
    }
    ImageHasSameSize(s, t, ids.user);
  }

  lemma SameLicencesByFold(ids: Ids, b: Store, wanted: string)
    requires ids.Injective()
    ensures var (s, t) := (LicencesByFold(b, wanted), LicencesByFold(ids.Tables(b), wanted));
      && (forall l :: ids.licence(l) in t <==> l in s)
      && (forall v | v in t :: exists l :: l in s && ids.licence(l) == v)
  {
    hide Ids.Users, Ids.Licences, Ids.Rows, Ids.Log, Ids.Injective;
    var s, t := LicencesByFold(b, wanted), LicencesByFold(ids.Tables(b), wanted);
    forall l ensures ids.licence(l) in t <==> l in s {
      LicencesKeep(ids, b.licences, l);
    }
    forall v | v in t ensures exists l :: l in s && ids.licence(l) == v {
      LicenceAt(ids, b.licences, v);
      var l :| l in b.licences && ids.licence(l) == v;
      LicencesKeep(ids, b.licences, l);
    }
  }

  // The candidates of an ambiguous product are listed in id order, so their list
  // is the one thing in the database that other ids can rearrange.

  function Mapped(f: int -> int, listed: seq<int>): (t: seq<int>)
    ensures |t| == |listed| && forall i | 0 <= i < |listed| :: t[i] == f(listed[i])
  {
    seq(|listed|, i requires 0 <= i < |listed| => f(listed[i]))
  }

  predicate Distinct(t: seq<int>) {
    forall i, j | 0 <= i < j < |t| :: t[i] != t[j]
  }

  lemma ProductsOfBoth(b: Store, t: seq<int>, u: seq<int>)
    requires AllListed(b, t) && AllListed(b, u)
    ensures AllListed(b, t + u) && ProductsOf(b, t + u) == ProductsOf(b, t) + ProductsOf(b, u)
  {
  }

  lemma ProductsAround(b: Store, u: seq<int>, k: nat)
    requires AllListed(b, u) && k < |u|
    ensures AllListed(b, u[..k] + u[k + 1..])
    ensures multiset(ProductsOf(b, u))
         == multiset(ProductsOf(b, u[..k] + u[k + 1..])) + multiset{b.licences[u[k]].product}
  {
    var before, after := u[..k], u[k + 1..];
    hide ProductsOf;
    assert u == (before + [u[k]]) + after && ProductsOf(b, [u[k]]) == [b.licences[u[k]].product];
    ProductsOfBoth(b, before, [u[k]]);
    ProductsOfBoth(b, before + [u[k]], after);
    ProductsOfBoth(b, before, after);
  }

  /** Two lists of the same ids, none twice, list the same products, in some order. */
  lemma {:induction false} SameProducts(b: Store, t: seq<int>, u: seq<int>)
    requires Distinct(t) && Distinct(u) && AllListed(b, t) && AllListed(b, u)
    requires forall x :: x in t <==> x in u
    ensures |t| == |u| && multiset(ProductsOf(b, t)) == multiset(ProductsOf(b, u))
    decreases |t|
  {
    hide ProductsOf, Distinct, AllListed;
    if u != [] {
      var x := u[0];
      assert x in u;
      assert t != [];
    }
    if t == [] {
      assert u == t;
    } else {
      var x := t[0];
      assert x in t;
      assert x in u;
      var k :| 0 <= k < |u| && u[k] == t[0];
      RemoveAt(u, k);
      RemoveAt(t, 0);
      ProductsAround(b, u, k);
      ProductsAround(b, t, 0);
      SameProducts(b, t[..0] + t[1..], u[..k] + u[k + 1..]);
    }
  }

  lemma RemoveAt(t: seq<int>, k: nat)
    requires Distinct(t) && k < |t|
    ensures var rest := t[..k] + t[k + 1..];
      && Distinct(rest) && |rest| == |t| - 1 && (forall x :: x in rest <==> x in t && x != t[k])
      && forall i | 0 <= i < |rest| :: rest[i] in t
  {
    var rest := t[..k] + t[k + 1..];
    assert forall i | 0 <= i < |rest| :: rest[i] == if i < k then t[i] else t[i + 1];
    forall x | x in t && x != t[k] ensures x in rest {
      var i :| 0 <= i < |t| && t[i] == x;
      assert rest[if i < k then i else i - 1] == x;
    }
  }

  /** The other ids of a set's ids, in the order of the old ones, are a list of
      the other set without repetition. */
  lemma MappedIsDistinct(ids: Ids, s: set<int>, t: set<int>)
    requires ids.Injective()
    requires forall l :: ids.licence(l) in t <==> l in s
    requires forall v | v in t :: exists l :: l in s && ids.licence(l) == v
    ensures var mapped := Mapped(ids.licence, SortedIds(s));
      Distinct(mapped) && |s| == |t| && forall v :: v in mapped <==> v in t
  {
    hide SortedIds;
    var listed := SortedIds(s);
    var mapped := Mapped(ids.licence, listed);
    ImageHasSameSize(s, t, ids.licence);
    forall v ensures v in mapped <==> v in t {
      if v in mapped {
        var i :| 0 <= i < |mapped| && mapped[i] == v;
        assert listed[i] in listed;
      }
      if v in t {
        var l :| l in s && ids.licence(l) == v;
        var i :| 0 <= i < |listed| && listed[i] == l;
        assert mapped[i] == v;
      }
    }
  }

  /** The listing of a set's products, and that of the other set under the other ids. */
  lemma SameCandidates(ids: Ids, b: Store, wanted: string)
    requires ids.Injective()
    ensures var (s, t) := (SortedIds(LicencesByFold(b, wanted)), SortedIds(LicencesByFold(ids.Tables(b), wanted)));
      && AllListed(b, s) && AllListed(ids.Tables(b), t) && |s| == |t|
      && multiset(ProductsOf(ids.Tables(b), t)) == multiset(ProductsOf(b, s))
  {
    hide SortedIds, LicencesByFold, Ids.Users, Ids.Licences, Ids.Rows, Ids.Log, Ids.Injective, ProductsOf;
    var s, t := LicencesByFold(b, wanted), LicencesByFold(ids.Tables(b), wanted);
    var listed, other := SortedIds(s), SortedIds(t);
    MatchesAreListed(b, wanted);
    MatchesAreListed(ids.Tables(b), wanted);
    SameLicencesByFold(ids, b, wanted);
    MappedIsDistinct(ids, s, t);
    var mapped := Mapped(ids.licence, listed);
    MappedProducts(ids, b, listed);
    SameProducts(ids.Tables(b), mapped, other);
  }

  lemma MappedProducts(ids: Ids, b: Store, listed: seq<int>)
    requires ids.Injective() && AllListed(b, listed)
    ensures AllListed(ids.Tables(b), Mapped(ids.licence, listed))
    ensures ProductsOf(ids.Tables(b), Mapped(ids.licence, listed)) == ProductsOf(b, listed)
  {
    hide Ids.Users, Ids.Licences, Ids.Rows, Ids.Log, Ids.Injective;
    forall i | 0 <= i < |listed|
      ensures ids.licence(listed[i]) in ids.Licences(b.licences)
      ensures ids.Licences(b.licences)[ids.licence(listed[i])] == b.licences[listed[i]]
    {
      LicencesKeep(ids, b.licences, listed[i]);
    }
  }

  /** Whether the other ids of these rows are ordered as the old ones. */
  ghost predicate OrderKept(ids: Ids, s: set<int>) {
    forall l, m | l in s && m in s && l < m :: ids.licence(l) < ids.licence(m)
  }

  /** The candidates are listed alike if and only if the renaming keeps the
      order of the matching ids. */
  lemma CandidatesKeptIffOrderKept(ids: Ids, b: Store, wanted: string)
    requires ids.Injective() && UniqueNames(b)
    ensures var (s, t) := (SortedIds(LicencesByFold(b, wanted)), SortedIds(LicencesByFold(ids.Tables(b), wanted)));
      && AllListed(b, s) && AllListed(ids.Tables(b), t)
      && (ProductsOf(ids.Tables(b), t) == ProductsOf(b, s) <==> OrderKept(ids, LicencesByFold(b, wanted)))
  {
    hide SortedIds, LicencesByFold, Ids.Users, Ids.Licences, Ids.Rows, Ids.Log, Ids.Injective, UniqueNames;
    var s, t := LicencesByFold(b, wanted), LicencesByFold(ids.Tables(b), wanted);
    var listed, other := SortedIds(s), SortedIds(t);
    var mapped := Mapped(ids.licence, listed);
    MatchesAreListed(b, wanted);
    MatchesAreListed(ids.Tables(b), wanted);
    SameLicencesByFold(ids, b, wanted);
    MappedIsDistinct(ids, s, t);
    MappedProducts(ids, b, listed);
    MappedInOrder(ids, s, t);
    if OrderKept(ids, s) {
      InOrderIsUnique(mapped, other, t);
    }
    if ProductsOf(ids.Tables(b), other) == ProductsOf(b, listed) {
      SameProductsSameIds(ids, b, listed, other);
    }
  }

  lemma MappedInOrder(ids: Ids, s: set<int>, t: set<int>)
    requires var mapped := Mapped(ids.licence, SortedIds(s)); |s| == |t| && forall v :: v in mapped <==> v in t
    ensures OrderKept(ids, s) <==> InOrder(Mapped(ids.licence, SortedIds(s)), t)
  {
    hide SortedIds;
    var listed := SortedIds(s);
    var mapped := Mapped(ids.licence, listed);
    forall i, j | 0 <= i < j < |listed| ensures OrderKept(ids, s) ==> mapped[i] < mapped[j] {
      assert listed[i] in listed && listed[j] in listed && listed[i] < listed[j];
    }
    if InOrder(mapped, t) {
      forall l, m | l in s && m in s && l < m ensures ids.licence(l) < ids.licence(m) {
        var i :| 0 <= i < |listed| && listed[i] == l;
        var j :| 0 <= j < |listed| && listed[j] == m;
        assert i < j;
        assert mapped[i] < mapped[j];
      }
    }
  }

  /** Product names are unique, so the same names in the same places are the same rows. */
  lemma SameProductsSameIds(ids: Ids, b: Store, listed: seq<int>, other: seq<int>)
    requires ids.Injective() && UniqueNames(b) && AllListed(b, listed) && AllListed(ids.Tables(b), other)
    requires ProductsOf(ids.Tables(b), other) == ProductsOf(b, listed)
    ensures other == Mapped(ids.licence, listed)
  {
    hide Ids.Users, Ids.Licences, Ids.Rows, Ids.Log, Ids.Injective;
    var p, q := ProductsOf(b, listed), ProductsOf(ids.Tables(b), other);
    assert |listed| == |p| == |q| == |other|;
    forall i | 0 <= i < |other| ensures other[i] == ids.licence(listed[i]) {
      LicenceAt(ids, b.licences, other[i]);
      var l :| l in b.licences && ids.licence(l) == other[i];
      assert b.licences[l].product == q[i] == p[i] == b.licences[listed[i]].product;
      assert l in b.licences && listed[i] in b.licences;
      assert l == listed[i];
    }
  }

  // --- resolution under other ids ----------------------------------------------------------------

  /** The same detail, but that an ambiguous product's candidates may be listed
      in another order. */
  predicate Reordered(d: Detail, same: Detail) {
    if d.AmbiguousDetail? then
      same.AmbiguousDetail? && same.product == d.product && multiset(same.candidates) == multiset(d.candidates)
    else same == d
  }

  predicate ResolutionReordered(r: Resolution, same: Resolution) {
    match (r, same)
    case (ResolvedTo(goal), ResolvedTo(other)) => other == goal
    case (Unresolved(code, detail), Unresolved(otherCode, other)) => otherCode == code && Reordered(detail, other)
    case _ => false
  }

  /** Resolution under other ids finds the renamed rows, or fails with the same
      code and detail, ambiguous candidates in some order. */
  lemma SameResolve(ids: Ids, b: Store, email: string, product: string)
    requires ids.Injective()
    ensures match Resolve(b, email, product)
            case Err(e) => Resolve(ids.Tables(b), email, product) == Err(e)
            case Ok(found) =>
              && Resolve(ids.Tables(b), email, product).Ok?
              && ResolutionReordered(ids.OfResolution(found), Resolve(ids.Tables(b), email, product).value)
  {
    hide ValidatedEmail, RequiredText, Fold, UsersByEmail, LicencesByFold, SortedIds, InOrder, ProductsOf, AllListed, Ids.Tables;
    if ValidatedEmail(email).Ok? {
      SameUser(ids, b, ValidatedEmail(email).value);
    }
    if RequiredText(product, PRODUCT_MAX_LENGTH).Ok? {
      var wanted := Fold(RequiredText(product, PRODUCT_MAX_LENGTH).value);
      SameLicence(ids, b, wanted);
      SameCandidates(ids, b, wanted);
    }
  }

  lemma SameUser(ids: Ids, b: Store, email: string)
    requires ids.Injective()
    ensures var (users, others) := (UsersByEmail(b, email), UsersByEmail(ids.Tables(b), email));
      |users| == |others| && (|users| == 1 ==> TheOnly(others) == ids.user(TheOnly(users)))
  {
    hide UsersByEmail, Ids.Tables, Ids.Injective;
    SameUsersByEmail(ids, b, email);
    var users, others := UsersByEmail(b, email), UsersByEmail(ids.Tables(b), email);
    if |users| == 1 {
      assert TheOnly(users) in users && ids.user(TheOnly(users)) in others;
    }
  }

  lemma SameLicence(ids: Ids, b: Store, wanted: string)
    requires ids.Injective()
    ensures var (s, t) := (SortedIds(LicencesByFold(b, wanted)), SortedIds(LicencesByFold(ids.Tables(b), wanted)));
      |s| == |t| && (|s| == 1 ==> t[0] == ids.licence(s[0]))
  {
    hide LicencesByFold, Ids.Tables, Ids.Injective, SortedIds;
    SameLicencesByFold(ids, b, wanted);
    var s, t := LicencesByFold(b, wanted), LicencesByFold(ids.Tables(b), wanted);
    MappedIsDistinct(ids, s, t);
    if |s| == 1 {
      assert SortedIds(s)[0] in SortedIds(s);
      OneElement(t);
      assert SortedIds(t)[0] in SortedIds(t);
    }
  }

  /** Under ids that keep the order of the old ones, resolution is exactly the
      renamed one. */
  lemma SameResolveInOrder(ids: Ids, b: Store, email: string, product: string)
    requires ids.Injective() && ids.KeepsOrder()
    ensures Resolve(ids.Tables(b), email, product) ==
      match Resolve(b, email, product) case Ok(found) => Ok(ids.OfResolution(found)) case Err(e) => Err(e)
  {
    hide ValidatedEmail, RequiredText, Fold, UsersByEmail, LicencesByFold, SortedIds, InOrder, ProductsOf, AllListed;
    hide Ids.Tables, Ids.Injective, Ids.KeepsOrder;
    if ValidatedEmail(email).Ok? {
      SameUser(ids, b, ValidatedEmail(email).value);
    }
    if RequiredText(product, PRODUCT_MAX_LENGTH).Ok? {
      var wanted := Fold(RequiredText(product, PRODUCT_MAX_LENGTH).value);
      SameLicence(ids, b, wanted);
      SameCandidatesInOrder(ids, b, wanted);
    }
  }

  lemma SameCandidatesInOrder(ids: Ids, b: Store, wanted: string)
    requires ids.Injective() && ids.KeepsOrder()
    ensures var (s, t) := (SortedIds(LicencesByFold(b, wanted)), SortedIds(LicencesByFold(ids.Tables(b), wanted)));
      AllListed(b, s) && AllListed(ids.Tables(b), t) && ProductsOf(ids.Tables(b), t) == ProductsOf(b, s)
  {
    hide SortedIds, LicencesByFold, Ids.Tables, Ids.Injective, ProductsOf;
    var s, t := LicencesByFold(b, wanted), LicencesByFold(ids.Tables(b), wanted);
    MatchesAreListed(b, wanted);
    MatchesAreListed(ids.Tables(b), wanted);
    SameLicencesByFold(ids, b, wanted);
    MappedIsDistinct(ids, s, t);
    MappedProducts(ids, b, SortedIds(s));
    MappedInOrder(ids, s, t);
    InOrderIsUnique(Mapped(ids.licence, SortedIds(s)), SortedIds(t), t);
  }

  // --- tools, policy and verification ------------------------------------------------------------

  lemma SameViews(ids: Ids, rows: seq<Assignment>, positions: seq<nat>)
    requires forall k | 0 <= k < |positions| :: positions[k] < |rows|
    ensures ViewsOf(ids.Rows(rows), positions) == ids.Views(ViewsOf(rows, positions))
  {
  }

  lemma SameTool(ids: Ids, b: Store, tool: Tool, goal: Goal, run: nat)
    requires ids.Injective()
    ensures RunTool(ids.Tables(b), tool, ids.OfGoal(goal), run) ==
      match RunTool(b, tool, goal, run) case Ok((output, after)) => Ok((ids.Output(output), ids.Tables(after))) case Err(e) => Err(e)
  {
    hide AssignLicence, SeatsTaken, AgentRunActor, RowsOfUser, Ids.Injective, Ids.Users, Ids.Licences;
    UsersKeep(ids, b.users, goal.userId);
    LicencesKeep(ids, b.licences, goal.licenceId);
    match tool
    case GetUser =>
    case GetCapacity => SameSeats(ids, b.assignments, goal.userId, goal.licenceId);
    case ListAssignments =>
      SameRowsOfUser(ids, b.assignments, goal.userId);
      SameViews(ids, b.assignments, RowsOfUser(b.assignments, goal.userId));
    case AssignSeat =>
      if AgentRunActor(run).Ok? {
        SameAssign(ids, b, goal.userId, goal.licenceId, AgentRunActor(run).value);
        AssignedIsRow(b, goal, AgentRunActor(run).value);
      }
  }

  lemma AssignedIsRow(b: Store, goal: Goal, actor: string)
    ensures var r := AssignLicence(b, goal.userId, goal.licenceId, actor);
      r.Ok? ==> r.value.0 < |r.value.1.assignments|
  {
  }

  /** What the model is shown does not depend on any id. */
  lemma SameObservation(ids: Ids, tool: Tool, goal: Goal, outcome: Result<ToolOutput, ToolError>)
    requires ids.Injective()
    ensures Observe(tool, ids.OfGoal(goal), ids.Outcome(outcome)) == Observe(tool, goal, outcome)
  {
    if outcome.Ok? && outcome.value.ListOutput? {
      var rows := outcome.value.rows;
      if v :| v in rows && v.active && v.licenceId == goal.licenceId {
        var i :| 0 <= i < |rows| && rows[i] == v;
        assert ids.Views(rows)[i] in ids.Views(rows);
      }
    }
  }

  lemma SamePolicy(ids: Ids, b: Store, tool: Tool, goal: Goal)
    requires ids.Injective()
    ensures Evaluate(ids.Tables(b), tool, ids.OfGoal(goal)) == Evaluate(b, tool, goal)
  {
    LicencesKeep(ids, b.licences, goal.licenceId);
  }

  lemma SameVerdict(ids: Ids, b: Store, goal: Goal)
    requires ids.Injective()
    ensures Verify(ids.Tables(b), ids.OfGoal(goal)) == ids.OfVerdict(Verify(b, goal))
  {
    SameActiveRow(ids, b.assignments, goal.userId, goal.licenceId);
  }

  lemma SameCheck(ids: Ids, b: Store, goal: Goal, claim: CannotProceedReason)
    requires ids.Injective()
    ensures CheckBlock(ids.Tables(b), ids.OfGoal(goal), claim) ==
      match CheckBlock(b, goal, claim) case Ok(check) => Ok(ids.OfCheck(check)) case Err(e) => Err(e)
  {
    hide SeatsTaken, Ids.Injective, Ids.Users, Ids.Licences;
    UsersKeep(ids, b.users, goal.userId);
    LicencesKeep(ids, b.licences, goal.licenceId);
    SameSeats(ids, b.assignments, goal.userId, goal.licenceId);
  }
}
