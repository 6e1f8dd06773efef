/** From extracted text to row ids: grounding in the instruction, then
    deterministic resolution against committed state. */
module Resolution {
  import opened Basics
  import opened Listings
  import opened Text
  import opened Domain
  import opened AgentRows
  import opened Services

  // --- grounding --------------------------------------------------------------

  predicate Grounded(value: string, instruction: string) {
    Strip(value) != [] && Occurs(Fold(Strip(value)), Fold(instruction))
  }

  /** The text stands at this place of the instruction, letter by letter,
      capitals or not. */
  predicate CopiedAt(text: string, instruction: string, i: nat) {
    && i + |text| <= |instruction|
    && forall k | 0 <= k < |text| :: FoldChar(instruction[i + k]) == FoldChar(text[k])
  }

  lemma FoldedStandsWhereCopied(text: string, instruction: string, i: nat)
    requires i + |text| <= |instruction|
    ensures StandsAt(Fold(text), Fold(instruction), i) <==> CopiedAt(text, instruction, i)
  {
    var (part, whole) := (Fold(text), Fold(instruction));
    if StandsAt(part, whole, i) {
      forall k | 0 <= k < |text| ensures FoldChar(instruction[i + k]) == FoldChar(text[k]) {
        assert whole[i..i + |part|][k] == part[k];
      }
    }
    if CopiedAt(text, instruction, i) {
      assert whole[i..i + |part|] == part;
    }
  }

  /** A text is grounded exactly when it is not blank and, stripped, was copied
      from somewhere in the instruction. */
  lemma GroundedExactlyWhenCopied(value: string, instruction: string)
    ensures Grounded(value, instruction) <==> Strip(value) != [] && exists i :: CopiedAt(Strip(value), instruction, i)
  {
    hide CopiedAt, Strip, StandsAt;
    var text := Strip(value);
    var (part, whole) := (Fold(text), Fold(instruction));
    if Occurs(part, whole) {
      var i: nat :| i + |part| <= |whole| && StandsAt(part, whole, i);
      FoldedStandsWhereCopied(text, instruction, i);
    }
    if i: nat :| CopiedAt(text, instruction, i) {
      CopiedFits(text, instruction, i);
      FoldedStandsWhereCopied(text, instruction, i);
    }
  }

  lemma CopiedFits(text: string, instruction: string, i: nat)
    requires CopiedAt(text, instruction, i)
    ensures i + |text| <= |instruction|
  {
  }

  function UngroundedFields(email: string, product: string, instruction: string): seq<Field> {
    (if Grounded(email, instruction) then [] else [FieldUserEmail])
    + if Grounded(product, instruction) then [] else [FieldProduct]
  }

  // --- resolution -------------------------------------------------------------------

  datatype Resolution = ResolvedTo(goal: Goal) | Unresolved(code: Reason, detail: Detail)

  /** `resolve_assignment_goal`. The query for a user returns one row or none:
      more than one would be an error, which a unique email rules out. */
  function Resolve(b: Store, email: string, product: string): Result<Resolution, ServiceError> {
    match FindUserByEmail(b, email)
    case Err(_) => Ok(Unresolved(InvalidRequest, InputDetail))
    case Ok(users) =>
      if |users| > 1 then Err(Unexpected("MultipleResultsFound"))
      else match FindLicencesByProduct(b, product)
        case Err(_) => Ok(Unresolved(InvalidRequest, InputDetail))
        case Ok(matches) =>
          if |users| == 0 then Ok(Unresolved(UnknownUser, UserDetail(email)))
          else if |matches| == 0 then Ok(Unresolved(UnknownLicence, LicenceDetail(product)))
          else if |matches| > 1 then
            Ok(Unresolved(LicenceAmbiguous, AmbiguousDetail(product, ProductsOf(b, matches))))
          else Ok(ResolvedTo(Goal(TheOnly(users), matches[0], email, product)))
  }

  /** The same, by the services of one session. */
  method ResolveGoal(users: UserService, licences: LicenceService, email: string, product: string)
    returns (r: Result<Resolution, ServiceError>)
    requires users.State() == licences.State()
    ensures r == Resolve(users.State(), email, product)
  {
    hide SortedIds, LicencesByFold, UsersByEmail;
    var user := users.FindByEmail(email);
    if user.Err? {
      return if user.error.Unexpected? then Err(user.error) else Ok(Unresolved(InvalidRequest, InputDetail));
    }
    var matches := licences.FindByProduct(product);
    if matches.Err? {
      return Ok(Unresolved(InvalidRequest, InputDetail));
    }
    if user.value.None? {
      return Ok(Unresolved(UnknownUser, UserDetail(email)));
    }
    if |matches.value| == 0 {
      return Ok(Unresolved(UnknownLicence, LicenceDetail(product)));
    }
    if |matches.value| > 1 {
      return Ok(Unresolved(LicenceAmbiguous, AmbiguousDetail(product, ProductsOf(licences.State(), matches.value))));
    }
    return Ok(ResolvedTo(Goal(user.value.value, matches.value[0], email, product)));
  }

  /** `u` and `l` are the rows that the two texts name, and the only ones. */
  predicate Names(b: Store, email: string, product: string, u: int, l: int) {
    && u in b.users && b.users[u].email == NormalizeEmail(email)
    && l in b.licences && Fold(b.licences[l].product) == Fold(Strip(product))
    && (forall m | m in b.licences && Fold(b.licences[m].product) == Fold(Strip(product)) :: m == l)
  }

  predicate ValidTexts(email: string, product: string) {
    ValidatedEmail(email).Ok? && RequiredText(product, PRODUCT_MAX_LENGTH).Ok?
  }

  lemma ValidatedEmailIsNormalized(email: string)
    requires ValidatedEmail(email).Ok?
    ensures ValidatedEmail(email).value == NormalizeEmail(email)
  {
    var s := Strip(email);
    var _, _ := StripRemovesOuterSpace(email);
    assert Trimmed(Fold(s)) by {
      forall c: char ensures IsSpace(FoldChar(c)) ==> IsSpace(c) {
      }
    }
    StripKeepsTrimmed(Fold(s));
  }

  /** Resolution succeeds exactly for valid texts that name one user and one
      licence, and then it is those rows; it never chooses between candidates. */
  lemma ResolvesExactlyWhenNamed(b: Store, email: string, product: string, u: int, l: int)
    requires UniqueNames(b)
    ensures Resolve(b, email, product) == Ok(ResolvedTo(Goal(u, l, email, product)))
      <==> ValidTexts(email, product) && Names(b, email, product, u, l)
  {
    hide Names;
    if ValidTexts(email, product) && Names(b, email, product, u, l) {
      NamedIsFound(b, email, product, u, l);
    }
    if Resolve(b, email, product) == Ok(ResolvedTo(Goal(u, l, email, product))) {
      FoundIsNamed(b, email, product, u, l);
    }
  }

  lemma NamedIsFound(b: Store, email: string, product: string, u: int, l: int)
    requires UniqueNames(b) && ValidTexts(email, product) && Names(b, email, product, u, l)
    ensures Resolve(b, email, product) == Ok(ResolvedTo(Goal(u, l, email, product)))
  {
    hide SortedIds;
    ValidatedEmailIsNormalized(email);
    var users := UsersByEmail(b, NormalizeEmail(email));
    var matches := LicencesByFold(b, Fold(Strip(product)));
    forall v | v in users ensures v == u {
    }
    assert u in users && users == {u};
    forall m | m in matches ensures m == l {
    }
    assert l in matches && matches == {l};
    assert SortedIds(matches)[0] in SortedIds(matches);
  }

  lemma FoundIsNamed(b: Store, email: string, product: string, u: int, l: int)
    requires Resolve(b, email, product) == Ok(ResolvedTo(Goal(u, l, email, product)))
    ensures ValidTexts(email, product) && Names(b, email, product, u, l)
  {
    hide SortedIds;
    ValidatedEmailIsNormalized(email);
    var users := UsersByEmail(b, NormalizeEmail(email));
    var matches := LicencesByFold(b, Fold(Strip(product)));
    OneElement(matches);
    assert u in users && SortedIds(matches)[0] in SortedIds(matches) && l in matches;
    forall m | m in b.licences && Fold(b.licences[m].product) == Fold(Strip(product)) ensures m == l {
      assert m in matches;
    }
  }

  /** When resolution fails, the code follows one priority: invalid text, then
      no such user, then no such licence, then more than one. */
  lemma FailureCodesInPriority(b: Store, email: string, product: string)
    requires UniqueNames(b)
    ensures Resolve(b, email, product).Ok?
    ensures var r := Resolve(b, email, product).value;
      var someUser := exists u :: u in b.users && b.users[u].email == NormalizeEmail(email);
      var some := exists l :: l in b.licences && Fold(b.licences[l].product) == Fold(Strip(product));
      var two := exists l, m :: l in b.licences && m in b.licences && l != m
                  && Fold(b.licences[l].product) == Fold(b.licences[m].product) == Fold(Strip(product));
      && (r.Unresolved? && r.code == InvalidRequest <==> !ValidTexts(email, product))
      && (r.Unresolved? && r.code == UnknownUser <==> ValidTexts(email, product) && !someUser)
      && (r.Unresolved? && r.code == UnknownLicence <==> ValidTexts(email, product) && someUser && !some)
      && (r.Unresolved? && r.code == LicenceAmbiguous <==> ValidTexts(email, product) && someUser && two)
  {
    hide InOrder, SortedIds;
    if ValidatedEmail(email).Ok? {
      OneUserAtMost(b, ValidatedEmail(email).value);
    }
    if ValidTexts(email, product) {
      ValidatedEmailIsNormalized(email);
      var users := UsersByEmail(b, NormalizeEmail(email));
      var matches := LicencesByFold(b, Fold(Strip(product)));
      SizeOfSet(users);
      SizeOfSet(matches);
      assert forall u :: u in users <==> u in b.users && b.users[u].email == NormalizeEmail(email);
      assert forall l :: l in matches <==> l in b.licences && Fold(b.licences[l].product) == Fold(Strip(product));
    }
  }

  lemma OneUserAtMost(b: Store, address: string)
    requires UniqueNames(b)
    ensures |UsersByEmail(b, address)| <= 1
  {
    var users := UsersByEmail(b, address);
    if |users| > 0 {
      HasElement(users);
      var u :| u in users;
      forall v | v in users ensures v == u {
      }
      assert users == {u};
    }
  }
}
