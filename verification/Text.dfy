/** Text rules shared by the services: stripping, case folding, required text,
    and the audit actors that only agent runs may use. */
module Text {
  import opened Basics

  const ACTOR_MAX_LENGTH := 320
  const AGENT_ACTOR_PREFIX := "agent:"

  /** The characters that Python's `str.isspace` accepts. */
  predicate IsSpace(c: char) {
    var n := c as int;
    || 0x09 <= n <= 0x0d || 0x1c <= n <= 0x20 || n == 0x85 || n == 0xa0 || n == 0x1680
    || 0x2000 <= n <= 0x200a || n == 0x2028 || n == 0x2029 || n == 0x202f || n == 0x205f || n == 0x3000
  }

  predicate AllSpace(s: string) {
    forall i | 0 <= i < |s| :: IsSpace(s[i])
  }

  /** Neither the first nor the last character is a space. */
  predicate Trimmed(s: string) {
    s != [] ==> !IsSpace(s[0]) && !IsSpace(s[|s| - 1])
  }

  function StripLeft(s: string): string {
    if s != [] && IsSpace(s[0]) then StripLeft(s[1..]) else s
  }

  function StripRight(s: string): string {
    if s != [] && IsSpace(s[|s| - 1]) then StripRight(s[..|s| - 1]) else s
  }

  function Strip(s: string): string {
    StripRight(StripLeft(s))
  }

  lemma {:induction false} StripLeftIsSuffix(s: string) returns (k: nat)
    ensures k <= |s| && StripLeft(s) == s[k..] && AllSpace(s[..k])
    ensures k < |s| ==> !IsSpace(s[k])
  {
    if s != [] && IsSpace(s[0]) {
      var j := StripLeftIsSuffix(s[1..]);
      k := j + 1;
      assert s[1..][j..] == s[k..];
      assert s[..k] == [s[0]] + s[1..][..j];
    } else {
      k := 0;
    }
  }

  lemma {:induction false} StripRightIsPrefix(s: string) returns (k: nat)
    ensures k <= |s| && StripRight(s) == s[..k] && AllSpace(s[k..])
    ensures k > 0 ==> !IsSpace(s[k - 1])
  {
    if s != [] && IsSpace(s[|s| - 1]) {
      k := StripRightIsPrefix(s[..|s| - 1]);
      assert s[..|s| - 1][..k] == s[..k];
      assert s[k..] == s[..|s| - 1][k..] + [s[|s| - 1]];
    } else {
      k := |s|;
    }
  }

  /** Stripping removes spaces, only spaces, and every space at either end. */
  lemma StripRemovesOuterSpace(s: string) returns (before: string, after: string)
    ensures s == before + Strip(s) + after
    ensures AllSpace(before) && AllSpace(after) && Trimmed(Strip(s))
  {
    var i := StripLeftIsSuffix(s);
    var t := StripLeft(s);
    var j := StripRightIsPrefix(t);
    before, after := s[..i], t[j..];
    assert t == Strip(s) + after;
    assert s == before + t;
  }

  lemma StripKeepsTrimmed(s: string)
    requires Trimmed(s)
    ensures Strip(s) == s
  {
  }

  /** Case folding, character by character. */
  function FoldChar(c: char): char {
    if 'A' <= c <= 'Z' then (c as int + 32) as char else c
  }

  function Fold(s: string): (t: string)
    ensures |t| == |s| && forall i | 0 <= i < |s| :: t[i] == FoldChar(s[i])
  {
    seq(|s|, i requires 0 <= i < |s| => FoldChar(s[i]))
  }

  predicate StandsAt(part: string, text: string, i: nat)
    requires i + |part| <= |text|
  {
    text[i..i + |part|] == part
  }

  predicate Occurs(part: string, text: string) {
    exists i: nat :: i + |part| <= |text| && StandsAt(part, text, i)
  }

  datatype TextError = BlankText | TextTooLong

  function RequiredText(value: string, maxLength: nat): Result<string, TextError> {
    var stripped := Strip(value);
    if stripped == [] then Err(BlankText)
    else if |stripped| > maxLength then Err(TextTooLong)
    else Ok(stripped)
  }

  function ValidatedActor(actor: string): Result<string, TextError> {
    RequiredText(actor, ACTOR_MAX_LENGTH)
  }

  /** What `reject_reserved_actor` raises for. */
  predicate Reserved(actor: string) {
    AGENT_ACTOR_PREFIX <= Fold(Strip(actor))
  }

  function Digit(d: nat): char
    requires d < 10
  {
    ('0' as int + d) as char
  }

  function Decimal(n: nat): (s: string)
    ensures s != [] && forall i | 0 <= i < |s| :: '0' <= s[i] <= '9'
  {
    if n < 10 then [Digit(n)] else Decimal(n / 10) + [Digit(n % 10)]
  }

  lemma {:induction false} DecimalInjective(m: nat, n: nat)
    requires Decimal(m) == Decimal(n)
    ensures m == n
  {
    var s := Decimal(m);
    if m < 10 || n < 10 {
      assert |s| == 1;
    } else {
      assert Decimal(m / 10) == s[..|s| - 1] == Decimal(n / 10);
      DecimalInjective(m / 10, n / 10);
    }
  }

  function AgentActor(run: nat): string {
    AGENT_ACTOR_PREFIX + "run-" + Decimal(run)
  }

  function AgentRunActor(run: nat): Result<string, TextError> {
    ValidatedActor(AgentActor(run))
  }

  /** The actor of a run is its name unchanged, or nothing when the name does
      not fit the audit column. */
  lemma AgentRunActorIsItsName(run: nat)
    ensures AgentRunActor(run) == if |AgentActor(run)| <= ACTOR_MAX_LENGTH then Ok(AgentActor(run)) else Err(TextTooLong)
  {
    StripKeepsTrimmed(AgentActor(run));
  }

  lemma AgentActorInjective(r: nat, s: nat)
    requires AgentActor(r) == AgentActor(s)
    ensures r == s
  {
    var n := |AGENT_ACTOR_PREFIX + "run-"|;
    assert Decimal(r) == AgentActor(r)[n..] == AgentActor(s)[n..] == Decimal(s);
    DecimalInjective(r, s);
  }

  /** A run's actor folds to a name in the reserved namespace. */
  lemma AgentActorFoldsToPrefix(run: nat)
    ensures AGENT_ACTOR_PREFIX <= Fold(AgentActor(run))
  {
    var folded := Fold(AgentActor(run));
    forall i | 0 <= i < |AGENT_ACTOR_PREFIX| ensures folded[i] == AGENT_ACTOR_PREFIX[i] {
      assert AgentActor(run)[i] == AGENT_ACTOR_PREFIX[i];
    }
    assert folded[..|AGENT_ACTOR_PREFIX|] == AGENT_ACTOR_PREFIX;
  }

  /** An actor accepted from outside is never stored under a run's name, however
      it was spaced or capitalised. */
  lemma ExternalActorIsNoAgent(actor: string, run: nat)
    requires !Reserved(actor) && ValidatedActor(actor).Ok?
    ensures ValidatedActor(actor).value != AgentActor(run)
  {
    AgentActorFoldsToPrefix(run);
  }

  /** Validating a second time, as the service does, changes nothing. */
  lemma ValidatedActorIdempotent(actor: string)
    requires ValidatedActor(actor).Ok?
    ensures ValidatedActor(ValidatedActor(actor).value) == ValidatedActor(actor)
  {
    var _, _ := StripRemovesOuterSpace(actor);
    StripKeepsTrimmed(Strip(actor));
  }
}
