/**
 * The order lifecycle: the status enum, the fixed transition table, the
 * normaliser that turns free-form backend strings into the canonical spelling,
 * and the transition guard every screen consults before acting on an order.
 *
 * A raw status is `Option<string>`: `None` is JavaScript's `undefined`/`null`.
 */
module OrderStatus {
  import opened Wrappers
  import opened Text

  datatype Status = Assigned | Accepted | PickedUp | Delivered | Cancelled | Pending

  /** The canonical spelling of each status (`ORDER_STATUS`). */
  function Name(st: Status): string {
    match st
    case Assigned => "ASSIGNED"
    case Accepted => "ACCEPTED"
    case PickedUp => "PICKED_UP"
    case Delivered => "DELIVERED"
    case Cancelled => "CANCELLED"
    case Pending => "PENDING"
  }

  /** The status whose canonical spelling is `s`, if any: a key lookup in the table. */
  function Parse(s: string): (r: Option<Status>)
    ensures r.Some? ==> Name(r.value) == s
    ensures r.None? ==> forall st :: Name(st) != s
  {
    if s == "ASSIGNED" then Some(Assigned)
    else if s == "ACCEPTED" then Some(Accepted)
    else if s == "PICKED_UP" then Some(PickedUp)
    else if s == "DELIVERED" then Some(Delivered)
    else if s == "CANCELLED" then Some(Cancelled)
    else if s == "PENDING" then Some(Pending)
    else None
  }

  /** `ACCEPTABLE_ORDER_STATUSES`. */
  const Acceptable: seq<Status> := [Assigned, Pending]

  /** `STATUS_COLOR_MAP`. */
  function Color(st: Status): string {
    match st
    case Assigned => "#2563EB"
    case Pending => "#2563EB"
    case Accepted => "#7C3AED"
    case PickedUp => "#EA580C"
    case Delivered => "#16A34A"
    case Cancelled => "#DC2626"
  }

  /** `ORDER_TRANSITIONS`: the statuses reachable in one step. */
  function Targets(st: Status): (r: seq<Status>)
    ensures st !in r
    ensures Assigned !in r && Pending !in r
    ensures r != [] ==> |r| == 2 && r[1] == Cancelled
  {
    match st
    case Assigned => [Accepted, Cancelled]
    case Pending => [Accepted, Cancelled]
    case Accepted => [PickedUp, Cancelled]
    case PickedUp => [Delivered, Cancelled]
    case Delivered => []
    case Cancelled => []
  }

  /** `normalizeOrderStatus`: a falsy status is PENDING; anything else is trimmed,
      upper-cased and has each run of white space replaced by one underscore.
      Unknown words pass through, and white space alone gives "". */
  function Normalize(raw: Option<string>): (r: string)
    ensures NoSpace(r) && NoLower(r)
    ensures raw == None || raw == Some("") ==> r == Name(Pending)
  {
    if raw == None || raw.value == "" then Name(Pending)
    else CollapseSpace(Upper(Trim(raw.value)))
  }

  /** The table lookup behind the guard: a move is allowed when both ends are
      known statuses and the table lists the second after the first. */
  predicate Allows(from: Option<Status>, to: Option<Status>) {
    from.Some? && to.Some? && to.value in Targets(from.value)
  }

  /** `canTransitionOrderStatus`: normalise both sides, look the current status up
      in the table (an unknown key has no targets) and test membership. */
  predicate CanTransition(current: Option<string>, next: Option<string>)
    ensures CanTransition(current, next) ==>
      && Parse(Normalize(current)).Some? && Parse(Normalize(next)).Some?
      && Parse(Normalize(current)) != Parse(Normalize(next))
      && !Terminal(Parse(Normalize(current)).value)
      && Parse(Normalize(next)).value !in Acceptable
  {
    Allows(Parse(Normalize(current)), Parse(Normalize(next)))
  }

  /** A status is terminal when the table lists nothing after it: exactly
      DELIVERED and CANCELLED. */
  predicate Terminal(st: Status)
    ensures Terminal(st) <==> st == Delivered || st == Cancelled
  {
    Targets(st) == []
  }

  // ---------------------------------------------------------------- normaliser

  /** Every canonical spelling is made of capitals and "_" only. */
  lemma NameIsUpperSnake(st: Status)
    ensures NoSpace(Name(st)) && NoLower(Name(st))
  {
    var n := Name(st);
    forall i | 0 <= i < |n|
      ensures !IsSpace(n[i]) && !IsLower(n[i])
    {
      assert 'A' <= n[i] <= 'Z' || n[i] == '_';
    }
  }

  /** A canonical spelling normalises to itself. */
  lemma NormalizeName(st: Status)
    ensures Normalize(Some(Name(st))) == Name(st)
  {
    var n := Name(st);
    NameIsUpperSnake(st);
    TrimOfNoSpace(n);
    UpperOfNoLower(n);
    CollapseOfNoSpace(n);
  }

  /** Normalising is idempotent on every input whose result is non-empty. */
  lemma NormalizeIdempotent(raw: Option<string>)
    requires Normalize(raw) != ""
    ensures Normalize(Some(Normalize(raw))) == Normalize(raw)
  {
    var n := Normalize(raw);
    TrimOfNoSpace(n);
    UpperOfNoLower(n);
    CollapseOfNoSpace(n);
  }

  /** Letter case of the input does not matter. */
  lemma NormalizeIgnoresCase(s: string)
    ensures Normalize(Some(Lower(s))) == Normalize(Some(s))
  {
    TrimOfLower(s);
    UpperOfLower(Trim(s));
  }

  /** White space around a non-empty input does not matter. */
  lemma NormalizeIgnoresOuterSpace(w1: string, s: string, w2: string)
    requires AllSpace(w1) && AllSpace(w2) && s != ""
    ensures Normalize(Some(w1 + s + w2)) == Normalize(Some(s))
  {
    TrimIgnoresOuterSpace(w1, s, w2);
  }

  /** White space alone is not falsy, and normalises to the empty string, which
      is no status at all. */
  lemma NormalizeOfBlank(s: string)
    requires s != "" && AllSpace(s)
    ensures Normalize(Some(s)) == ""
    ensures Parse(Normalize(Some(s))) == None
  {
    assert s == s + [] + [];
    TrimUnique(s, [], []);
  }

  lemma NormalizeExamples()
    ensures Normalize(None) == "PENDING"
    ensures Normalize(Some("")) == "PENDING"
  {
  }

  /** Two words separated by white space come out upper-cased and joined by
      one underscore. */
  lemma NormalizeTwoWords(a: string, w: string, b: string)
    requires a != [] && b != [] && NoSpace(a) && NoSpace(b)
    requires w != [] && AllSpace(w)
    ensures Normalize(Some(a + w + b)) == Upper(a) + "_" + Upper(b)
  {
    var s := a + w + b;
    assert Trimmed(s);
    TrimOfSpaceFree(s);
    assert Upper(s) == Upper(a) + Upper(w) + Upper(b);
    UpperKeepsSpaces(a);
    UpperKeepsSpaces(w);
    UpperKeepsSpaces(b);
    CollapseJoin(Upper(a), Upper(w), Upper(b));
  }

  /** A single word that names no status passes through upper-cased and parses
      to no status. */
  lemma NormalizeUnknown(s: string)
    requires s != "" && NoSpace(s)
    requires forall st :: Name(st) != Upper(s)
    ensures Normalize(Some(s)) == Upper(s)
    ensures Parse(Normalize(Some(s))) == None
  {
    TrimOfNoSpace(s);
    UpperKeepsSpaces(s);
    CollapseOfNoSpace(Upper(s));
  }

  /** Helper: a string whose ends are not white space is left alone by `trim`. */
  lemma TrimOfSpaceFree(s: string)
    requires Trimmed(s)
    ensures Trim(s) == s
  {
    assert [] + s + [] == s;
    TrimUnique([], s, []);
  }

  // ---------------------------------------------------------------- table

  /** Parsing inverts `Name`: a string parses to a status exactly when it is that
      status's canonical spelling. */
  lemma ParseName(s: string, st: Status)
    ensures Parse(s) == Some(st) <==> s == Name(st)
  {
  }

  /** Every canonical spelling normalises and parses back to its status. */
  lemma ParseNormalizeName(st: Status)
    ensures Parse(Normalize(Some(Name(st)))) == Some(st)
  {
    NormalizeName(st);
    ParseName(Name(st), st);
  }

  /** No status can move to itself. */
  lemma NoSelfLoop(raw: Option<string>)
    ensures !CanTransition(raw, raw)
  {
    var p := Parse(Normalize(raw));
    if p.Some? {
      assert p.value !in Targets(p.value);
    }
  }

  /** DELIVERED and CANCELLED are terminal (in every spelling); every other
      status can move to CANCELLED. */
  lemma TerminalStatuses(st: Status, next: Option<string>)
    ensures Terminal(st) <==> st == Delivered || st == Cancelled
    ensures Terminal(st) ==> !CanTransition(Some(Name(st)), next)
    ensures !Terminal(st) ==> CanTransition(Some(Name(st)), Some(Name(Cancelled)))
  {
    ParseNormalizeName(st);
    ParseNormalizeName(Cancelled);
  }

  /** An unknown current status never permits a move. */
  lemma UnknownCurrentBlocks(current: Option<string>, next: Option<string>)
    requires forall st :: Name(st) != Normalize(current)
    ensures !CanTransition(current, next)
  {
  }

  /** The guard ignores letter case in both arguments. */
  lemma CanTransitionIgnoresCase(current: string, next: string)
    ensures CanTransition(Some(Lower(current)), Some(next)) == CanTransition(Some(current), Some(next))
    ensures CanTransition(Some(current), Some(Lower(next))) == CanTransition(Some(current), Some(next))
  {
    NormalizeIgnoresCase(current);
    NormalizeIgnoresCase(next);
  }

  /** The guard ignores white space around non-empty arguments. */
  lemma CanTransitionIgnoresOuterSpace(w1: string, current: string, w2: string, next: string)
    requires AllSpace(w1) && AllSpace(w2) && current != "" && next != ""
    ensures CanTransition(Some(w1 + current + w2), Some(next)) == CanTransition(Some(current), Some(next))
    ensures CanTransition(Some(current), Some(w1 + next + w2)) == CanTransition(Some(current), Some(next))
  {
    NormalizeIgnoresOuterSpace(w1, current, w2);
    NormalizeIgnoresOuterSpace(w1, next, w2);
  }

  /** Helper: the statuses the table lets move to ACCEPTED are the acceptable ones. */
  lemma AllowsAccept(from: Option<Status>)
    ensures Allows(from, Some(Accepted)) <==> from.Some? && from.value in Acceptable
  {
  }

  /** ACCEPTABLE_ORDER_STATUSES lists exactly the statuses the guard lets move to
      ACCEPTED, whatever the spelling of the current status. */
  lemma AcceptableIffCanAccept(current: Option<string>)
    ensures CanTransition(current, Some("ACCEPTED"))
        <==> Parse(Normalize(current)).Some? && Parse(Normalize(current)).value in Acceptable
  {
    ParseNormalizeName(Accepted);
    AllowsAccept(Parse(Normalize(current)));
  }

  /** Helper: only PICKED_UP is followed by DELIVERED in the table. */
  lemma AllowsDeliver(from: Option<Status>)
    ensures Allows(from, Some(Delivered)) <==> from == Some(PickedUp)
  {
  }

  /** Only PICKED_UP (in any spelling) can move to DELIVERED. */
  lemma OnlyPickedUpDelivers(current: Option<string>)
    ensures CanTransition(current, Some("DELIVERED")) <==> Normalize(current) == "PICKED_UP"
  {
    ParseNormalizeName(Delivered);
    AllowsDeliver(Parse(Normalize(current)));
    ParseName(Normalize(current), PickedUp);
  }

  /** The mixed-case spelling the dashboard assigns to orders without a status
      is PENDING to the guard. */
  lemma NormalizeMixedCasePending()
    ensures Parse(Normalize(Some("Pending"))) == Some(Pending)
  {
    assert Lower("PENDING") == Lower("Pending");
    NormalizeIgnoresCase("PENDING");
    NormalizeIgnoresCase("Pending");
    ParseNormalizeName(Pending);
  }

  /** The lifecycle scenario: a pending order may be accepted, but neither it nor
      the accepted order may be delivered before it is picked up. */
  lemma AcceptBeforeDeliver()
    ensures CanTransition(Some("Pending"), Some("ACCEPTED"))
    ensures !CanTransition(Some("Pending"), Some("DELIVERED"))
    ensures !CanTransition(Some("ACCEPTED"), Some("DELIVERED"))
    ensures CanTransition(Some("ACCEPTED"), Some("PICKED_UP"))
    ensures CanTransition(Some("PICKED_UP"), Some("DELIVERED"))
  {
    PendingMayOnlyBeAccepted();
    AcceptedMustBePickedUp();
  }

  /** A pending order, in any case, may be accepted and may not be delivered. */
  lemma PendingMayOnlyBeAccepted()
    ensures CanTransition(Some("Pending"), Some("ACCEPTED"))
    ensures !CanTransition(Some("Pending"), Some("DELIVERED"))
  {
    NormalizeMixedCasePending();
    ParseNormalizeName(Accepted);
    ParseNormalizeName(Delivered);
    assert Allows(Some(Pending), Some(Accepted));
    assert !Allows(Some(Pending), Some(Delivered));
  }

  /** An accepted order is delivered only through pick-up. */
  lemma AcceptedMustBePickedUp()
    ensures !CanTransition(Some("ACCEPTED"), Some("DELIVERED"))
    ensures CanTransition(Some("ACCEPTED"), Some("PICKED_UP"))
    ensures CanTransition(Some("PICKED_UP"), Some("DELIVERED"))
  {
    ParseNormalizeName(Accepted);
    ParseNormalizeName(PickedUp);
    ParseNormalizeName(Delivered);
    assert !Allows(Some(Accepted), Some(Delivered));
    assert Allows(Some(Accepted), Some(PickedUp));
    assert Allows(Some(PickedUp), Some(Delivered));
  }
}
