/**
 * The status badge: the label is the normalised status with underscores shown
 * as spaces, and the colour is the table entry for the normalised status, or
 * the theme's muted colour when there is none.
 */
module StatusBadge {
  import opened Wrappers
  import opened Text
  import opened OrderStatus

  /** `normalizeOrderStatus(status).replace(/_/g, ' ')`. */
  function Label(status: Option<string>): (r: string)
    ensures |r| == |Normalize(status)|
    ensures forall i :: 0 <= i < |r| ==> r[i] != '_'
    ensures forall i :: 0 <= i < |r| && Normalize(status)[i] == '_' ==> r[i] == ' '
    ensures forall i :: 0 <= i < |r| && Normalize(status)[i] != '_' ==> r[i] == Normalize(status)[i]
  {
    UnderscoresToSpaces(Normalize(status))
  }

  /** `STATUS_COLOR_MAP[normalized] || theme.colors.muted`; every table entry is a
      non-empty string, so the fallback is taken exactly for a missing key. */
  function BadgeColor(status: Option<string>, muted: string): (c: string)
    ensures Parse(Normalize(status)).None? ==> c == muted
    ensures Parse(Normalize(status)).Some? ==> |c| == 7 && c[0] == '#'
  {
    match Parse(Normalize(status))
    case Some(st) => Color(st)
    case None => muted
  }

  /** A known status, in its canonical spelling, is shown in its table colour with
      its name as label, underscores turned into spaces. */
  lemma KnownStatusBadge(st: Status, muted: string)
    ensures BadgeColor(Some(Name(st)), muted) == Color(st)
    ensures Label(Some(Name(st))) == UnderscoresToSpaces(Name(st))
    ensures (forall i :: 0 <= i < |Name(st)| ==> Name(st)[i] != '_') ==> Label(Some(Name(st))) == Name(st)
  {
    ParseNormalizeName(st);
    NormalizeName(st);
  }

  /** PICKED_UP is labelled "PICKED UP" and coloured orange. */
  lemma PickedUpBadge(muted: string)
    ensures Label(Some(Name(PickedUp))) == "PICKED UP"
    ensures BadgeColor(Some(Name(PickedUp)), muted) == "#EA580C"
  {
    KnownStatusBadge(PickedUp, muted);
    SpacedPickedUp();
  }

  lemma SpacedPickedUp()
    ensures UnderscoresToSpaces(Name(PickedUp)) == "PICKED UP"
  {
    var r := UnderscoresToSpaces(Name(PickedUp));
    assert |r| == 9;
    assert r[6] == ' ';
    assert forall i :: 0 <= i < 9 && i != 6 ==> r[i] == Name(PickedUp)[i];
  }

  /** An absent status is shown as PENDING in the PENDING colour. */
  lemma AbsentStatusBadge(muted: string)
    ensures Label(None) == "PENDING"
    ensures BadgeColor(None, muted) == "#2563EB"
  {
    var n := Normalize(None);
    ParseName(n, Pending);
    assert forall i :: 0 <= i < |n| ==> n[i] != '_';
    assert Label(None) == n;
  }

  /** Two words typed around any run of white space are shown upper-cased and
      joined by one space. */
  lemma LabelTwoWords(a: string, w: string, b: string)
    requires a != [] && b != [] && NoSpace(a) && NoSpace(b)
    requires w != [] && AllSpace(w)
    requires forall i :: 0 <= i < |a| ==> a[i] != '_'
    requires forall i :: 0 <= i < |b| ==> b[i] != '_'
    ensures Label(Some(a + w + b)) == Upper(a) + " " + Upper(b)
  {
    NormalizeTwoWords(a, w, b);
    UpperKeepsUnderscores(a);
    UpperKeepsUnderscores(b);
    UnderscoresConcat(Upper(a) + "_", Upper(b));
    UnderscoresConcat(Upper(a), "_");
    UnderscoresOfNone(Upper(a));
    UnderscoresOfNone(Upper(b));
  }

  lemma UpperKeepsUnderscores(s: string)
    requires forall i :: 0 <= i < |s| ==> s[i] != '_'
    ensures forall i :: 0 <= i < |Upper(s)| ==> Upper(s)[i] != '_'
  {
  }

  /** A status that normalises to no known name falls back to the muted colour,
      and its label is the normalised word itself when that has no underscore. */
  lemma UnknownStatusBadge(status: Option<string>, muted: string)
    requires forall st :: Name(st) != Normalize(status)
    ensures BadgeColor(status, muted) == muted
    ensures (forall i :: 0 <= i < |Normalize(status)| ==> Normalize(status)[i] != '_') ==>
      Label(status) == Normalize(status)
  {
  }
}
