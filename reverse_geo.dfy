// backend/reverse_geo.py: naming the kind of area around a coordinate from
// a reverse-geocoding reply. The HTTP request is an input: either it failed
// (connection error, timeout, an HTTP error status, a body that is not
// JSON) or it produced a reply whose three read fields are given.

module ReverseGeo {
  import opened Wrappers
  import opened Strings

  /**
   * One field of the JSON reply as `data.get(key, "")` sees it: missing
   * (the default "" applies), a string, or a value of another JSON type
   * (null, a number, ...), whose `.lower()` raises.
   */
  datatype Field = Absent | Text(s: string) | NonText

  datatype Reply =
    | Fetched(category: Field, kind: Field, displayName: Field)
    | FetchFailed

  const Glacial := "glacial"
  const Urban := "urban"
  const Rural := "rural"

  /** `data.get(key, "").lower()`; None where the call raises. */
  function LowerField(f: Field): (r: Option<string>)
    ensures f.NonText? <==> r.None?
    ensures f.Absent? ==> r == Some("")
    ensures f.Text? ==> r == Some(Lower(f.s))
  {
    match f
    case Absent => Some("")
    case Text(s) => Some(Lower(s))
    case NonText => None
  }

  /** The if/elif chain on the lower-cased type and display name. */
  function Classify(kind: string, displayName: string): (r: string)
    ensures r == Glacial || r == Urban || r == Rural
    ensures r == Glacial <==> Contains(displayName, "glacier") || Contains(kind, "glacier")
  {
    if Contains(displayName, "glacier") || Contains(kind, "glacier") then Glacial
    else if Contains(kind, "city") || Contains(displayName, "urban") || Contains(kind, "town") then Urban
    else Rural
  }

  /**
   * `get_area_type`: all three fields are lowered first, so a field of the
   * wrong type, the category included, ends in the exception handler.
   */
  function GetAreaType(reply: Reply): (r: string)
    ensures r == Glacial || r == Urban || r == Rural
  {
    match reply
    case FetchFailed => Rural
    case Fetched(category, kind, displayName) =>
      var c, t, d := LowerField(category), LowerField(kind), LowerField(displayName);
      if c.None? || t.None? || d.None? then Rural
      else Classify(t.value, d.value)
  }

  /** A failed request, or any field whose lowering raises, gives "rural". */
  lemma FailuresAreRural(reply: Reply)
    requires reply.FetchFailed? || reply.category.NonText? || reply.kind.NonText? || reply.displayName.NonText?
    ensures GetAreaType(reply) == Rural
  {
  }

  /** The three outcomes in terms of the lower-cased fields. */
  lemma ClassifyCases(kind: string, displayName: string)
    ensures Classify(kind, displayName) == Glacial
        <==> Contains(displayName, "glacier") || Contains(kind, "glacier")
    ensures Classify(kind, displayName) == Urban
        <==> && !Contains(displayName, "glacier") && !Contains(kind, "glacier")
             && (Contains(kind, "city") || Contains(displayName, "urban") || Contains(kind, "town"))
    ensures Classify(kind, displayName) == Rural
        <==> && !Contains(displayName, "glacier") && !Contains(kind, "glacier")
             && !Contains(kind, "city") && !Contains(displayName, "urban") && !Contains(kind, "town")
  {
  }

  /**
   * For a reply whose fields are all strings or missing, the result is the
   * classification of the lower-cased type and display name.
   */
  lemma FetchedClassification(reply: Reply)
    requires reply.Fetched?
    requires !reply.category.NonText? && !reply.kind.NonText? && !reply.displayName.NonText?
    ensures GetAreaType(reply)
         == Classify(LowerField(reply.kind).value, LowerField(reply.displayName).value)
  {
  }

  /** The category's value never matters, only whether it can be lowered. */
  lemma CategoryIgnored(reply: Reply, category: Field)
    requires reply.Fetched?
    requires reply.category.NonText? == category.NonText?
    ensures GetAreaType(reply) == GetAreaType(reply.(category := category))
  {
  }

  /** A glacier mention wins over every urban mention. */
  lemma GlacierPrecedence(kind: string, displayName: string)
    requires Contains(displayName, "glacier") || Contains(kind, "glacier")
    ensures Classify(kind, displayName) == Glacial
  {
  }

  /** Matching ignores letter case: an upper-case name is classified like its lower-case form. */
  lemma CaseInsensitive(kind: string, displayName: string)
    ensures GetAreaType(Fetched(Absent, Text(kind), Text(displayName)))
         == GetAreaType(Fetched(Absent, Text(Lower(kind)), Text(Lower(displayName))))
  {
    LowerIdempotent(kind);
    LowerIdempotent(displayName);
  }
}
