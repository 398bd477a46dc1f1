/** `ModerationStatus` of the static resources: four statuses with lower-case names. */
module ModerationStatuses {
  import opened Wrappers

  datatype ModerationStatus = Draft | Moderation | Decline | Published

  /** `Display`; parsing the name gives the status back. */
  function StatusName(m: ModerationStatus): (s: string)
    ensures ParseStatus(s) == Ok(m)
  {
    match m
    case Draft => "draft"
    case Moderation => "moderation"
    case Decline => "decline"
    case Published => "published"
  }

  /** `FromStr`: the four names, anything else `Err(())`. */
  function ParseStatus(s: string): Result<ModerationStatus, ()>
  {
    if s == "draft" then Ok(Draft)
    else if s == "moderation" then Ok(Moderation)
    else if s == "decline" then Ok(Decline)
    else if s == "published" then Ok(Published)
    else Err(())
  }

  lemma ParseStatusExact(s: string, m: ModerationStatus)
    ensures ParseStatus(s) == Ok(m) <==> StatusName(m) == s
  {
  }

  lemma ParseStatusRejects(s: string)
    requires forall m: ModerationStatus :: StatusName(m) != s
    ensures ParseStatus(s) == Err(())
  {
    if ParseStatus(s).Ok? {
      ParseStatusExact(s, ParseStatus(s).value);
    }
  }

  lemma StatusNameInjective(a: ModerationStatus, b: ModerationStatus)
    ensures StatusName(a) == StatusName(b) ==> a == b
  {
  }

  /** The declaration index of a status. */
  function Position(m: ModerationStatus): (i: nat)
    ensures i < 4
  {
    match m
    case Draft => 0
    case Moderation => 1
    case Decline => 2
    case Published => 3
  }

  /** `as_vec`: every status once, in declaration order. */
  function AsVec(): (v: seq<ModerationStatus>)
    ensures |v| == 4
    ensures forall m: ModerationStatus :: v[Position(m)] == m
    ensures forall i, j :: 0 <= i < j < |v| ==> v[i] != v[j]
  {
    [Draft, Moderation, Decline, Published]
  }
}
