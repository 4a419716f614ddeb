/**
 * Client and request identifiers. A clerk's identifier is the decimal rendering of
 * one random draw; a request identifier is that identifier, a '-' and the rendering
 * of a fresh draw. Draws come from [0, 2^62); the source of randomness is a parameter.
 */
module RequestIds {
  import opened Decimal

  datatype Option<T> = None | Some(value: T)

  /** nrand draws from [0, 2^62). */
  const RandBound: nat := 0x4000_0000_0000_0000

  /** getReqUuid: the clerk's identifier, a dash, and a fresh draw. */
  function ReqUuid(uuid: string, draw: nat): string
  {
    uuid + "-" + Itoa(draw)
  }

  /** Number of occurrences of `c` in `s`. */
  function Count(c: char, s: string): (k: nat)
    ensures k == 0 <==> c !in s
  {
    if s == [] then 0 else (if s[0] == c then 1 else 0) + Count(c, s[1..])
  }

  lemma {:induction false} CountAppend(c: char, a: string, b: string)
    ensures Count(c, a + b) == Count(c, a) + Count(c, b)
  {
    if a != [] {
      assert (a + b)[0] == a[0] && (a + b)[1..] == a[1..] + b;
      CountAppend(c, a[1..], b);
    } else {
      assert a + b == b;
    }
  }

  /** Splits `s` at its first '-': the part before it and the part after it. */
  function SplitAtDash(s: string): (r: Option<(string, string)>)
    ensures r.None? <==> '-' !in s
    ensures r.Some? ==> '-' !in r.value.0 && s == r.value.0 + "-" + r.value.1
  {
    if s == [] then None
    else if s[0] == '-' then Some(([], s[1..]))
    else match SplitAtDash(s[1..])
      case None => None
      case Some(parts) => Some(([s[0]] + parts.0, parts.1))
  }

  /** Recovers the owning clerk's identifier and the draw from a request identifier. */
  function ParseReqUuid(id: string): Option<(string, nat)>
  {
    match SplitAtDash(id)
    case None => None
    case Some(parts) =>
      if IsDecimal(parts.0) && IsDecimal(parts.1) then Some((parts.0, Atoi(parts.1))) else None
  }

  /** A string with a dash-free head splits exactly after that head. */
  lemma {:induction false} SplitAtFirstDash(a: string, b: string)
    requires '-' !in a
    ensures SplitAtDash(a + "-" + b) == Some((a, b))
  {
    if a != [] {
      assert (a + "-" + b)[1..] == a[1..] + "-" + b;
      SplitAtFirstDash(a[1..], b);
      assert [a[0]] + a[1..] == a;
    }
  }

  /** A request identifier of a dash-free clerk identifier holds exactly one dash. */
  lemma ReqUuidOneDash(uuid: string, draw: nat)
    requires '-' !in uuid
    ensures Count('-', ReqUuid(uuid, draw)) == 1
  {
    var digits := Itoa(draw);
    CountAppend('-', uuid, "-");
    CountAppend('-', uuid + "-", digits);
  }

  /** Splitting a request identifier at its dash gives back the clerk's identifier and the draw's rendering. */
  lemma ReqUuidSplits(uuid: string, draw: nat)
    requires '-' !in uuid
    ensures SplitAtDash(ReqUuid(uuid, draw)) == Some((uuid, Itoa(draw)))
  {
    SplitAtFirstDash(uuid, Itoa(draw));
  }

  /** Round trip: parsing the request identifier of a clerk recovers its identifier and the draw. */
  lemma ParseReqUuidRoundTrip(uuid: string, draw: nat)
    requires IsDecimal(uuid)
    ensures ParseReqUuid(ReqUuid(uuid, draw)) == Some((uuid, draw))
  {
    ReqUuidSplits(uuid, draw);
    AtoiItoa(draw);
  }

  /** Soundness of parsing: whatever it accepts is the request identifier of the parts it returns. */
  lemma ParseReqUuidSound(id: string)
    requires ParseReqUuid(id).Some?
    ensures IsDecimal(ParseReqUuid(id).value.0)
    ensures id == ReqUuid(ParseReqUuid(id).value.0, ParseReqUuid(id).value.1)
  {
    var parts := SplitAtDash(id).value;
    ItoaAtoi(parts.1);
  }

  /** Distinct draws, or distinct clerks, give distinct request identifiers. */
  lemma ReqUuidInjective(u1: string, d1: nat, u2: string, d2: nat)
    requires IsDecimal(u1) && IsDecimal(u2)
    requires ReqUuid(u1, d1) == ReqUuid(u2, d2)
    ensures u1 == u2 && d1 == d2
  {
    ParseReqUuidRoundTrip(u1, d1);
    ParseReqUuidRoundTrip(u2, d2);
  }
}
