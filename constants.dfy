/** The static tables of the `aemonemdata` package. */
module Constants {
  import opened Errors

  /** Short region codes to the market's region identifiers. */
  const Regions: map<string, string> :=
    map["nsw" := "NSW1", "qld" := "QLD1", "vic" := "VIC1", "sa" := "SA1", "tas" := "TAS1"]

  /** `error` codes that mean the credentials or session were rejected. */
  const AuthErrorCodes: seq<string> := ["unauthorized_client", "Login session expired."]

  /** The market-limit keys the service stores. */
  const AdministeredPriceCap: string := "AdministeredPriceCap"
  const CumulativePriceThreshold: string := "CumulativePriceThreshold"
  const MarketPriceCap: string := "MarketPriceCap"

  function LowerChar(c: char): char
  {
    if 'A' <= c <= 'Z' then (c as int + 32) as char else c
  }

  /** `str.lower()` on the ASCII letters. */
  function Lower(s: string): (r: string)
    ensures |r| == |s|
    ensures forall i :: 0 <= i < |s| ==> r[i] == LowerChar(s[i])
  {
    if s == [] then [] else [LowerChar(s[0])] + Lower(s[1..])
  }

  /** `REGIONS[code.lower()]`: a KeyError names the lower-cased code. */
  function LookupRegion(code: string): (r: Result<string>)
    ensures r.Ok? <==> Lower(code) in Regions
    ensures r.Ok? ==> r.value == Regions[Lower(code)]
    ensures r.Ok? ==> r.value in Regions.Values
    ensures r.Err? ==> r.error == KeyError(Lower(code))
  {
    var key := Lower(code);
    if key in Regions then Ok(Regions[key]) else Err(KeyError(key))
  }

  /** Lower-casing is idempotent, so a code's case never matters. */
  lemma {:induction false} LowerIdempotent(s: string)
    ensures Lower(Lower(s)) == Lower(s)
  {
    if s != [] {
      LowerIdempotent(s[1..]);
    }
  }

  /** Any capitalisation of a known code resolves to its region. */
  lemma LookupIgnoresCase(code: string)
    ensures LookupRegion(Lower(code)) == LookupRegion(code)
  {
    LowerIdempotent(code);
  }
}
