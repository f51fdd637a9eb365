/** The deployment regions (Region.java) and the host prefix each one gives. */
module Regions {

  datatype Region = NA | EU | AZURE_EU | AZURE_NA | GCP_NA

  /** `name()`: the constant's identifier. */
  function Name(r: Region): string
  {
    match r
    case NA => "NA"
    case EU => "EU"
    case AZURE_EU => "AZURE_EU"
    case AZURE_NA => "AZURE_NA"
    case GCP_NA => "GCP_NA"
  }

  /** Lower-casing of one character: only 'A'..'Z' change. */
  function LowerChar(c: char): (r: char)
    ensures 'A' <= c <= 'Z' ==> 'a' <= r <= 'z' && r as int - c as int == 32
    ensures !('A' <= c <= 'Z') ==> r == c
  {
    if 'A' <= c <= 'Z' then (c as int + 32) as char else c
  }

  /** `toLowerCase()` on the ASCII identifiers above: same length, every
      character lowered, everything else (such as '_') kept. */
  function ToLower(s: string): (r: string)
    ensures |r| == |s|
    ensures forall i :: 0 <= i < |s| ==> r[i] == LowerChar(s[i])
  {
    if s == [] then [] else [LowerChar(s[0])] + ToLower(s[1..])
  }

  /** The host prefix of a region: its lower-cased name and a dash. */
  function Prefix(r: Region): (p: string)
    ensures |p| == |Name(r)| + 1 && p[|p| - 1] == '-'
  {
    ToLower(Name(r)) + "-"
  }

  /** The lower-cased name of each region, spelled out. */
  function LowerName(r: Region): string
  {
    match r
    case NA => "na"
    case EU => "eu"
    case AZURE_EU => "azure_eu"
    case AZURE_NA => "azure_na"
    case GCP_NA => "gcp_na"
  }

  /** `lower` is `name` lowered character by character. */
  lemma LowerWord(name: string, lower: string)
    requires |name| == |lower|
    requires forall i :: 0 <= i < |name| ==> LowerChar(name[i]) == lower[i]
    ensures ToLower(name) == lower
  {
  }

  /** The prefixes are `na-`, `eu-`, `azure_eu-`, `azure_na-` and `gcp_na-`:
      the underscore survives. */
  lemma PrefixSpelling(r: Region)
    ensures Prefix(r) == LowerName(r) + "-"
  {
    match r
    case NA => LowerWord("NA", "na");
    case EU => LowerWord("EU", "eu");
    case AZURE_EU => LowerWord("AZURE_EU", "azure_eu");
    case AZURE_NA => LowerWord("AZURE_NA", "azure_na");
    case GCP_NA => LowerWord("GCP_NA", "gcp_na");
  }

  /** Lower-casing twice changes nothing more. */
  lemma {:induction false} ToLowerIdempotent(s: string)
    ensures ToLower(ToLower(s)) == ToLower(s)
  {
    var t := ToLower(s);
    assert |ToLower(t)| == |t|;
    forall i | 0 <= i < |t| ensures ToLower(t)[i] == t[i] { }
  }
}
