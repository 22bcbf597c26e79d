/**
 * The transform from records of the country API to the `Country` records the
 * login form offers: one record per API entry, then the entries without a
 * dial code dropped.
 */
module Countries {
  import opened Wrappers
  import Seqs
  import Text

  /** International direct dialling data: a root such as "+3" and suffixes such as ["80"]. */
  datatype Idd = Idd(root: Option<string>, suffixes: Option<seq<string>>)

  /** The fields of an API record that the transform reads. */
  datatype ApiCountry = ApiCountry(commonName: string, cca2: string, idd: Option<Idd>)

  datatype Country = Country(name: string, code: string, dialCode: string, flag: string)

  const FlagPrefix: string := "https://flagcdn.com/"
  const FlagSuffix: string := ".svg"

  /** `c.idd?.root || ""`. */
  function DialRoot(c: ApiCountry): string {
    match c.idd
    case None => ""
    case Some(idd) => idd.root.GetOr("")
  }

  /** `c.idd?.suffixes?.[0] || ""`: the first suffix, or "" when there is none. */
  function DialSuffix(c: ApiCountry): string {
    match c.idd
    case None => ""
    case Some(idd) =>
      match idd.suffixes
      case None => ""
      case Some(s) => if |s| > 0 then s[0] else ""
  }

  /** One API record as a `Country`: its common name, its two-letter code, the root
    * followed by the first suffix as dial code, and the flag image URL of the lower-cased code. */
  function ToCountry(c: ApiCountry): (r: Country)
    ensures r.name == c.commonName && r.code == c.cca2
    ensures r.dialCode == DialRoot(c) + DialSuffix(c)
    ensures r.dialCode == "" <==> DialRoot(c) == "" && DialSuffix(c) == ""
    ensures r.flag == FlagPrefix + Text.ToLower(c.cca2) + FlagSuffix
  {
    Country(c.commonName, c.cca2, DialRoot(c) + DialSuffix(c), FlagPrefix + Text.ToLower(c.cca2) + FlagSuffix)
  }

  /** `c.dialCode` is truthy. */
  function HasDialCode(c: Country): bool {
    c.dialCode != ""
  }

  /** The whole transform. Every output has a non-empty dial code and is the mapping of
    * some input; every input whose dial code is non-empty is in the output, as often as it
    * occurs; input order is kept, so there are never more outputs than inputs. */
  function ToCountries(data: seq<ApiCountry>): (r: seq<Country>)
    ensures |r| <= |data|
    ensures |r| == Seqs.Count(Seqs.Map(data, ToCountry), HasDialCode)
    ensures forall i :: 0 <= i < |r| ==> r[i].dialCode != "" && exists j :: 0 <= j < |data| && r[i] == ToCountry(data[j])
    ensures forall j :: 0 <= j < |data| && ToCountry(data[j]).dialCode != "" ==> ToCountry(data[j]) in r
    ensures Seqs.IsSubsequence(r, Seqs.Map(data, ToCountry))
  {
    var mapped := Seqs.Map(data, ToCountry);
    Seqs.FilterIsSubsequence(mapped, HasDialCode);
    var r := Seqs.Filter(mapped, HasDialCode);
    assert forall i :: 0 <= i < |r| ==> r[i] in mapped;
    r
  }
}
