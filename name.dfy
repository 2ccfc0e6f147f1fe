/** The last-name helper of src/shared/utils/name.ts. */
module Names {
  import opened Strings

  /** `fullName.split(" ")`, last piece, with the `?? fullName` fallback (which
      cannot fire: a split always has at least one piece). */
  function GetLastName(fullName: string): (r: string)
    ensures ' ' !in r
    ensures |r| <= |fullName| && fullName[|fullName| - |r|..] == r
    ensures ' ' !in fullName ==> r == fullName
    ensures ' ' in fullName ==> fullName[|fullName| - |r| - 1] == ' '
  {
    var parts := Split(fullName, ' ');
    LastPiece(fullName, ' ');
    if |parts| > 0 then parts[|parts| - 1] else fullName
  }

  /** A name that ends with a space has an empty last name. */
  lemma TrailingSpaceGivesEmpty(fullName: string)
    requires |fullName| > 0 && fullName[|fullName| - 1] == ' '
    ensures GetLastName(fullName) == ""
  {
  }

  /** The fallback of `?? fullName` is never taken: the result is always the last piece. */
  lemma FallbackNeverFires(fullName: string)
    ensures var parts := Split(fullName, ' ');
      |parts| > 0 && GetLastName(fullName) == parts[|parts| - 1]
  {
  }
}
