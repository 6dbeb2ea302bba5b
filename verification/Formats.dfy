/** The field formats: each predicate is the full match of one regular expression of the source. */
module Formats {
  import opened Json
  import opened JsonText

  predicate Lower(c: char) {
    'a' <= c <= 'z'
  }

  predicate Alnum(c: char) {
    Lower(c) || 'A' <= c <= 'Z' || IsDigit(c)
  }

  predicate Each(s: string, ok: char -> bool) {
    forall i :: 0 <= i < |s| ==> ok(s[i])
  }

  /** One head character followed by at most `limit` others. */
  predicate Named(s: string, limit: nat, head: char -> bool, tail: char -> bool) {
    1 <= |s| <= limit + 1 && head(s[0]) && Each(s[1..], tail)
  }

  /** CHANNEL and LOGICAL_DEVICE. */
  predicate IsChannel(s: string) {
    Named(s, 63, c => Lower(c) || IsDigit(c), c => Lower(c) || IsDigit(c) || c in "._-")
  }

  /** REVISION, ASSIGNMENT_ID and HASH_ID: a SHA-256 digest in text. */
  predicate IsDigest(s: string) {
    |s| == 71 && s[..7] == "sha256:" && Each(s[7..], c => 'a' <= c <= 'f' || IsDigit(c))
  }

  predicate IsEnrollment(s: string) {
    12 <= |s| <= 132 && s[..4] == "enr:" && Each(s[4..], c => Alnum(c) || c in "._-")
  }

  predicate IsPairingCode(s: string) {
    |s| == 8 && Each(s, IsDigit)
  }

  predicate IsKeyId(s: string) {
    Named(s, 127, Alnum, c => Alnum(c) || c in "._:-")
  }

  predicate IsTag(s: string) {
    Named(s, 63, c => Lower(c) || IsDigit(c), c => Lower(c) || IsDigit(c) || c in "._:-")
  }

  predicate IsNonce(s: string) {
    16 <= |s| <= 128 && Each(s, c => Alnum(c) || c in "._:-")
  }

  predicate IsRunId(s: string) {
    8 <= |s| <= 128 && Alnum(s[0]) && Each(s[1..], c => Alnum(c) || c in "._:-")
  }

  /** VERSION: a run of digits, a dot, a digit, then any of the admitted characters. */
  predicate IsVersion(s: string) {
    var d := |Digits(s)|;
    0 < d < |s| - 1 && s[d] == '.' && IsDigit(s[d + 1]) && Each(s, c => Alnum(c) || c in ".+-")
  }

  predicate IsClientVersion(s: string) {
    Named(s, 63, Alnum, c => Alnum(c) || c in "._+:-")
  }

  predicate IsPlatform(s: string) {
    Named(s, 127, c => Lower(c) || IsDigit(c), c => Lower(c) || IsDigit(c) || c in "._:/+-")
  }

  /** `str(v)`. The text of a list or a dict starts with a bracket, which no format admits. */
  function PyStr(v: Json): string {
    match v
    case Str(s) => s
    case Num(n) => Decimal(n)
    case Null => "None"
    case Bool(b) => if b then "True" else "False"
    case Arr(_) => "["
    case Obj(_) => "{"
  }
}
