/**
 * The backup stamp: `new Date().toISOString()` with every `:` and `.`
 * turned into `-`, then the last five characters (milliseconds and the
 * zone letter) cut off with `.slice(0, -5)`.  The clock itself is not
 * modelled; the ISO string is an input.
 */
module Stamp {

  predicate IsSeparator(c: char) {
    c == ':' || c == '.'
  }

  predicate IsDigit(c: char) {
    '0' <= c <= '9'
  }

  /** `s.replace(/[:.]/g, '-')`: a character-for-character rewrite. */
  function ReplaceSeparators(s: string): (r: string)
    ensures |r| == |s|
    ensures forall i :: 0 <= i < |s| ==> r[i] == (if IsSeparator(s[i]) then '-' else s[i])
  {
    if s == [] then []
    else [if IsSeparator(s[0]) then '-' else s[0]] + ReplaceSeparators(s[1..])
  }

  /** `s.slice(0, -5)`: JavaScript clamps the end index at 0. */
  function DropLastFive(s: string): (r: string)
    ensures |s| >= 5 ==> |r| == |s| - 5
    ensures |s| < 5 ==> r == []
    ensures r <= s
  {
    s[..if |s| >= 5 then |s| - 5 else 0]
  }

  /** The stamp used in the backup file name. */
  function BackupStamp(iso: string): (r: string)
    ensures |r| == if |iso| >= 5 then |iso| - 5 else 0
    ensures forall i :: 0 <= i < |r| ==> !IsSeparator(r[i])
    ensures forall i :: 0 <= i < |r| ==> r[i] == (if IsSeparator(iso[i]) then '-' else iso[i])
  {
    DropLastFive(ReplaceSeparators(iso))
  }

  /** The shape `YYYY-MM-DDTHH:mm:ss.sssZ` that `toISOString` produces for years 0 to 9999. */
  predicate IsIsoInstant(s: string) {
    && |s| == 24
    && s[4] == '-' && s[7] == '-' && s[10] == 'T'
    && s[13] == ':' && s[16] == ':' && s[19] == '.' && s[23] == 'Z'
    && (forall i :: 0 <= i < 4 ==> IsDigit(s[i]))
    && IsDigit(s[5]) && IsDigit(s[6]) && IsDigit(s[8]) && IsDigit(s[9])
    && IsDigit(s[11]) && IsDigit(s[12]) && IsDigit(s[14]) && IsDigit(s[15])
    && IsDigit(s[17]) && IsDigit(s[18])
    && IsDigit(s[20]) && IsDigit(s[21]) && IsDigit(s[22])
  }

  /**
   * For a well-formed ISO instant the stamp is the 19-character
   * `YYYY-MM-DDTHH-mm-ss`: the date, the hour, then minutes and seconds
   * joined by hyphens, made only of digits, `-` and `T`.
   */
  lemma IsoStampShape(iso: string)
    requires IsIsoInstant(iso)
    ensures BackupStamp(iso) == iso[..13] + "-" + iso[14..16] + "-" + iso[17..19]
    ensures |BackupStamp(iso)| == 19
    ensures forall i :: 0 <= i < 19 ==> var c := BackupStamp(iso)[i]; IsDigit(c) || c == '-' || c == 'T'
  {
    var r := BackupStamp(iso);
    var expected := iso[..13] + "-" + iso[14..16] + "-" + iso[17..19];
    assert |expected| == 19;
    forall i | 0 <= i < 19 ensures r[i] == expected[i] {
      if i < 13 {
      } else if i == 13 || i == 16 {
      } else if i < 16 {
        assert expected[i] == iso[14..16][i - 14];
      } else {
        assert expected[i] == iso[17..19][i - 17];
      }
    }
  }
}
