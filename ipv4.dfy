// The dotted-quad IPv4 pattern that AppAccess.addIpToWhitelist validates against.
module Ipv4 {
  import Text

  /** `[0-9][0-9]?` */
  predicate OneOrTwoDigits(t: string)
  {
    (|t| == 1 || |t| == 2) && Text.AllDigits(t)
  }

  /** One octet of the pattern, alternative by alternative: `25[0-5]|2[0-4][0-9]|[01]?[0-9][0-9]?`. */
  predicate OctetPattern(s: string)
  {
    (|s| == 3 && s[0] == '2' && s[1] == '5' && '0' <= s[2] <= '5')
    || (|s| == 3 && s[0] == '2' && '0' <= s[1] <= '4' && Text.IsAsciiDigit(s[2]))
    || (|s| >= 1 && (s[0] == '0' || s[0] == '1') && OneOrTwoDigits(s[1..]))
    || OneOrTwoDigits(s)
  }

  lemma ThreeDigitValue(s: string)
    requires |s| == 3 && Text.AllDigits(s)
    ensures Text.DecimalValue(s) == 100 * Text.DigitValue(s[0]) + 10 * Text.DigitValue(s[1]) + Text.DigitValue(s[2])
  {
    var s2, s1 := s[..2], s[..1];
    assert s2[..1] == s1 && s1[..0] == [];
    assert Text.DecimalValue(s1) == Text.DigitValue(s[0]);
    assert Text.DecimalValue(s2) == Text.DecimalValue(s1) * 10 + Text.DigitValue(s[1]);
    assert Text.DecimalValue(s) == Text.DecimalValue(s2) * 10 + Text.DigitValue(s[2]);
  }

  lemma TwoDigitValue(s: string)
    requires |s| == 2 && Text.AllDigits(s)
    ensures Text.DecimalValue(s) == 10 * Text.DigitValue(s[0]) + Text.DigitValue(s[1])
  {
    var s1 := s[..1];
    assert s1[..0] == [];
    assert Text.DecimalValue(s1) == Text.DigitValue(s[0]);
  }

  lemma OctetHasNoDot(x: string)
    requires OctetPattern(x)
    ensures '.' !in x
  {
    OctetMeaning(x);
    assert forall i :: 0 <= i < |x| ==> Text.IsAsciiDigit(x[i]);
  }

  /** An octet is one to three digits whose value is at most 255; leading zeros are accepted. */
  lemma OctetMeaning(s: string)
    ensures OctetPattern(s) <==> 1 <= |s| <= 3 && Text.AllDigits(s) && Text.DecimalValue(s) <= 255
  {
    if |s| == 3 && Text.AllDigits(s) {
      ThreeDigitValue(s);
      assert Text.AllDigits(s[1..]);
    } else if 1 <= |s| <= 2 && Text.AllDigits(s) {
      if |s| == 2 {
        TwoDigitValue(s);
      } else {
        assert s[..0] == [];
      }
    }
  }

  /** The whole pattern `((octet)\.){3}(octet)`: exactly four dot-separated octets. */
  predicate ValidIpv4(s: string)
  {
    var parts := Text.Split(s, '.');
    |parts| == 4 && forall i :: 0 <= i < 4 ==> OctetPattern(parts[i])
  }

  /** Four octets joined by dots always form a valid address. */
  lemma DottedQuadIsValid(a: string, b: string, c: string, d: string)
    requires OctetPattern(a) && OctetPattern(b) && OctetPattern(c) && OctetPattern(d)
    ensures ValidIpv4(a + "." + b + "." + c + "." + d)
  {
    OctetHasNoDot(a);
    OctetHasNoDot(b);
    OctetHasNoDot(c);
    OctetHasNoDot(d);
    SplitFour(a, b, c, d);
  }

  lemma SplitTwo(c: string, d: string)
    requires '.' !in c && '.' !in d
    ensures Text.Split(c + ['.'] + d, '.') == [c, d]
  {
    Text.SplitNone(d, '.');
    Text.SplitCons(c, '.', d);
  }

  lemma SplitThree(b: string, c: string, d: string)
    requires '.' !in b && '.' !in c && '.' !in d
    ensures Text.Split(b + ['.'] + (c + ['.'] + d), '.') == [b, c, d]
  {
    SplitTwo(c, d);
    Text.SplitCons(b, '.', c + ['.'] + d);
  }

  lemma DotJoinAssoc(a: string, b: string, c: string, d: string)
    ensures a + "." + b + "." + c + "." + d == a + ['.'] + (b + ['.'] + (c + ['.'] + d))
  {
  }

  lemma SplitFour(a: string, b: string, c: string, d: string)
    requires '.' !in a && '.' !in b && '.' !in c && '.' !in d
    ensures Text.Split(a + "." + b + "." + c + "." + d, '.') == [a, b, c, d]
  {
    var bcd := b + ['.'] + (c + ['.'] + d);
    DotJoinAssoc(a, b, c, d);
    SplitThree(b, c, d);
    Text.SplitCons(a, '.', bcd);
  }

  /** Every piece of a valid address is a decimal number from 0 to 255. */
  lemma ValidIpv4Octets(s: string, i: int)
    requires ValidIpv4(s) && 0 <= i < 4
    ensures Text.AllDigits(Text.Split(s, '.')[i]) && Text.DecimalValue(Text.Split(s, '.')[i]) <= 255
  {
    OctetMeaning(Text.Split(s, '.')[i]);
  }
}
