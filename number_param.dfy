/** The route-parameter check `isNumberParam` (app/utils/is-number-param.ts), the regular expression /^\d+$/. */
module NumberParam {
  import opened Decimal

  /** Matches `\d*` on the rest of `s` from position `i` up to the end of the input. */
  function MatchDigitsToEnd(s: string, i: nat): (r: bool)
    requires i <= |s|
    decreases |s| - i
  {
    i == |s| || (IsDigit(s[i]) && MatchDigitsToEnd(s, i + 1))
  }

  /** `^\d+$`: one digit, then `\d*` anchored at the end of input. */
  function IsNumberParam(param: string): (r: bool)
  {
    |param| > 0 && IsDigit(param[0]) && MatchDigitsToEnd(param, 1)
  }

  lemma {:induction false} MatchDigitsToEndMeaning(s: string, i: nat)
    requires i <= |s|
    ensures MatchDigitsToEnd(s, i) <==> forall j :: i <= j < |s| ==> IsDigit(s[j])
    decreases |s| - i
  {
    if i < |s| {
      MatchDigitsToEndMeaning(s, i + 1);
    }
  }

  /** Accepted exactly when the string is non-empty and every character is an ASCII digit. */
  lemma IsNumberParamMeaning(param: string)
    ensures IsNumberParam(param) <==> |param| > 0 && forall j :: 0 <= j < |param| ==> IsDigit(param[j])
  {
    if |param| > 0 {
      MatchDigitsToEndMeaning(param, 1);
    }
  }

  /** The concatenation of two accepted strings is accepted. */
  lemma ConcatAccepted(a: string, b: string)
    requires IsNumberParam(a) && IsNumberParam(b)
    ensures IsNumberParam(a + b)
  {
    IsNumberParamMeaning(a);
    IsNumberParamMeaning(b);
    IsNumberParamMeaning(a + b);
  }

  /** Every decimal rendering of a natural number is accepted. */
  lemma RenderingAccepted(n: nat)
    ensures IsNumberParam(NatToString(n))
  {
    IsNumberParamMeaning(NatToString(n));
  }

  /** A digit string with leading zeros is accepted; sign, point, blank and the empty string are not. */
  lemma Examples()
    ensures IsNumberParam("007")
    ensures !IsNumberParam("")
    ensures !IsNumberParam("-1")
    ensures !IsNumberParam("1.5")
    ensures !IsNumberParam(" 1")
    ensures !IsNumberParam("1 ")
  {
    IsNumberParamMeaning("1.5");
    assert "1.5"[1] == '.';
    IsNumberParamMeaning("1 ");
    assert "1 "[1] == ' ';
  }
}
