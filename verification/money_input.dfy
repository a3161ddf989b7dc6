/**
 * The money input field: an edit reaches the screen only when the whole
 * new text matches `^\d*\.?\d{0,2}$`, that is, decimal digits with at most
 * one point and at most two digits after it. `\d` is read here as the
 * digits 0-9.
 */
module MoneyInput {
  import opened Common
  import opened Text

  /** `s[..i]` are the digits, `s[i..j]` the optional point and `s[j..]` at most two digits. */
  predicate FitsAt(s: string, i: int, j: int) {
    && 0 <= i <= j <= |s| && j <= i + 1
    && AllDigits(s[..i]) && (j == i + 1 ==> s[i] == '.')
    && AllDigits(s[j..]) && |s| - j <= 2
  }

  /** The regular expression read literally: digits, an optional point, then at most two digits. */
  ghost predicate RegexMatches(s: string) {
    exists i, j :: FitsAt(s, i, j)
  }

  /** The index of the first '.', or `|s|` when there is none. */
  function PointIndex(s: string): (k: nat)
    ensures k <= |s|
    ensures k < |s| ==> s[k] == '.'
    ensures forall i :: 0 <= i < k ==> s[i] != '.'
  {
    if s == [] then 0
    else if s[0] == '.' then 0
    else 1 + PointIndex(s[1..])
  }

  /** The acceptance test, computed: all digits, or digits, one point and at most two digits. */
  function Accepts(s: string): bool {
    var k := PointIndex(s);
    if k == |s| then AllDigits(s)
    else AllDigits(s[..k]) && AllDigits(s[k + 1..]) && |s| - (k + 1) <= 2
  }

  /** Accepted text matches the expression, split at its first point. */
  lemma AcceptedMatches(s: string)
    requires Accepts(s)
    ensures RegexMatches(s)
  {
    var k := PointIndex(s);
    if k == |s| {
      assert s[..|s|] == s && s[|s|..] == [];
      assert FitsAt(s, |s|, |s|);
    } else {
      assert FitsAt(s, k, k + 1);
    }
  }

  /** Text that matches the expression passes the computed test. */
  lemma MatchedAccepted(s: string, i: int, j: int)
    requires FitsAt(s, i, j)
    ensures Accepts(s)
  {
    assert forall m :: 0 <= m < i ==> s[m] == s[..i][m];
    assert forall m :: j <= m < |s| ==> s[m] == s[j..][m - j];
    var k := PointIndex(s);
    if j == i {
      assert forall m :: 0 <= m < |s| ==> IsDigit(s[m]);
      assert k == |s|;
    } else {
      assert k == i;
      assert s[k + 1..] == s[j..];
    }
  }

  /** The computed test accepts exactly what the expression matches. */
  lemma AcceptsIsRegex(s: string)
    ensures Accepts(s) <==> RegexMatches(s)
  {
    if Accepts(s) {
      AcceptedMatches(s);
    }
    if RegexMatches(s) {
      var i, j :| FitsAt(s, i, j);
      MatchedAccepted(s, i, j);
    }
  }

  /** What the field shows after the user types `typed` over `value`: the new text when accepted, the old one otherwise. */
  function OnValueChange(value: string, typed: string): (r: string)
    ensures Accepts(typed) ==> r == typed
    ensures !Accepts(typed) ==> r == value
  {
    if Accepts(typed) then typed else value
  }

  /** Accepted text is made of ASCII digits and at most one point, with at most two digits after it. */
  lemma AcceptedShape(s: string)
    requires Accepts(s)
    ensures forall i :: 0 <= i < |s| ==> IsDigit(s[i]) || s[i] == '.'
    ensures forall i, j :: 0 <= i < j < |s| && s[i] == '.' ==> s[j] != '.'
    ensures forall i :: 0 <= i < |s| && s[i] == '.' ==> |s| - (i + 1) <= 2
  {
    var k := PointIndex(s);
    assert forall m :: 0 <= m < k ==> s[m] == s[..k][m];
    if k < |s| {
      assert forall m :: k < m < |s| ==> s[m] == s[k + 1..][m - k - 1];
    }
  }

  /** Any character other than a digit or a point (a sign, an exponent, a comma, a space) is refused. */
  lemma ForeignCharRejected(s: string, i: int)
    requires 0 <= i < |s| && !IsDigit(s[i]) && s[i] != '.'
    ensures !Accepts(s)
  {
    if Accepts(s) {
      AcceptedShape(s);
    }
  }

  /** Every prefix of an accepted text is accepted, so deleting from the end never locks the field. */
  lemma PrefixClosed(s: string, n: nat)
    requires Accepts(s) && n <= |s|
    ensures Accepts(s[..n])
  {
    AcceptsIsRegex(s);
    var i, j :| FitsAt(s, i, j);
    var t := s[..n];
    if n <= i {
      assert forall m :: 0 <= m < n ==> t[..n][m] == s[..i][m];
      assert t[n..] == [];
      assert FitsAt(t, n, n);
    } else {
      // n is past the digits before the point, hence past the point too
      assert t[..i] == s[..i];
      assert forall m :: 0 <= m < n - j ==> t[j..][m] == s[j..][m];
      assert FitsAt(t, i, j);
    }
    AcceptsIsRegex(t);
  }

  /** The texts a user passes through while typing an amount are accepted; signs, exponents, commas, spaces and a third decimal are not. */
  lemma Examples()
    ensures Accepts("") && Accepts(".") && Accepts("5.") && Accepts(".5") && Accepts("12.34")
    ensures !Accepts("-5") && !Accepts("+5") && !Accepts("1e5") && !Accepts("1,5") && !Accepts("1 5")
    ensures !Accepts("1.234") && !Accepts("1.2.3")
  {
    assert PointIndex("5.") == 1;
    assert PointIndex(".5") == 0;
    assert PointIndex("12.34") == 2 by {
      assert "12.34"[1..] == "2.34";
      assert "2.34"[1..] == ".34";
    }
    ForeignCharRejected("-5", 0);
    ForeignCharRejected("+5", 0);
    ForeignCharRejected("1e5", 1);
    ForeignCharRejected("1,5", 1);
    ForeignCharRejected("1 5", 1);
    assert PointIndex("1.234") == 1;
    assert PointIndex("1.2.3") == 1;
    assert "1.2.3"[2..] == "2.3";
  }
}
