/**
 * Voltage parsing (`parseVoltageLevel`): the numeric value of the first run of
 * decimal digits immediately followed by "kV" in any letter case, or 0.
 * The regular expression `(\d+)kV` with the `i` flag is modelled as an explicit
 * left-to-right scan over start positions, checked against a declarative
 * description of what the expression matches.
 */
module Voltage {
  import opened Wrappers
  import opened Strings

  predicate IsK(c: char) { c == 'k' || c == 'K' }
  predicate IsV(c: char) { c == 'v' || c == 'V' }

  /** The pattern matches at `i` with its digit group spanning `s[i..j]`. */
  predicate Capture(s: string, i: nat, j: nat) {
    i < j && j + 2 <= |s| && AllDigits(s[i..j]) && IsK(s[j]) && IsV(s[j + 1])
  }

  ghost predicate MatchesAt(s: string, i: nat) {
    exists j: nat :: Capture(s, i, j)
  }

  /** No match starts before position `k`. */
  ghost predicate NoMatchBefore(s: string, k: nat) {
    forall i: nat :: i < k ==> !MatchesAt(s, i)
  }

  /** A match's digit group is the whole digit run from its start. */
  lemma CaptureIsRun(s: string, i: nat, j: nat)
    requires Capture(s, i, j)
    ensures j == RunEnd(s, i)
  {
    var r := RunEnd(s, i);
    assert forall k :: i <= k < j ==> s[i..j][k - i] == s[k];
    assert forall k :: i <= k < r ==> s[i..r][k - i] == s[k];
  }

  /** The pattern matches at `k` iff the digit run from `k` is non-empty and followed by "kV". */
  lemma MatchesAtIff(s: string, k: nat)
    requires k <= |s|
    ensures MatchesAt(s, k) <==>
      var j := RunEnd(s, k); k < j && j + 2 <= |s| && IsK(s[j]) && IsV(s[j + 1])
  {
    var j := RunEnd(s, k);
    if MatchesAt(s, k) {
      var j' :| Capture(s, k, j');
      CaptureIsRun(s, k, j');
    }
    if k < j && j + 2 <= |s| && IsK(s[j]) && IsV(s[j + 1]) {
      assert Capture(s, k, j);
    }
  }

  /** Scan the start positions from `k` on and return the first match as (start, end of digits). */
  function FindMatch(s: string, k: nat): (r: Option<(nat, nat)>)
    requires k <= |s|
    ensures r.None? ==> forall i: nat :: k <= i ==> !MatchesAt(s, i)
    ensures r.Some? ==> k <= r.value.0 && Capture(s, r.value.0, r.value.1)
    ensures r.Some? ==> forall i: nat :: k <= i < r.value.0 ==> !MatchesAt(s, i)
    decreases |s| - k
  {
    if k == |s| then None
    else
      var j := RunEnd(s, k);
      MatchesAtIff(s, k);
      if k < j && j + 2 <= |s| && IsK(s[j]) && IsV(s[j + 1]) then Some((k, j))
      else FindMatch(s, k + 1)
  }

  /** The leftmost match is unique, digit group included. */
  lemma FirstCaptureUnique(s: string, i: nat, j: nat, i': nat, j': nat)
    requires Capture(s, i, j) && NoMatchBefore(s, i)
    requires Capture(s, i', j') && NoMatchBefore(s, i')
    ensures i == i' && j == j'
  {
    assert MatchesAt(s, i) && MatchesAt(s, i');
    CaptureIsRun(s, i, j);
    CaptureIsRun(s, i', j');
  }

  /**
   * `parseVoltageLevel`: 0 for an absent or empty field or when nothing matches,
   * otherwise the value of the digits of the leftmost match.
   */
  function ParseVoltageLevel(v: Option<string>): (r: nat)
    ensures v.None? || v == Some("") ==> r == 0
    ensures v.Some? && (forall i: nat :: !MatchesAt(v.value, i)) ==> r == 0
    ensures v.Some? ==> forall i: nat, j: nat ::
      Capture(v.value, i, j) && NoMatchBefore(v.value, i) ==> r == DigitsValue(v.value[i..j])
  {
    match v
    case None => 0
    case Some(s) =>
      if s == "" then 0
      else
        match FindMatch(s, 0)
        case None =>
          assert forall i: nat, j: nat :: Capture(s, i, j) ==> MatchesAt(s, i);
          0
        case Some((i, j)) =>
          assert MatchesAt(s, i);
          assert forall i': nat, j': nat :: Capture(s, i', j') && NoMatchBefore(s, i') ==> i' == i && j' == j by {
            forall i': nat, j': nat | Capture(s, i', j') && NoMatchBefore(s, i')
              ensures i' == i && j' == j
            {
              FirstCaptureUnique(s, i, j, i', j');
            }
          }
          DigitsValue(s[i..j])
  }

  /** Digits printed after text without digits and followed by "kV" parse back to the number. */
  lemma {:induction false} ParsePrintedVoltage(prefix: string, n: nat, suffix: string)
    requires forall i :: 0 <= i < |prefix| ==> !IsDigit(prefix[i])
    ensures ParseVoltageLevel(Some(prefix + NatToString(n) + "kV" + suffix)) == n
  {
    var ds := NatToString(n);
    var s := prefix + ds + "kV" + suffix;
    var p := |prefix|;
    assert s == prefix + ds + ("kV" + suffix);
    RunEndAfter(prefix, ds, "kV" + suffix);
    assert Capture(s, p, p + |ds|);
    forall i: nat | i < p
      ensures !MatchesAt(s, i)
    {
      assert s[i] == prefix[i];
      forall j: nat
        ensures !Capture(s, i, j)
      {
        if i < j <= |s| {
          assert s[i..j][0] == s[i];
        }
      }
    }
  }

  /** A field with no "kV" in it, in any letter case, parses to 0. */
  lemma NoUnitNoVoltage(s: string)
    requires forall i :: 0 <= i < |s| ==> !IsK(s[i])
    ensures ParseVoltageLevel(Some(s)) == 0
  {
  }
}
