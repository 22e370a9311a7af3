/**
 * `text.match(/\d{7,}/)?.[0]`: the phone number the add-staff command reads
 * out of the manager's message. A JavaScript regular expression match is
 * leftmost, and `{7,}` is greedy, so the match is the first run of seven or
 * more digits, taken in full.
 */
module DigitRun {
  import opened Wrappers
  import opened Strings

  /** The shortest digit run the add-staff pattern accepts. */
  const MinRun: nat := 7

  /** Seven digits in a row start at index `k` of `s`. */
  predicate WindowAt(s: string, k: int)
  {
    0 <= k && k + MinRun <= |s| && forall m :: k <= m < k + MinRun ==> IsDigit(s[m])
  }

  /** Where the run of digits that begins at `i` ends. */
  function RunEnd(s: string, i: nat): (e: nat)
    requires i <= |s|
    ensures i <= e <= |s|
    ensures forall m :: i <= m < e ==> IsDigit(s[m])
    ensures e == |s| || !IsDigit(s[e])
    decreases |s| - i
  {
    if i < |s| && IsDigit(s[i]) then RunEnd(s, i + 1) else i
  }

  /** No seven-digit window can start inside a run that ends before seven digits. */
  lemma NoWindowInShortRun(s: string, i: nat, k: int)
    requires i <= |s|
    requires RunEnd(s, i) - i < MinRun
    requires i <= k < RunEnd(s, i)
    ensures !WindowAt(s, k)
  {
    var e := RunEnd(s, i);
    assert k <= e < k + MinRun;
  }

  /** The first index at or after `i` where seven digits start, scanning run by run. */
  function FirstWindow(s: string, i: nat): (r: Option<nat>)
    requires i <= |s|
    ensures r.Some? ==> i <= r.value && WindowAt(s, r.value)
    ensures r.Some? ==> forall k :: i <= k < r.value ==> !WindowAt(s, k)
    ensures r.None? ==> forall k :: i <= k ==> !WindowAt(s, k)
    decreases |s| - i
  {
    if i == |s| then None
    else if !IsDigit(s[i]) then FirstWindow(s, i + 1)
    else
      var e := RunEnd(s, i);
      if e - i >= MinRun then Some(i)
      else
        assert forall k :: i <= k < e ==> !WindowAt(s, k) by {
          forall k | i <= k < e
            ensures !WindowAt(s, k)
          {
            NoWindowInShortRun(s, i, k);
          }
        }
        FirstWindow(s, e)
  }

  /** The matched text, or `None` when the message holds no run of seven digits. */
  function LongDigitRun(s: string): (r: Option<string>)
    ensures r.Some? <==> exists k :: WindowAt(s, k)
    ensures r.Some? ==> |r.value| >= MinRun && AllDigits(r.value)
  {
    match FirstWindow(s, 0)
    case None => None
    case Some(j) => Some(s[j..RunEnd(s, j)])
  }

  /**
   * The match is the leftmost seven-digit window, extended over every digit
   * that follows it.
   */
  lemma LongDigitRunIsLeftmostLongest(s: string, j: nat)
    requires WindowAt(s, j)
    requires forall k :: 0 <= k < j ==> !WindowAt(s, k)
    ensures LongDigitRun(s) == Some(s[j..RunEnd(s, j)])
  {
    var f := FirstWindow(s, 0);
    assert f.Some?;
    assert !(f.value < j) && !(j < f.value);
  }

  /** The number the add-staff command reads out of `добавить: +491234567890`. */
  lemma AddStaffNumber()
    ensures LongDigitRun("добавить: +491234567890") == Some("491234567890")
  {
    var a := "добавить: +";
    var d := "491234567890";
    assert a + d == "добавить: +491234567890";
    forall i | 0 <= i < |a|
      ensures !IsDigit(a[i])
    {
    }
    assert AllDigits(d);
    DigitsAfterNonDigits(a, d);
  }

  /** Text free of digits followed by a long enough run of digits yields that run. */
  lemma DigitsAfterNonDigits(a: string, d: string)
    requires forall i :: 0 <= i < |a| ==> !IsDigit(a[i])
    requires AllDigits(d) && |d| >= MinRun
    ensures LongDigitRun(a + d) == Some(d)
  {
    var t := a + d;
    forall k | 0 <= k < |a|
      ensures !WindowAt(t, k)
    {
      assert t[k] == a[k];
    }
    assert WindowAt(t, |a|) by {
      forall m | |a| <= m < |a| + MinRun
        ensures IsDigit(t[m])
      {
        assert t[m] == d[m - |a|];
      }
    }
    LongDigitRunIsLeftmostLongest(t, |a|);
    forall m | |a| <= m < |t|
      ensures IsDigit(t[m])
    {
      assert t[m] == d[m - |a|];
    }
    RunToEnd(t, |a|);
    assert t[|a|..RunEnd(t, |a|)] == d;
  }

  /** A run of digits that reaches the end of the text ends there. */
  lemma {:induction false} RunToEnd(s: string, i: nat)
    requires i <= |s| && forall m :: i <= m < |s| ==> IsDigit(s[m])
    ensures RunEnd(s, i) == |s|
    decreases |s| - i
  {
    if i < |s| {
      RunToEnd(s, i + 1);
    }
  }
}
