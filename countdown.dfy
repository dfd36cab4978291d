/** The two pieces both confirmation pages share: the five-second redirect
    countdown and the random booking code. */
module Confirmation {
  import opened Common

  /** The countdown starts at 5. */
  const COUNTDOWN_START: nat := 5

  /** The countdown state and whether the page has already called
      `router.push` for the redirect. */
  datatype Timer = Timer(remaining: nat, redirected: bool)

  function InitialTimer(): Timer
  {
    Timer(COUNTDOWN_START, false)
  }

  /** One second passes. While the count is positive the effect has armed a
      one-second timeout that decrements it; once the count is 0 the effect
      redirects instead and arms nothing, so later seconds change nothing. */
  function Tick(t: Timer): Timer
  {
    if t.remaining > 0 then Timer(t.remaining - 1, t.remaining - 1 == 0) else t
  }

  /** The state after `n` seconds. */
  function Elapse(t: Timer, n: nat): Timer
    decreases n
  {
    if n == 0 then t else Elapse(Tick(t), n - 1)
  }

  lemma {:induction false} ElapseFrom(k: nat, n: nat)
    requires k > 0
    ensures Elapse(Timer(k, false), n).remaining == if n >= k then 0 else k - n
    ensures Elapse(Timer(k, false), n).redirected <==> n >= k
  {
    if n > 0 {
      if k == 1 {
        ElapseAfterRedirect(n - 1);
      } else {
        ElapseFrom(k - 1, n - 1);
      }
    }
  }

  lemma {:induction false} ElapseAfterRedirect(n: nat)
    ensures Elapse(Timer(0, true), n) == Timer(0, true)
  {
    if n > 0 {
      ElapseAfterRedirect(n - 1);
    }
  }

  /** From the initial state the page redirects after exactly five ticks:
      not before, and it stays redirected afterwards. */
  lemma RedirectAfterFiveTicks(n: nat)
    ensures Elapse(InitialTimer(), n).redirected <==> n >= 5
    ensures Elapse(InitialTimer(), n).remaining == if n >= 5 then 0 else 5 - n
  {
    ElapseFrom(COUNTDOWN_START, n);
  }

  // ---------------------------------------------------------------------------
  // Booking codes

  /** A character of `Number.prototype.toString(36)`. */
  predicate IsBase36(c: char)
  {
    IsDigit(c) || 'a' <= c <= 'z'
  }

  predicate IsCodeChar(c: char)
  {
    IsDigit(c) || 'A' <= c <= 'Z'
  }

  /** ASCII `toUpperCase`. */
  function UpperChar(c: char): char
  {
    if 'a' <= c <= 'z' then (c as int - 32) as char else c
  }

  lemma UpperOfBase36(c: char)
    requires IsBase36(c)
    ensures IsCodeChar(UpperChar(c))
  {
  }

  /** `prefix + Math.random().toString(36).substring(2, 8).toUpperCase()`.
      `fraction` is the part of the base-36 rendering after "0.", the only
      thing the random draw decides. */
  function BookingCode(prefix: string, fraction: string): (r: string)
    requires forall k :: 0 <= k < |fraction| ==> IsBase36(fraction[k])
    ensures prefix <= r
    ensures |r| == |prefix| + |FirstSix(fraction)|
    ensures forall k :: |prefix| <= k < |r| ==> IsCodeChar(r[k])
    ensures forall k :: 0 <= k < |r| - |prefix| ==> r[|prefix| + k] == UpperChar(fraction[k])
  {
    var n := if |fraction| < 6 then |fraction| else 6;
    var suffix := seq(n, k requires 0 <= k < n => UpperChar(fraction[k]));
    assert forall k :: 0 <= k < n ==> IsCodeChar(suffix[k]) by {
      forall k | 0 <= k < n {
        UpperOfBase36(fraction[k]);
      }
    }
    prefix + suffix
  }

  /** The first six base-36 characters of a draw, the part the code keeps. */
  function FirstSix(fraction: string): (r: string)
    ensures |r| <= 6 && r <= fraction
  {
    if |fraction| < 6 then fraction else fraction[..6]
  }

  /** Upper-casing loses nothing on base-36 characters. */
  lemma UpperCharInjective(a: char, b: char)
    requires IsBase36(a) && IsBase36(b)
    ensures UpperChar(a) == UpperChar(b) <==> a == b
  {
  }

  /** The code is determined by the first six characters of the draw and
      determines them: two draws give the same code exactly when they agree
      on those characters. */
  lemma BookingCodeOfDraw(prefix: string, f1: string, f2: string)
    requires forall k :: 0 <= k < |f1| ==> IsBase36(f1[k])
    requires forall k :: 0 <= k < |f2| ==> IsBase36(f2[k])
    ensures BookingCode(prefix, f1) == BookingCode(prefix, f2) <==> FirstSix(f1) == FirstSix(f2)
  {
    var c1 := BookingCode(prefix, f1);
    var c2 := BookingCode(prefix, f2);
    var s1 := FirstSix(f1);
    var s2 := FirstSix(f2);
    if c1 == c2 {
      assert |s1| == |s2|;
      forall k | 0 <= k < |s1|
        ensures s1[k] == s2[k]
      {
        assert c1[|prefix| + k] == c2[|prefix| + k];
        UpperCharInjective(f1[k], f2[k]);
      }
    }
    if s1 == s2 {
      assert |c1| == |c2|;
      forall k | 0 <= k < |c1|
        ensures c1[k] == c2[k]
      {
        if k >= |prefix| {
          assert f1[k - |prefix|] == s1[k - |prefix|];
          assert f2[k - |prefix|] == s2[k - |prefix|];
        }
      }
    }
  }

  /** Two independent draws can give two different codes: nothing ties the
      code a page displays to another code drawn for the same booking. */
  lemma IndependentDrawsMayDiffer(prefix: string)
    ensures BookingCode(prefix, "a") != BookingCode(prefix, "b")
  {
    assert BookingCode(prefix, "a")[|prefix|] == 'A';
    assert BookingCode(prefix, "b")[|prefix|] == 'B';
  }
}
