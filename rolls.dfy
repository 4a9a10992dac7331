/** Success/failure values standing in for the exceptions the library raises. */
module Results {

  /** A value, or the reason it could not be produced. */
  datatype Result<+T, +E> = Ok(value: T) | Err(error: E)

  /** A check that either passes or fails with a reason. */
  datatype Outcome<+E> = Pass | Fail(error: E)
}

/** Pin counts and the sequence helpers every component shares. */
module Rolls {

  /** Pins standing at the start of a frame. */
  const MaxPins := 10

  /** Frames in a full game. */
  const MaxFrames := 10

  /** Sum of a list of rolls, as Ruby's Array#sum. */
  function Sum(s: seq<int>): int
  {
    if s == [] then 0 else s[0] + Sum(s[1..])
  }

  /** Every roll knocks down between 0 and 10 pins. */
  predicate PinsInRange(s: seq<int>)
  {
    forall i :: 0 <= i < |s| ==> 0 <= s[i] <= MaxPins
  }

  /** The first k elements of s, or all of s when it is shorter (Ruby's Array#take). */
  function Take(s: seq<int>, k: nat): (t: seq<int>)
    ensures |t| == (if k < |s| then k else |s|)
    ensures t == s[..|t|]
  {
    if k < |s| then s[..k] else s
  }

  /** Sums of the short roll lists a frame can hold. */
  lemma SumOfShort(s: seq<int>)
    ensures |s| == 1 ==> Sum(s) == s[0]
    ensures |s| == 2 ==> Sum(s) == s[0] + s[1]
    ensures |s| == 3 ==> Sum(s) == s[0] + s[1] + s[2]
  {
    if |s| == 2 || |s| == 3 {
      assert s[1..][0] == s[1];
      assert s[1..][1..] == s[2..];
      if |s| == 3 {
        assert s[2..][0] == s[2] && s[2..][1..] == [];
      }
    }
  }

  lemma {:induction false} SumAppend(a: seq<int>, b: seq<int>)
    ensures Sum(a + b) == Sum(a) + Sum(b)
  {
    if a == [] {
      assert a + b == b;
    } else {
      assert (a + b)[1..] == a[1..] + b;
      SumAppend(a[1..], b);
    }
  }

  /** Rolls in range sum to something between 0 and 10 per roll. */
  lemma {:induction false} SumBounds(s: seq<int>)
    ensures PinsInRange(s) ==> 0 <= Sum(s) <= MaxPins * |s|
  {
    if s != [] && PinsInRange(s) {
      assert PinsInRange(s[1..]) by {
        forall i | 0 <= i < |s[1..]| ensures 0 <= s[1..][i] <= MaxPins {
          assert s[1..][i] == s[i + 1];
        }
      }
      SumBounds(s[1..]);
    }
  }

  /** Taking k elements of a concatenation takes from the front part first. */
  lemma TakeAppend(a: seq<int>, b: seq<int>, k: nat)
    ensures Take(a + b, k) == Take(a, k) + Take(b, k - |Take(a, k)|)
  {
    if k <= |a| {
      assert (a + b)[..k] == a[..k];
    } else {
      if k < |a| + |b| {
        assert (a + b)[..k] == a + b[..k - |a|];
      }
    }
  }

  lemma TakeInRange(s: seq<int>, k: nat)
    requires PinsInRange(s)
    ensures PinsInRange(Take(s, k))
  {
    var t := Take(s, k);
    forall i | 0 <= i < |t| ensures 0 <= t[i] <= MaxPins {
      assert t[i] == s[i];
    }
  }
}
