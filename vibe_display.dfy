/**
 * The display form of a vibe key in the summary line: a space inserted
 * before every ASCII capital letter, as `key.replace(/([A-Z])/g, ' $1')`.
 */
module VibeDisplay {

  predicate IsUpper(c: char) {
    'A' <= c <= 'Z'
  }

  /** The number of ASCII capitals in s. */
  function CountUpper(s: string): (n: nat)
    ensures n <= |s|
  {
    if s == [] then 0 else (if IsUpper(s[0]) then 1 else 0) + CountUpper(s[1..])
  }

  /** The display transform. */
  function Spaced(s: string): (r: string)
    ensures |r| == |s| + CountUpper(s)
    ensures s != [] ==> r != [] && !IsUpper(r[0])
  {
    if s == [] then []
    else (if IsUpper(s[0]) then [' ', s[0]] else [s[0]]) + Spaced(s[1..])
  }

  /** Undoes the transform: drops each space that stands right before a capital. */
  function Unspaced(t: string): (r: string)
    ensures |r| <= |t|
    decreases |t|
  {
    if t == [] then []
    else if |t| >= 2 && t[0] == ' ' && IsUpper(t[1]) then [t[1]] + Unspaced(t[2..])
    else [t[0]] + Unspaced(t[1..])
  }

  /** No key is lost: the display form determines the key. */
  lemma {:induction false} UnspacedSpaced(s: string)
    ensures Unspaced(Spaced(s)) == s
  {
    if s != [] {
      UnspacedSpaced(s[1..]);
      var rest := Spaced(s[1..]);
      if IsUpper(s[0]) {
        assert Spaced(s) == [' ', s[0]] + rest;
        assert Spaced(s)[2..] == rest;
      } else {
        assert Spaced(s) == [s[0]] + rest;
        assert Spaced(s)[1..] == rest;
        assert |Spaced(s)| >= 2 ==> !IsUpper(Spaced(s)[1]);
      }
    }
  }

  /** Every capital in the display form has a space right before it. */
  lemma {:induction false} SpacedCapitalsPreceded(s: string, i: nat)
    requires i < |Spaced(s)| && IsUpper(Spaced(s)[i])
    ensures 0 < i && Spaced(s)[i - 1] == ' '
  {
    var head := if IsUpper(s[0]) then [' ', s[0]] else [s[0]];
    assert Spaced(s) == head + Spaced(s[1..]);
    if i >= |head| {
      SpacedCapitalsPreceded(s[1..], i - |head|);
    }
  }

  /** A key without capitals is displayed as it is. */
  lemma {:induction false} SpacedWithoutCapitals(s: string)
    requires forall i :: 0 <= i < |s| ==> !IsUpper(s[i])
    ensures Spaced(s) == s
  {
    if s != [] {
      SpacedWithoutCapitals(s[1..]);
    }
  }
}
