/**
 * String operations the naming resolver is built from: Go's `strings.Contains`
 * and the cut to the 63-character limit Kubernetes puts on object names and
 * label values (an RFC 1123 DNS label).  Strings are sequences of characters
 * and lengths count characters, where Go's `len` and slicing count bytes; the
 * two agree on ASCII input.
 */
module Names {

  /** The longest name or label value Kubernetes accepts. */
  const MaxNameLength: nat := 63

  function Min(a: int, b: int): int
  {
    if a <= b then a else b
  }

  /** Drops one trailing '-' (Go's `strings.TrimSuffix(s, "-")`). */
  function TrimDashSuffix(s: string): (r: string)
    ensures r <= s
    ensures |s| > 0 && s[|s| - 1] == '-' ==> |r| == |s| - 1
    ensures |s| == 0 || s[|s| - 1] != '-' ==> r == s
  {
    if |s| > 0 && s[|s| - 1] == '-' then s[..|s| - 1] else s
  }

  /**
   * `r` is what is left of `s` once it is made to fit a label: `s` itself when
   * it fits, otherwise its first `MaxNameLength` characters, one fewer when the
   * last of them is a '-'.
   */
  ghost predicate IsLabelCut(s: string, r: string)
  {
    && r <= s
    && |r| <= MaxNameLength
    && (|s| <= MaxNameLength ==> r == s)
    && (|s| > MaxNameLength ==> MaxNameLength - 1 <= |r|)
    && (|s| > MaxNameLength ==> (|r| == MaxNameLength <==> s[MaxNameLength - 1] != '-'))
  }

  /** `IsLabelCut` leaves no choice: a string has exactly one label cut. */
  lemma LabelCutUnique(s: string, r1: string, r2: string)
    requires IsLabelCut(s, r1) && IsLabelCut(s, r2)
    ensures r1 == r2
  {
    assert |r1| == |r2|;
    assert r1 == s[..|r1|] && r2 == s[..|r2|];
  }

  /**
   * Cuts a name to the label limit.  A name that fits is kept as it is; a
   * longer one keeps its first `MaxNameLength` characters, and a '-' that the
   * cut leaves at the end is dropped too (no ellipsis is added).
   */
  function Truncate(s: string): (r: string)
    ensures IsLabelCut(s, r)
  {
    if |s| > MaxNameLength then TrimDashSuffix(s[..MaxNameLength]) else s
  }

  /** `sub` occurs in `s` as a contiguous block; the empty string occurs in every string. */
  predicate Contains(s: string, sub: string)
    decreases |s|
  {
    sub <= s || (s != [] && Contains(s[1..], sub))
  }

  /** `sub` occurs in `s` starting at index `i`. */
  ghost predicate OccursAt(s: string, sub: string, i: int)
  {
    0 <= i && i + |sub| <= |s| && s[i..i + |sub|] == sub
  }

  /** `Contains` is the substring test: it holds exactly when `sub` occurs at some index. */
  lemma {:induction false} ContainsIffOccurs(s: string, sub: string)
    ensures Contains(s, sub) <==> exists i :: OccursAt(s, sub, i)
    decreases |s|
  {
    if sub <= s {
      assert OccursAt(s, sub, 0);
    }
    if s == [] {
      if exists i :: OccursAt(s, sub, i) {
        var i :| OccursAt(s, sub, i);
        assert sub == [];
      }
    } else {
      ContainsIffOccurs(s[1..], sub);
      if Contains(s[1..], sub) {
        var i :| OccursAt(s[1..], sub, i);
        assert s[1..][i..i + |sub|] == s[i + 1..i + 1 + |sub|];
        assert OccursAt(s, sub, i + 1);
      }
      if exists i :: OccursAt(s, sub, i) {
        var i :| OccursAt(s, sub, i);
        if i == 0 {
          assert sub <= s;
        } else {
          assert s[1..][i - 1..i - 1 + |sub|] == s[i..i + |sub|];
          assert OccursAt(s[1..], sub, i - 1);
        }
      }
    }
  }

  /** A string that contains `sub` is at least as long as `sub`. */
  lemma ContainsLength(s: string, sub: string)
    requires Contains(s, sub)
    ensures |sub| <= |s|
  {
    ContainsIffOccurs(s, sub);
  }

  /** Every string contains what it ends with. */
  lemma ContainsSuffix(a: string, b: string)
    ensures Contains(a + b, b)
  {
    assert (a + b)[|a|..|a| + |b|] == b;
    assert OccursAt(a + b, b, |a|);
    ContainsIffOccurs(a + b, b);
  }

  /** Truncating a string that already fits changes nothing. */
  lemma TruncateFits(s: string)
    requires |s| <= MaxNameLength
    ensures Truncate(s) == s
  {
  }

  /** Once a string is over the limit, what is appended after it is cut away. */
  lemma TruncateAppendOver(s: string, t: string)
    requires MaxNameLength < |s|
    ensures Truncate(s + t) == Truncate(s)
  {
    assert (s + t)[..MaxNameLength] == s[..MaxNameLength];
  }

  /**
   * A name that was cut cannot grow: appending "-" and anything non-empty to
   * it and cutting again gives the same name back.
   */
  lemma TruncateAbsorbsSuffix(s: string, u: string)
    requires MaxNameLength < |s|
    requires u != ""
    ensures Truncate(Truncate(s) + "-" + u) == Truncate(s)
  {
    var r := Truncate(s);
    var w := r + "-" + u;
    assert |w| > MaxNameLength;
    if |r| == MaxNameLength {
      assert w[..MaxNameLength] == r;
      assert r[MaxNameLength - 1] == s[MaxNameLength - 1];
    } else {
      assert |r| == MaxNameLength - 1;
      assert w[..MaxNameLength] == r + "-";
      assert (r + "-")[..|r|] == r;
    }
  }
}
