/** Text helpers used by the weapon detector: ASCII case mapping, substring
    search (the `k in label` test) and the weapon keyword allow-list. */
module Labels {

  /** The allow-list of weapon keywords, in source order. */
  const Keywords: seq<string> :=
    ["gun", "pistol", "rifle", "handgun", "knife", "dagger", "grenade", "weapon", "sword"]

  function LowerChar(c: char): char {
    if 'A' <= c <= 'Z' then (c as int + 32) as char else c
  }

  function UpperChar(c: char): char {
    if 'a' <= c <= 'z' then (c as int - 32) as char else c
  }

  /** `str.lower()`, restricted to ASCII letters. */
  function Lower(s: string): string {
    seq(|s|, i requires 0 <= i < |s| => LowerChar(s[i]))
  }

  /** `str.upper()`, restricted to ASCII letters. */
  function Upper(s: string): string {
    seq(|s|, i requires 0 <= i < |s| => UpperChar(s[i]))
  }

  /** Python's `needle in hay` for strings: some window of `hay` equals `needle`. */
  predicate Contains(hay: string, needle: string)
    decreases |hay|
  {
    if |hay| < |needle| then false
    else if hay[..|needle|] == needle then true
    else if |hay| == 0 then false
    else Contains(hay[1..], needle)
  }

  /** `any(k in label for k in ALLOWED_KEYWORDS)`. */
  predicate HasKeyword(s: string) {
    exists k | k in Keywords :: Contains(s, k)
  }

  /** `needle` occurs in `hay` starting at index `i`. */
  ghost predicate OccursAt(hay: string, needle: string, i: int) {
    0 <= i && i + |needle| <= |hay| && hay[i..i + |needle|] == needle
  }

  /** The recursive search agrees with the window definition of a substring, both ways. */
  lemma {:induction false} ContainsIff(hay: string, needle: string)
    ensures Contains(hay, needle) <==> exists i :: OccursAt(hay, needle, i)
  {
    if |hay| < |needle| {
    } else if hay[..|needle|] == needle {
      assert OccursAt(hay, needle, 0);
    } else if |hay| == 0 {
    } else {
      ContainsIff(hay[1..], needle);
      if exists i :: OccursAt(hay, needle, i) {
        var i :| OccursAt(hay, needle, i);
        assert i != 0;
        assert hay[1..][i - 1..i - 1 + |needle|] == hay[i..i + |needle|];
        assert OccursAt(hay[1..], needle, i - 1);
      }
      if Contains(hay[1..], needle) {
        var j :| OccursAt(hay[1..], needle, j);
        assert hay[j + 1..j + 1 + |needle|] == hay[1..][j..j + |needle|];
        assert OccursAt(hay, needle, j + 1);
      }
    }
  }

  /** Lowercasing the detector's class name first does not change the upper-case
      banner text: `label.lower().upper()` equals `label.upper()` on ASCII. */
  lemma UpperOfLower(s: string)
    ensures Upper(Lower(s)) == Upper(s)
  {
    forall i | 0 <= i < |s| ensures Upper(Lower(s))[i] == Upper(s)[i] {
      assert Lower(s)[i] == LowerChar(s[i]);
    }
  }

  /** Every keyword is already lower case, so testing the lower-cased label
      against the keywords is the same as testing it against the lower-cased
      keywords. */
  lemma KeywordsAreLowerCase()
    ensures forall k | k in Keywords :: Lower(k) == k
    ensures forall s :: HasKeyword(Lower(s)) <==> exists k | k in Keywords :: Contains(Lower(s), Lower(k))
  {
    forall k | k in Keywords ensures Lower(k) == k {
      forall i | 0 <= i < |k| ensures Lower(k)[i] == k[i] {
        assert !('A' <= k[i] <= 'Z');
      }
    }
  }

  /** No keyword occurs in "person" or "face": the exclusion of those two labels
      after the keyword test can never fire. */
  lemma PersonAndFaceHaveNoKeyword()
    ensures !HasKeyword("person") && !HasKeyword("face")
  {
    forall k | k in Keywords ensures !Contains("person", k) && !Contains("face", k) {
      ContainsIff("person", k);
      ContainsIff("face", k);
      forall i | 0 <= i && i + |k| <= |"person"| ensures !OccursAt("person", k, i) {
        var w := "person"[i..i + |k|];
        assert w[0] != k[0] || w[1] != k[1];
      }
    }
  }
}
