/** `generateUniqueCode`: a random UUID with its hyphens removed, cut to 25
    characters. The random UUID is the input. */
module Uuid {

  const CodeLength: nat := 25

  /** The string with every '-' removed, order kept (`replace(/-/g, "")`). */
  function StripHyphens(s: string): string
  {
    if s == [] then []
    else if s[0] == '-' then StripHyphens(s[1..])
    else [s[0]] + StripHyphens(s[1..])
  }

  /** The number of characters of `s` that are not '-'. */
  function NonHyphenCount(s: string): nat
  {
    if s == [] then 0
    else (if s[0] == '-' then 0 else 1) + NonHyphenCount(s[1..])
  }

  /** `substring(0, n)`: the first `n` characters, or all when fewer. */
  function Take(s: string, n: nat): (r: string)
    ensures |r| == if |s| < n then |s| else n
    ensures r <= s
  {
    if |s| <= n then s else s[..n]
  }

  /** For any input the code holds no '-', is a prefix of the input with its
      hyphens removed, and has 25 characters, or all of them when fewer. */
  function GenerateUniqueCode(uuid: string): (code: string)
    ensures '-' !in code
    ensures code <= StripHyphens(uuid)
    ensures |code| == if NonHyphenCount(uuid) < CodeLength then NonHyphenCount(uuid) else CodeLength
  {
    StripHyphensHasNone(uuid);
    StripHyphensLength(uuid);
    var code := Take(StripHyphens(uuid), CodeLength);
    PrefixHasNoHyphen(code, StripHyphens(uuid));
    code
  }

  lemma PrefixHasNoHyphen(p: string, s: string)
    requires p <= s && '-' !in s
    ensures '-' !in p
  {
    forall i | 0 <= i < |p| ensures p[i] != '-' {
      assert p[i] == s[i];
    }
  }

  lemma {:induction false} StripHyphensHasNone(s: string)
    ensures '-' !in StripHyphens(s)
  {
    if s != [] {
      StripHyphensHasNone(s[1..]);
    }
  }

  lemma {:induction false} StripHyphensLength(s: string)
    ensures |StripHyphens(s)| == NonHyphenCount(s)
  {
    if s != [] {
      StripHyphensLength(s[1..]);
    }
  }

  /** Stripping is the identity on strings that hold no '-'. */
  lemma {:induction false} StripHyphensKeepsPlain(s: string)
    requires '-' !in s
    ensures StripHyphens(s) == s
  {
    if s != [] {
      assert s[0] in s;
      assert forall c :: c in s[1..] ==> c in s;
      StripHyphensKeepsPlain(s[1..]);
    }
  }

  /** Stripping distributes over concatenation, which keeps character order. */
  lemma {:induction false} StripHyphensAppend(a: string, b: string)
    ensures StripHyphens(a + b) == StripHyphens(a) + StripHyphens(b)
  {
    if a != [] {
      var ab := a + b;
      assert ab[0] == a[0];
      assert ab[1..] == a[1..] + b;
      StripHyphensAppend(a[1..], b);
      if a[0] != '-' {
        assert StripHyphens(a) == [a[0]] + StripHyphens(a[1..]);
        calc {
          StripHyphens(ab);
          [a[0]] + StripHyphens(a[1..] + b);
          [a[0]] + (StripHyphens(a[1..]) + StripHyphens(b));
          ([a[0]] + StripHyphens(a[1..])) + StripHyphens(b);
        }
      } else {
        assert StripHyphens(a) == StripHyphens(a[1..]);
        assert StripHyphens(ab) == StripHyphens(a[1..] + b);
      }
    } else {
      assert a + b == b;
    }
  }

  /** A hyphen followed by hyphen-free text strips to that text. */
  lemma StripHyphenThen(p: string, rest: string)
    requires '-' !in p
    ensures StripHyphens("-" + (p + rest)) == p + StripHyphens(rest)
  {
    var x := "-" + (p + rest);
    assert x[0] == '-';
    assert x[1..] == p + rest;
    StripHyphensAppend(p, rest);
    StripHyphensKeepsPlain(p);
  }

  /** A hyphen-free group joined to the rest by one hyphen. */
  function Joined(p: string, rest: string): string
  {
    p + ("-" + rest)
  }

  /** Five hyphen-free groups joined by hyphens strip to their concatenation. */
  lemma StripFiveGroups(p0: string, p1: string, p2: string, p3: string, p4: string)
    requires '-' !in p0 && '-' !in p1 && '-' !in p2 && '-' !in p3 && '-' !in p4
    ensures StripHyphens(Joined(p0, Joined(p1, Joined(p2, Joined(p3, p4))))) == p0 + (p1 + (p2 + (p3 + p4)))
  {
    StripHyphensKeepsPlain(p4);
    StripHyphenThen(p3, "-" + p4);
    StripHyphenThen(p2, "-" + Joined(p3, p4));
    StripHyphenThen(p1, "-" + Joined(p2, Joined(p3, p4)));
    StripHyphenThen(p0, "-" + Joined(p1, Joined(p2, Joined(p3, p4))));
    var x := "-" + Joined(p0, Joined(p1, Joined(p2, Joined(p3, p4))));
    assert x[1..] == Joined(p0, Joined(p1, Joined(p2, Joined(p3, p4))));
  }

  predicate IsHexDigit(c: char)
  {
    '0' <= c <= '9' || 'a' <= c <= 'f' || 'A' <= c <= 'F'
  }

  predicate AllHex(s: string)
  {
    forall i :: 0 <= i < |s| ==> IsHexDigit(s[i])
  }

  /** The canonical 8-4-4-4-12 textual form that `randomUUID` produces. */
  predicate IsCanonicalUuid(s: string)
  {
    && |s| == 36
    && s[8] == '-' && s[13] == '-' && s[18] == '-' && s[23] == '-'
    && AllHex(s[..8]) && AllHex(s[9..13]) && AllHex(s[14..18])
    && AllHex(s[19..23]) && AllHex(s[24..])
  }

  lemma HexHasNoHyphen(s: string)
    requires AllHex(s)
    ensures '-' !in s
  {
    forall i | 0 <= i < |s| ensures s[i] != '-' {
      assert IsHexDigit(s[i]);
    }
  }

  /** A canonical UUID loses exactly its four hyphens: 32 hex digits remain. */
  lemma CanonicalUuidStripped(s: string)
    requires IsCanonicalUuid(s)
    ensures StripHyphens(s) == s[..8] + (s[9..13] + (s[14..18] + (s[19..23] + s[24..])))
    ensures |StripHyphens(s)| == 32
  {
    var p0, p1, p2, p3, p4 := s[..8], s[9..13], s[14..18], s[19..23], s[24..];
    assert s[23..] == "-" + p4;
    assert s[19..] == Joined(p3, p4);
    assert s[14..] == Joined(p2, s[19..]);
    assert s[9..] == Joined(p1, s[14..]);
    assert s == Joined(p0, s[9..]);
    HexHasNoHyphen(p0); HexHasNoHyphen(p1); HexHasNoHyphen(p2);
    HexHasNoHyphen(p3); HexHasNoHyphen(p4);
    StripFiveGroups(p0, p1, p2, p3, p4);
  }

  /** Every canonical UUID yields a code of exactly 25 characters: the first
      25 of its hex digits. */
  lemma CanonicalUuidCode(s: string)
    requires IsCanonicalUuid(s)
    ensures GenerateUniqueCode(s) == (s[..8] + (s[9..13] + (s[14..18] + (s[19..23] + s[24..]))))[..CodeLength]
    ensures |GenerateUniqueCode(s)| == CodeLength
  {
    CanonicalUuidStripped(s);
  }

  /** The documented example UUID, split into its five groups. */
  lemma ExampleGroups()
    ensures "76a3f066-b53e-4e40-94a4-78be682f2110"
         == Joined("76a3f066", Joined("b53e", Joined("4e40", Joined("94a4", "78be682f2110"))))
    ensures '-' !in "76a3f066" && '-' !in "b53e" && '-' !in "4e40" && '-' !in "94a4" && '-' !in "78be682f2110"
  {
  }

  /** The example in the documentation comment of `generateUniqueCode`. */
  lemma DocumentedExample()
    ensures GenerateUniqueCode("76a3f066-b53e-4e40-94a4-78be682f2110") == "76a3f066b53e4e4094a478be6"
  {
    ExampleGroups();
    StripFiveGroups("76a3f066", "b53e", "4e40", "94a4", "78be682f2110");
    var digits := "76a3f066" + ("b53e" + ("4e40" + ("94a4" + "78be682f2110")));
    assert digits[..CodeLength] == "76a3f066b53e4e4094a478be6";
  }
}
