/**
  * `createSortKey` (src/utils.ts): every character of a name becomes a two-character
  * unit, a class digit followed by the character, so that symbols sort before upper-case
  * letters and upper-case letters before lower-case letters and digits.
  */
module SortKeys {
  import opened Strings

  predicate IsAlnum(c: char)
  {
    IsUpper(c) || IsLower(c) || IsDigit(c)
  }

  /** `'0'` for a symbol, `'1'` for an upper-case letter, `'2'` for a lower-case letter or a digit. */
  function ClassDigit(c: char): char
  {
    if !IsAlnum(c) then '0' else if IsUpper(c) then '1' else '2'
  }

  /** The character as it appears in its unit: upper-case letters are lowered. */
  function Normalised(c: char): char
  {
    if !IsAlnum(c) then c else if IsUpper(c) then LowerChar(c) else c
  }

  /** The unit one character contributes to a sort key. */
  function Unit(c: char): string
  {
    [ClassDigit(c), Normalised(c)]
  }

  /** The sort key of `name`: its units, in order. */
  function SortKey(name: string): (key: string)
    ensures |key| == 2 * |name|
    ensures forall i :: 0 <= i < |name| ==> key[2 * i] == ClassDigit(name[i]) && key[2 * i + 1] == Normalised(name[i])
  {
    if name == [] then ""
    else SortKey(name[..|name| - 1]) + Unit(name[|name| - 1])
  }

  /** The loop of `createSortKey`, appending one unit per character. */
  method CreateSortKey(name: string) returns (key: string)
    ensures key == SortKey(name)
  {
    key := "";
    for i := 0 to |name|
      invariant key == SortKey(name[..i])
    {
      var c := name[i];
      if !IsAlnum(c) {
        key := key + ['0', c];
      } else if IsUpper(c) {
        key := key + ['1', LowerChar(c)];
      } else if IsLower(c) {
        key := key + ['2', c];
      } else {
        key := key + ['2', c];
      }
      assert name[..i + 1][..i] == name[..i];
    }
    assert name[..|name|] == name;
  }

  lemma UnitInjective(a: char, b: char)
    requires ClassDigit(a) == ClassDigit(b) && Normalised(a) == Normalised(b)
    ensures a == b
  {
  }

  /** Distinct names have distinct sort keys. */
  lemma SortKeyInjective(a: string, b: string)
    requires SortKey(a) == SortKey(b)
    ensures a == b
  {
    var ka, kb := SortKey(a), SortKey(b);
    assert |a| == |b|;
    forall i | 0 <= i < |a|
      ensures a[i] == b[i]
    {
      assert ka[2 * i] == kb[2 * i] && ka[2 * i + 1] == kb[2 * i + 1];
      UnitInjective(a[i], b[i]);
    }
  }

  /** A name whose first character is of an earlier class sorts first, whatever follows. */
  lemma ClassOrder(a: string, b: string)
    requires |a| > 0 && |b| > 0
    requires ClassDigit(a[0]) < ClassDigit(b[0])
    ensures Less(SortKey(a), SortKey(b))
  {
    LessAtFirstDifference(SortKey(a), SortKey(b), 0);
  }

  /** Names that share a first character compare as their remainders do. */
  lemma SameFirst(c: char, a: string, b: string)
    ensures Less(SortKey([c] + a), SortKey([c] + b)) <==> Less(SortKey(a), SortKey(b))
  {
    SortKeyPrepend(c, a);
    SortKeyPrepend(c, b);
    LessCommonPrefix(Unit(c), SortKey(a), SortKey(b));
  }

  lemma {:induction false} SortKeyPrepend(c: char, s: string)
    ensures SortKey([c] + s) == Unit(c) + SortKey(s)
  {
    if s == [] {
      assert [c] + s == [c];
      assert [c][..0] == [];
    } else {
      var init := s[..|s| - 1];
      assert ([c] + s)[..|s|] == [c] + init;
      SortKeyPrepend(c, init);
    }
  }

  /** `$`, `B`, `a` and `z` are in sort-key order, upper case meeting lower case by class. */
  lemma KeyOrderExample()
    ensures Less(SortKey("$"), SortKey("B"))
    ensures Less(SortKey("B"), SortKey("a"))
    ensures Less(SortKey("a"), SortKey("z"))
  {
    ClassOrder("$", "B");
    ClassOrder("B", "a");
    assert SortKey("a") == "2a" && SortKey("z") == "2z";
    LessAtFirstDifference(SortKey("a"), SortKey("z"), 1);
  }
}
