/** Version precedence and the floor policies built on it. */
module Lexicographic {
  /** A three-way comparison that orders its type. */
  ghost predicate Orders<T(!new)>(cmp: (T, T) -> int) {
    && (forall x, y :: cmp(x, y) == -cmp(y, x))
    && (forall x, y, z :: cmp(x, y) <= 0 && cmp(y, z) <= 0 ==> cmp(x, z) <= 0)
    && (forall x, y, z :: cmp(x, y) < 0 && cmp(y, z) <= 0 ==> cmp(x, z) < 0)
    && (forall x, y, z :: cmp(x, y) <= 0 && cmp(y, z) < 0 ==> cmp(x, z) < 0)
  }

  /** How tuples and strings compare: first difference decides, else the shorter one is smaller. */
  function Compare<T>(a: seq<T>, b: seq<T>, cmp: (T, T) -> int): int {
    if a == [] then (if b == [] then 0 else -1)
    else if b == [] then 1
    else if cmp(a[0], b[0]) != 0 then cmp(a[0], b[0])
    else Compare(a[1..], b[1..], cmp)
  }

  lemma {:induction false} CompareFlips<T(!new)>(a: seq<T>, b: seq<T>, cmp: (T, T) -> int)
    requires Orders(cmp)
    ensures Compare(a, b, cmp) == -Compare(b, a, cmp)
    decreases |a|
  {
    if a != [] && b != [] {
      assert cmp(a[0], b[0]) == -cmp(b[0], a[0]);
      CompareFlips(a[1..], b[1..], cmp);
    }
  }

  lemma {:induction false} CompareChains<T(!new)>(a: seq<T>, b: seq<T>, c: seq<T>, cmp: (T, T) -> int)
    requires Orders(cmp) && Compare(a, b, cmp) <= 0 && Compare(b, c, cmp) <= 0
    ensures Compare(a, c, cmp) <= 0
    ensures Compare(a, b, cmp) < 0 || Compare(b, c, cmp) < 0 ==> Compare(a, c, cmp) < 0
    decreases |a|
  {
    if a != [] && b != [] && c != [] {
      var x, y, z := a[0], b[0], c[0];
      assert cmp(x, y) <= 0 && cmp(y, z) <= 0;
      if cmp(x, y) == 0 && cmp(y, z) == 0 {
        assert cmp(y, x) == 0 && cmp(z, y) == 0;
        assert cmp(x, z) <= 0 && cmp(z, x) <= 0;
        CompareChains(a[1..], b[1..], c[1..], cmp);
      }
    }
  }

  /** The first-difference reading of the same comparison. */
  ghost predicate BelowAt<T>(a: seq<T>, b: seq<T>, less: (T, T) -> bool, k: nat) {
    && k <= |a| && k <= |b|
    && (forall i :: 0 <= i < k ==> !less(a[i], b[i]) && !less(b[i], a[i]))
    && (if k < |a| && k < |b| then less(a[k], b[k]) else k == |a| && k < |b|)
  }

  ghost predicate Below<T>(a: seq<T>, b: seq<T>, less: (T, T) -> bool) {
    exists k: nat :: BelowAt(a, b, less, k)
  }

  /** `less` is the strict part of `cmp`. */
  ghost predicate Strict<T(!new)>(cmp: (T, T) -> int, less: (T, T) -> bool) {
    forall x, y :: less(x, y) <==> cmp(x, y) < 0
  }

  lemma {:induction false} CompareIsBelow<T(!new)>(a: seq<T>, b: seq<T>, cmp: (T, T) -> int, less: (T, T) -> bool)
    requires Orders(cmp) && Strict(cmp, less)
    ensures Compare(a, b, cmp) < 0 <==> Below(a, b, less)
    decreases |a|
  {
    if a == [] || b == [] {
      if a == [] && b != [] { assert BelowAt(a, b, less, 0); }
    } else {
      var x, y := a[0], b[0];
      assert cmp(x, y) == -cmp(y, x);
      assert less(x, y) <==> cmp(x, y) < 0;
      assert less(y, x) <==> cmp(y, x) < 0;
      if cmp(x, y) < 0 {
        assert BelowAt(a, b, less, 0);
      } else if cmp(x, y) == 0 {
        CompareIsBelow(a[1..], b[1..], cmp, less);
        BelowTail(a, b, less);
      }
    }
  }

  lemma BelowTail<T>(a: seq<T>, b: seq<T>, less: (T, T) -> bool)
    requires a != [] && b != [] && !less(a[0], b[0]) && !less(b[0], a[0])
    ensures Below(a, b, less) <==> Below(a[1..], b[1..], less)
  {
    if Below(a, b, less) {
      var k: nat :| BelowAt(a, b, less, k);
      assert k > 0;
      assert forall i :: 0 <= i < k - 1 ==> a[1..][i] == a[i + 1] && b[1..][i] == b[i + 1];
      assert BelowAt(a[1..], b[1..], less, k - 1);
    }
    if Below(a[1..], b[1..], less) {
      var k: nat :| BelowAt(a[1..], b[1..], less, k);
      forall i | 0 <= i < k + 1 ensures !less(a[i], b[i]) && !less(b[i], a[i]) {
        if i > 0 { assert a[i] == a[1..][i - 1] && b[i] == b[1..][i - 1]; }
      }
      assert BelowAt(a, b, less, k + 1);
    }
  }

  function MaxBy<T>(a: T, b: T, cmp: (T, T) -> int): T { if cmp(a, b) >= 0 then a else b }

  lemma MaxByAlgebra<T(!new)>(a: T, b: T, c: T, cmp: (T, T) -> int)
    requires Orders(cmp)
    ensures MaxBy(MaxBy(a, b, cmp), c, cmp) == MaxBy(a, MaxBy(b, c, cmp), cmp)
    ensures cmp(MaxBy(a, b, cmp), MaxBy(b, a, cmp)) == 0
  {
    assert cmp(a, b) == -cmp(b, a) && cmp(b, c) == -cmp(c, b) && cmp(a, c) == -cmp(c, a);
    assert cmp(a, a) == 0 && cmp(b, b) == 0;
  }

  lemma {:induction false} CompareEqual<T(!new)>(a: seq<T>, b: seq<T>, cmp: (T, T) -> int)
    requires forall x, y :: cmp(x, y) == 0 ==> x == y
    requires Compare(a, b, cmp) == 0
    ensures a == b
    decreases |a|
  {
    if a != [] && b != [] {
      assert a[0] == b[0];
      CompareEqual(a[1..], b[1..], cmp);
      assert a == [a[0]] + a[1..] && b == [b[0]] + b[1..];
    }
  }
}

module UpdateCheck {
  import opened Basics
  import opened Text
  import opened Version
  import opened Lexicographic

  // ----- the comparison key -----

  /** One pre-release identifier as a uniform triple. */
  datatype IdKey = IdKey(tier: int, number: nat, text: string)

  datatype Key = Key(major: nat, minor: nat, patch: nat, tier: int, ids: seq<IdKey>)

  function Split(s: string): (r: seq<string>)
    ensures r != []
  {
    if s == "" then [""]
    else
      var rest := Split(s[1..]);
      if s[0] == '.' then [""] + rest else [[s[0]] + rest[0]] + rest[1..]
  }

  predicate Numeric(id: string) { id != "" && forall i :: 0 <= i < |id| ==> IsDigit(id[i]) }

  function Number(id: string): nat
    requires Numeric(id)
  {
    assert forall i :: 0 <= i < |id| ==> DigitValue(id[i]).Some?;
    NumValue(id)
  }

  function IdentifierKey(id: string): IdKey {
    if Numeric(id) then IdKey(0, Number(id), "") else IdKey(1, 0, id)
  }

  function IdentifierKeys(ids: seq<string>): (r: seq<IdKey>)
    ensures |r| == |ids| && forall i :: 0 <= i < |ids| ==> r[i] == IdentifierKey(ids[i])
  {
    if ids == [] then [] else [IdentifierKey(ids[0])] + IdentifierKeys(ids[1..])
  }

  function CmpKey(v: Version): Key {
    match v.pre
    case None => Key(v.major, v.minor, v.patch, 1, [])
    case Some(pre) => Key(v.major, v.minor, v.patch, 0, IdentifierKeys(Split(pre)))
  }

  function CompareInt(a: int, b: int): int { if a < b then -1 else if a == b then 0 else 1 }
  function CompareChar(a: char, b: char): int { CompareInt(a as int, b as int) }

  function Then(first: int, second: int): int { if first != 0 then first else second }

  function CompareId(a: IdKey, b: IdKey): int {
    Then(CompareInt(a.tier, b.tier), Then(CompareInt(a.number, b.number), Compare(a.text, b.text, CompareChar)))
  }

  function CompareKey(a: Key, b: Key): int {
    Then(CompareInt(a.major, b.major),
    Then(CompareInt(a.minor, b.minor),
    Then(CompareInt(a.patch, b.patch),
    Then(CompareInt(a.tier, b.tier), Compare(a.ids, b.ids, CompareId)))))
  }

  function Rank(a: Version, b: Version): int { CompareKey(CmpKey(a), CmpKey(b)) }

  // ----- precedence, as item 11 of Semantic Versioning 2.0.0 words it -----

  predicate CharLess(a: char, b: char) { a < b }

  /** 11.4.1-3: numbers numerically, text in ASCII order, numbers before text. */
  ghost predicate IdLess(a: string, b: string) {
    if Numeric(a) then (if Numeric(b) then Number(a) < Number(b) else true)
    else !Numeric(b) && Below(a, b, CharLess)
  }

  predicate DotFree(s: string) { forall i :: 0 <= i < |s| ==> s[i] != '.' }

  function Join(ids: seq<string>): string
    requires ids != []
  {
    if |ids| == 1 then ids[0] else ids[0] + "." + Join(ids[1..])
  }

  /** The dot-separated identifiers of `pre`. */
  ghost predicate Identifiers(ids: seq<string>, pre: string) {
    ids != [] && (forall i :: 0 <= i < |ids| ==> DotFree(ids[i])) && Join(ids) == pre
  }

  ghost predicate PreBelow(a: string, b: string) {
    exists x, y :: Identifiers(x, a) && Identifiers(y, b) && Below(x, y, IdLess)
  }

  /** 11.2-4: core first, then a pre-release before its release, then identifiers left to right. */
  ghost predicate Precedes(a: Version, b: Version) {
    if a.major != b.major then a.major < b.major
    else if a.minor != b.minor then a.minor < b.minor
    else if a.patch != b.patch then a.patch < b.patch
    else a.pre.Some? && (b.pre.None? || PreBelow(a.pre.value, b.pre.value))
  }

  lemma {:induction false} SplitDotFree(s: string)
    ensures forall i :: 0 <= i < |Split(s)| ==> DotFree(Split(s)[i])
  {
    if s != "" {
      SplitDotFree(s[1..]);
      var rest := Split(s[1..]);
      assert DotFree(rest[0]);
    }
  }

  lemma JoinHead(ids: seq<string>)
    requires ids != []
    ensures Join(ids) == ids[0] + if |ids| == 1 then "" else "." + Join(ids[1..])
  {
    assert ids[0] + "" == ids[0];
    if |ids| > 1 { assert ids[0] + "." + Join(ids[1..]) == ids[0] + ("." + Join(ids[1..])); }
  }

  lemma HeadNotShorter(a: string, b: string, r: string, q: string)
    requires DotFree(b) && (r == "" || r[0] == '.') && a + r == b + q
    ensures |a| >= |b|
  {
    var s := a + r;
    assert forall i :: 0 <= i < |b| ==> s[i] == b[i];
    assert r != "" ==> s[|a|] == '.';
  }

  lemma HeadsAgree(a: string, b: string, r: string, q: string)
    requires DotFree(a) && DotFree(b) && (r == "" || r[0] == '.') && (q == "" || q[0] == '.') && a + r == b + q
    ensures a == b && r == q
  {
    var s := a + r;
    HeadNotShorter(a, b, r, q);
    HeadNotShorter(b, a, q, r);
    assert a == s[..|a|] && b == (b + q)[..|b|];
    assert r == s[|a|..] && q == (b + q)[|b|..];
  }

  /** There is one way to read a text as dot-separated identifiers. */
  lemma {:induction false} IdentifiersUnique(a: seq<string>, b: seq<string>, pre: string)
    requires Identifiers(a, pre) && Identifiers(b, pre)
    ensures a == b
    decreases |a|
  {
    JoinHead(a);
    JoinHead(b);
    var r, q := if |a| == 1 then "" else "." + Join(a[1..]), if |b| == 1 then "" else "." + Join(b[1..]);
    assert DotFree(a[0]) && DotFree(b[0]);
    HeadsAgree(a[0], b[0], r, q);
    if |a| > 1 {
      assert r[1..] == Join(a[1..]) && q[1..] == Join(b[1..]);
      assert forall i :: 0 <= i < |a[1..]| ==> a[1..][i] == a[i + 1];
      assert forall i :: 0 <= i < |b[1..]| ==> b[1..][i] == b[i + 1];
      IdentifiersUnique(a[1..], b[1..], Join(a[1..]));
      assert a == [a[0]] + a[1..] && b == [b[0]] + b[1..];
    }
  }

  /** Splitting gives those identifiers. */
  lemma SplitsExactly(s: string, ids: seq<string>)
    ensures ids == Split(s) <==> Identifiers(ids, s)
  {
    SplitJoin(s);
    SplitDotFree(s);
    if Identifiers(ids, s) { IdentifiersUnique(ids, Split(s), s); }
  }

  lemma PreBelowIsSplit(a: string, b: string)
    ensures PreBelow(a, b) <==> Below(Split(a), Split(b), IdLess)
  {
    SplitsExactly(a, Split(a));
    SplitsExactly(b, Split(b));
    if PreBelow(a, b) {
      var x, y :| Identifiers(x, a) && Identifiers(y, b) && Below(x, y, IdLess);
      SplitsExactly(a, x);
      SplitsExactly(b, y);
    }
  }

  /** A numeric identifier is some zeros and then its value in decimal, or zeros alone. */
  lemma {:induction false} NumberReads(id: string) returns (k: nat)
    requires Numeric(id)
    ensures k < |id| && (forall i :: 0 <= i < k ==> id[i] == '0') && id[k..] == Decimal(Number(id))
  {
    if id[0] == '0' && |id| > 1 {
      var rest := id[1..];
      k := NumberReads(rest);
      LeadingZero(rest);
      assert id == "0" + rest;
      k := k + 1;
      assert id[k..] == rest[k - 1..];
      forall i | 0 <= i < k ensures id[i] == '0' { if i > 0 { assert id[i] == rest[i - 1]; } }
    } else {
      k := 0;
      CanonicalDecimal(id);
      assert id[0..] == id;
    }
  }

  lemma {:induction false} LeadingZero(s: string)
    requires Digits(s)
    ensures Digits("0" + s) && NumValue("0" + s) == NumValue(s)
    decreases |s|
  {
    assert forall i :: 0 <= i < |"0" + s| ==> DigitValue(("0" + s)[i]).Some?;
    if s == "" {
      assert ("0" + s)[..0] == "";
      assert NumValue("") == 0;
    } else {
      var t := s[..|s| - 1];
      LeadingZero(t);
      assert ("0" + s)[..|s|] == "0" + t;
    }
  }

  lemma CharsOrder()
    ensures Orders(CompareChar) && Strict(CompareChar, CharLess)
    ensures forall x, y :: CompareChar(x, y) == 0 ==> x == y
  {
  }

  lemma IdsOrder()
    ensures Orders(CompareId)
    ensures forall x, y :: CompareId(x, y) == 0 ==> x == y
  {
    CharsOrder();
    forall x: IdKey, y: IdKey ensures CompareId(x, y) == -CompareId(y, x) && (CompareId(x, y) == 0 ==> x == y) {
      CompareFlips(x.text, y.text, CompareChar);
      if CompareId(x, y) == 0 { CompareEqual(x.text, y.text, CompareChar); }
    }
    forall x: IdKey, y: IdKey, z: IdKey | CompareId(x, y) <= 0 && CompareId(y, z) <= 0
      ensures CompareId(x, z) <= 0 && (CompareId(x, y) < 0 || CompareId(y, z) < 0 ==> CompareId(x, z) < 0)
    {
      if Compare(x.text, y.text, CompareChar) <= 0 && Compare(y.text, z.text, CompareChar) <= 0 {
        CompareChains(x.text, y.text, z.text, CompareChar);
      }
    }
  }

  /** Comparing keys is a total preorder on versions. */
  lemma RankIsTotalPreorder(a: Version, b: Version, c: Version)
    ensures Rank(a, b) == -Rank(b, a)
    ensures Rank(a, b) <= 0 && Rank(b, c) <= 0 ==> Rank(a, c) <= 0
    ensures (Rank(a, b) < 0 && Rank(b, c) <= 0) || (Rank(a, b) <= 0 && Rank(b, c) < 0) ==> Rank(a, c) < 0
  {
    IdsOrder();
    var (x, y, z) := (CmpKey(a).ids, CmpKey(b).ids, CmpKey(c).ids);
    CompareFlips(x, y, CompareId);
    if Compare(x, y, CompareId) <= 0 && Compare(y, z, CompareId) <= 0 {
      CompareChains(x, y, z, CompareId);
    }
  }

  /** An identifier sorts below another exactly when its key does. */
  lemma IdRank(a: string, b: string)
    ensures CompareId(IdentifierKey(a), IdentifierKey(b)) < 0 <==> IdLess(a, b)
  {
    CharsOrder();
    CompareIsBelow(a, b, CompareChar, CharLess);
  }

  lemma {:induction false} IdsRank(a: seq<string>, b: seq<string>)
    ensures Compare(IdentifierKeys(a), IdentifierKeys(b), CompareId) < 0 <==> Below(a, b, IdLess)
    decreases |a|
  {
    var ka, kb := IdentifierKeys(a), IdentifierKeys(b);
    if a == [] || b == [] {
      if a == [] && b != [] { assert BelowAt(a, b, IdLess, 0); }
    } else {
      IdsOrder();
      assert CompareId(ka[0], kb[0]) == -CompareId(kb[0], ka[0]);
      IdRank(a[0], b[0]);
      IdRank(b[0], a[0]);
      if CompareId(ka[0], kb[0]) < 0 {
        assert BelowAt(a, b, IdLess, 0);
      } else if CompareId(ka[0], kb[0]) == 0 {
        assert ka[1..] == IdentifierKeys(a[1..]) && kb[1..] == IdentifierKeys(b[1..]);
        IdsRank(a[1..], b[1..]);
        BelowTail(a, b, IdLess);
      }
    }
  }

  /** The key order is the precedence of Semantic Versioning 2.0.0; build metadata plays no part. */
  lemma RankIsPrecedence(a: Version, b: Version)
    ensures Rank(a, b) < 0 <==> Precedes(a, b)
  {
    if a.pre.Some? && b.pre.Some? {
      IdsRank(Split(a.pre.value), Split(b.pre.value));
      PreBelowIsSplit(a.pre.value, b.pre.value);
    }
  }

  /** A numeric identifier without a superfluous leading zero. */
  predicate Canonical(id: string) { Numeric(id) && |id| > 1 ==> id[0] != '0' }

  predicate CanonicalPre(v: Version) {
    v.pre.Some? ==> forall i :: 0 <= i < |Split(v.pre.value)| ==> Canonical(Split(v.pre.value)[i])
  }

  lemma {:induction false} SplitJoin(s: string)
    ensures Join(Split(s)) == s
  {
    if s != "" {
      SplitJoin(s[1..]);
      var rest := Split(s[1..]);
      assert s == [s[0]] + s[1..];
      if s[0] == '.' {
        assert ([""] + rest)[1..] == rest;
      } else {
        var r := [[s[0]] + rest[0]] + rest[1..];
        assert r[1..] == rest[1..];
        if |rest| > 1 { assert Join(rest) == rest[0] + "." + Join(rest[1..]); }
      }
    }
  }

  lemma IdKeyInjective(a: string, b: string)
    requires Canonical(a) && Canonical(b) && IdentifierKey(a) == IdentifierKey(b)
    ensures a == b
  {
    if Numeric(a) && Numeric(b) {
      CanonicalDecimal(a);
      CanonicalDecimal(b);
    }
  }

  lemma CanonicalDecimal(id: string)
    requires Numeric(id) && Canonical(id)
    ensures Decimal(Number(id)) == id
  {
    if id[0] == '0' {
      assert id == "0" && id[..0] == "";
      assert NumValue("") == 0 && Number(id) == 0;
      assert Decimal(0) == [Digit(0)];
    } else {
      ValueDecimal(id);
    }
  }

  /** Without superfluous zeros, equal precedence means equal up to build metadata. */
  lemma EqualRankMeansSame(a: Version, b: Version)
    requires CanonicalPre(a) && CanonicalPre(b)
    ensures Rank(a, b) == 0 <==> a.(build := None) == b.(build := None)
  {
    IdsOrder();
    if Rank(a, b) == 0 {
      if a.pre.Some? && b.pre.Some? {
        var x, y := Split(a.pre.value), Split(b.pre.value);
        CompareEqual(IdentifierKeys(x), IdentifierKeys(y), CompareId);
        forall i | 0 <= i < |x| ensures |y| == |x| && x[i] == y[i] {
          assert IdentifierKeys(x)[i] == IdentifierKeys(y)[i];
          assert Canonical(x[i]) && Canonical(y[i]);
          IdKeyInjective(x[i], y[i]);
        }
        assert |x| == |y|;
        assert x == y;
        SplitJoin(a.pre.value);
        SplitJoin(b.pre.value);
      }
    } else {
      if CmpKey(a) == CmpKey(b) { CompareFlips(CmpKey(a).ids, CmpKey(a).ids, CompareId); }
    }
  }

  // ----- maximum, channel, floors -----

  function SemverMax(a: string, b: string): Option<string> {
    match (Parse(a), Parse(b))
    case (Some(va), Some(vb)) => Some(Print(if Rank(va, vb) >= 0 then va else vb))
    case _ => None
  }

  /** The greater version comes back in canonical form, whichever argument held it. */
  lemma MaxIsUpperBound(a: string, b: string)
    ensures SemverMax(a, b).Some? <==> Parse(a).Some? && Parse(b).Some?
    ensures SemverMax(a, b).Some? ==>
      && Parse(SemverMax(a, b).value).Some?
      && var m := Parse(SemverMax(a, b).value).value;
         (m == Parse(a).value || m == Parse(b).value) && Rank(m, Parse(a).value) >= 0 && Rank(m, Parse(b).value) >= 0
  {
    if SemverMax(a, b).Some? {
      var va, vb := Parse(a).value, Parse(b).value;
      ParsedIsWellFormed(a);
      ParsedIsWellFormed(b);
      PrintThenParse(va);
      PrintThenParse(vb);
      RankIsTotalPreorder(va, vb, va);
      RankIsTotalPreorder(va, va, va);
      RankIsTotalPreorder(vb, vb, vb);
    }
  }

  function MaxOf(a: Version, b: Version): Version { MaxBy(a, b, Rank) }

  lemma RankOrders()
    ensures Orders(Rank)
  {
    forall x: Version, y: Version ensures Rank(x, y) == -Rank(y, x) { RankIsTotalPreorder(x, y, x); }
    forall x: Version, y: Version, z: Version | Rank(x, y) <= 0 && Rank(y, z) <= 0
      ensures Rank(x, z) <= 0 && (Rank(x, y) < 0 || Rank(y, z) < 0 ==> Rank(x, z) < 0)
    {
      RankIsTotalPreorder(x, y, z);
    }
  }

  lemma MaxReparses(a: string, b: string, x: Version, y: Version)
    requires Parse(a) == Some(x) && Parse(b) == Some(y)
    ensures SemverMax(a, b) == Some(Print(MaxOf(x, y))) && Parse(Print(MaxOf(x, y))) == Some(MaxOf(x, y))
  {
    var m := MaxOf(x, y);
    assert WellFormed(m) by {
      ParsedIsWellFormed(a);
      ParsedIsWellFormed(b);
    }
    PrintThenParse(m);
  }

  lemma MaxOfAlgebra(x: Version, y: Version, z: Version)
    ensures MaxOf(MaxOf(x, y), z) == MaxOf(x, MaxOf(y, z))
    ensures Rank(MaxOf(x, y), MaxOf(y, x)) == 0
  {
    RankOrders();
    MaxByAlgebra(x, y, z, Rank);
  }

  /** Associative outright: the leftmost of the greatest wins either way. */
  lemma MaxAssociates(a: string, b: string, c: string, ab: string, bc: string)
    requires SemverMax(a, b) == Some(ab) && SemverMax(b, c) == Some(bc)
    ensures SemverMax(ab, c) == SemverMax(a, bc)
  {
    var x, y, z := Parse(a).value, Parse(b).value, Parse(c).value;
    MaxReparses(a, b, x, y);
    MaxReparses(b, c, y, z);
    assert ab == Print(MaxOf(x, y)) && bc == Print(MaxOf(y, z));
    MaxReparses(ab, c, MaxOf(x, y), z);
    MaxReparses(a, bc, x, MaxOf(y, z));
    MaxOfAlgebra(x, y, z);
  }

  /** Commutative up to equal precedence. */
  lemma MaxCommutes(a: string, b: string, ab: string, ba: string)
    requires SemverMax(a, b) == Some(ab) && SemverMax(b, a) == Some(ba)
    ensures Parse(ab).Some? && Parse(ba).Some? && Rank(Parse(ab).value, Parse(ba).value) == 0
  {
    var x, y := Parse(a).value, Parse(b).value;
    MaxReparses(a, b, x, y);
    MaxReparses(b, a, y, x);
    MaxOfAlgebra(x, y, x);
  }

  function DeriveChannel(current: string, stable: string): Option<string> {
    match (Parse(current), Parse(stable))
    case (Some(c), Some(s)) => Some(if Rank(c, s) > 0 then "alpha" else "stable")
    case _ => None
  }

  datatype Decision = Allow | BelowMinimum(current: string, minimum: string)
  datatype FloorError = InvalidMinimum(value: string) | TargetBelowFloor(target: string, minimum: string)

  function EvaluateMinimum(current: string, minimum: Option<string>): Result<Decision, FloorError> {
    var min := if minimum.Some? then Strip(minimum.value) else "";
    if min == "" then Ok(Allow)
    else match Parse(min)
      case None => Err(InvalidMinimum(min))
      case Some(m) =>
        match Parse(current)
        case None => Ok(BelowMinimum(current, Print(m)))
        case Some(c) => if Rank(c, m) >= 0 then Ok(Allow) else Ok(BelowMinimum(Print(c), Print(m)))
  }

  function PickTarget(latest: Option<string>, minimum: string): string {
    match (if latest.Some? then Parse(latest.value) else None)
    case None => minimum
    case Some(l) =>
      match Parse(minimum)
      case None => minimum
      case Some(m) => if Rank(l, m) >= 0 then Print(l) else minimum
  }

  function CheckInstallTarget(target: string, floor: Option<string>): Result<(), FloorError> {
    if floor.None? then Ok(())
    else match EvaluateMinimum(target, floor)
      case Err(e) => Err(e)
      case Ok(Allow) => Ok(())
      case Ok(BelowMinimum(_, minimum)) => Err(TargetBelowFloor(target, minimum))
  }

  function ApplyFloor(target: string, floor: Option<string>): Result<string, FloorError> {
    if floor.None? then Ok(target)
    else match EvaluateMinimum(target, floor)
      case Err(e) => Err(e)
      case Ok(Allow) => Ok(target)
      case Ok(BelowMinimum(_, minimum)) => Ok(minimum)
  }

  /** The version a floor stands for, if it is set at all. */
  function FloorVersion(floor: Option<string>): Option<Version> {
    if floor.None? || Strip(floor.value) == "" then None else Parse(floor.value)
  }

  predicate AtOrAbove(text: string, floor: Version) { Parse(text).Some? && Rank(Parse(text).value, floor) >= 0 }

  /** Applying a floor fails exactly on a floor that is set and does not parse. */
  lemma FloorFails(target: string, floor: Option<string>)
    ensures ApplyFloor(target, floor).Err? <==> floor.Some? && Strip(floor.value) != "" && Parse(floor.value).None?
  {
    if floor.Some? { StripTwice(floor.value); }
  }

  /** With a floor set and parsing to `m`, the policy in one line. */
  lemma FloorDecides(target: string, floor: string, m: Version)
    requires Strip(floor) != "" && Parse(floor) == Some(m)
    ensures ApplyFloor(target, Some(floor)) == Ok(if AtOrAbove(target, m) then target else Print(m))
    ensures CheckInstallTarget(target, Some(floor)) == if AtOrAbove(target, m) then Ok(()) else Err(TargetBelowFloor(target, Print(m)))
  {
    StripTwice(floor);
  }

  lemma FloorUnset(target: string, floor: Option<string>)
    requires floor.None? || Strip(floor.value) == ""
    ensures ApplyFloor(target, floor) == Ok(target) && CheckInstallTarget(target, floor) == Ok(())
  {
  }

  lemma FloorAboveItself(floor: string, m: Version)
    requires Parse(floor) == Some(m)
    ensures Parse(Print(m)) == Some(m) && Rank(m, m) == 0
  {
    ParsedIsWellFormed(floor);
    PrintThenParse(m);
    RankIsTotalPreorder(m, m, m);
  }

  /**
    With a floor that parses, what comes back is at or above it, is the target itself exactly when
    the target already was, and passes the install check; applying the floor again changes nothing.
  */
  lemma FloorHolds(target: string, floor: Option<string>)
    requires ApplyFloor(target, floor).Ok?
    ensures var r := ApplyFloor(target, floor).value;
            && CheckInstallTarget(r, floor) == Ok(())
            && ApplyFloor(r, floor) == Ok(r)
            && (FloorVersion(floor).Some? ==> AtOrAbove(r, FloorVersion(floor).value))
            && (r == target || (FloorVersion(floor).Some? && r == Print(FloorVersion(floor).value)))
            && (CheckInstallTarget(target, floor).Ok? ==> r == target)
  {
    FloorFails(target, floor);
    var r := ApplyFloor(target, floor).value;
    if FloorVersion(floor).None? {
      FloorUnset(target, floor);
    } else {
      var m := FloorVersion(floor).value;
      FloorDecides(target, floor.value, m);
      FloorDecides(r, floor.value, m);
      FloorAboveItself(floor.value, m);
    }
  }

  /** The check rejects a target exactly when a floor that parses lies above it. */
  lemma CheckRejectsExactly(target: string, floor: Option<string>)
    ensures (CheckInstallTarget(target, floor).Err? && CheckInstallTarget(target, floor).error.TargetBelowFloor?)
        <==> FloorVersion(floor).Some? && !AtOrAbove(target, FloorVersion(floor).value)
  {
    if floor.Some? { StripTwice(floor.value); }
  }

  /** The picked target satisfies the minimum and the floor logic agrees with the picker. */
  lemma PickMeetsMinimum(latest: Option<string>, minimum: string)
    requires Parse(minimum).Some?
    ensures AtOrAbove(PickTarget(latest, minimum), Parse(minimum).value)
    ensures latest.Some? && Parse(latest.value).Some? ==> AtOrAbove(PickTarget(latest, minimum), Parse(latest.value).value)
    ensures CheckInstallTarget(PickTarget(latest, minimum), Some(minimum)) == Ok(())
  {
    var m := Parse(minimum).value;
    RankIsTotalPreorder(m, m, m);
    StripTwice(minimum);
    if latest.Some? && Parse(latest.value).Some? {
      var l := Parse(latest.value).value;
      ParsedIsWellFormed(latest.value);
      PrintThenParse(l);
      RankIsTotalPreorder(l, l, m);
      RankIsTotalPreorder(l, m, l);
    }
  }

  lemma RankAtLeast(a: Version, b: Version)
    ensures Rank(a, b) >= 0 <==> !Precedes(a, b)
  {
    RankIsPrecedence(a, b);
  }

  /** The maximum is the first argument unless it strictly precedes the second. */
  lemma MaxIsLater(a: string, b: string)
    requires Parse(a).Some? && Parse(b).Some?
    ensures SemverMax(a, b) == Some(Print(if Precedes(Parse(a).value, Parse(b).value) then Parse(b).value else Parse(a).value))
  {
    RankAtLeast(Parse(a).value, Parse(b).value);
  }

  /** The picked target is the latest in canonical form if both parse and it does not precede the minimum, else the minimum as it stands. */
  lemma PickExactly(latest: Option<string>, minimum: string)
    ensures var l := if latest.Some? then Parse(latest.value) else None;
      PickTarget(latest, minimum)
      == if l.Some? && Parse(minimum).Some? && !Precedes(l.value, Parse(minimum).value) then Print(l.value) else minimum
  {
    if latest.Some? && Parse(latest.value).Some? && Parse(minimum).Some? { RankAtLeast(Parse(latest.value).value, Parse(minimum).value); }
  }

  /** What is decided about a current version: nothing without a minimum, else whether it precedes it, each in canonical form as far as it has one. */
  lemma EvaluatesExactly(current: string, minimum: Option<string>)
    ensures var r := EvaluateMinimum(current, minimum); var unset := minimum.None? || Strip(minimum.value) == "";
      && (unset ==> r == Ok(Allow))
      && (!unset && Parse(minimum.value).None? ==> r == Err(InvalidMinimum(Strip(minimum.value))))
      && (!unset && Parse(minimum.value).Some? ==>
            var m, c := Parse(minimum.value).value, Parse(current);
            r == Ok(if c.None? then BelowMinimum(current, Print(m)) else if Precedes(c.value, m) then BelowMinimum(Print(c.value), Print(m)) else Allow))
  {
    if minimum.Some? { StripTwice(minimum.value); }
    if minimum.Some? && Parse(minimum.value).Some? && Parse(current).Some? { RankAtLeast(Parse(current).value, Parse(minimum.value).value); }
  }

  /** A current version is labelled alpha exactly when stable strictly precedes it. */
  lemma ChannelFollowsPrecedence(current: string, stable: string)
    ensures DeriveChannel(current, stable) == Some("alpha") <==>
      Parse(current).Some? && Parse(stable).Some? && Precedes(Parse(stable).value, Parse(current).value)
    ensures DeriveChannel(current, stable) == Some("stable") <==>
      Parse(current).Some? && Parse(stable).Some? && !Precedes(Parse(stable).value, Parse(current).value)
    ensures DeriveChannel(current, stable).None? <==> Parse(current).None? || Parse(stable).None?
  {
    assert "alpha"[0] != "stable"[0];
    if Parse(current).Some? && Parse(stable).Some? {
      var c, s := Parse(current).value, Parse(stable).value;
      RankIsTotalPreorder(c, s, c);
      RankIsPrecedence(s, c);
    }
  }
}
