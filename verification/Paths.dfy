/**
  Lexical path resolution.  A path is the sequence of its parts as the platform splits it, of which
  only the first can be a real anchor; the anchor tests, however, look at every part.
*/
module Paths {
  import opened Basics

  predicate Letter(c: char) { 'A' <= c <= 'Z' || 'a' <= c <= 'z' }
  predicate Separator(c: char) { c == '\\' || c == '/' }

  /** `$` also matches in front of one final newline. */
  function Unterminated(s: string): string {
    if s != "" && s[|s| - 1] == '\n' then s[..|s| - 1] else s
  }

  /** `^[A-Za-z]:[\\/]$` */
  predicate DriveRoot(part: string) {
    var s := Unterminated(part);
    |s| == 3 && Letter(s[0]) && s[1] == ':' && Separator(s[2])
  }

  /** `^[A-Za-z]:[\\/]?$` */
  predicate Drive(part: string) {
    var s := Unterminated(part);
    DriveRoot(part) || (|s| == 2 && Letter(s[0]) && s[1] == ':')
  }

  predicate IsAnchor(part: string) { part == "/" || part == "\\" || Drive(part) }
  predicate IsRootAnchor(part: string) { part == "/" || part == "\\" || DriveRoot(part) }
  predicate IsNormal(part: string) { part != "." && part != ".." && !IsAnchor(part) }

  type Parts = seq<string>

  // ----- the stack machine -----

  function Push(stack: Parts, part: string): Parts {
    if part == "." || part == "" then stack
    else if part == ".." then
      if stack != [] && IsNormal(Last(stack)) then Front(stack)
      else if stack != [] && IsRootAnchor(Last(stack)) then stack
      else stack + [part]
    else stack + [part]
  }

  function Normal(parts: Parts): Parts
    decreases |parts|
  {
    if parts == [] then [] else Push(Normal(Front(parts)), Last(parts))
  }

  /** The loop over the parts; an empty stack stands for the path `.`, which has no parts. */
  method NormalizeLexically(parts: Parts) returns (stack: Parts)
    ensures stack == Normal(parts)
  {
    stack := [];
    for i := 0 to |parts|
      invariant stack == Normal(parts[..i])
    {
      var part := parts[i];
      assert Front(parts[..i + 1]) == parts[..i] && Last(parts[..i + 1]) == part;
      if part == "." || part == "" { continue; }
      if part == ".." {
        if stack != [] && IsNormal(stack[|stack| - 1]) {
          stack := stack[..|stack| - 1];
        } else if stack != [] && IsRootAnchor(stack[|stack| - 1]) {
          continue;
        } else {
          stack := stack + [part];
        }
        continue;
      }
      stack := stack + [part];
    }
    assert parts[..|parts|] == parts;
  }

  // ----- what a path means -----

  /** Any file tree without links: named children, a parent, and a place for each anchor. */
  datatype Tree<!D> = Tree(child: (D, string) -> D, parent: D -> D, anchor: string -> D)

  ghost predicate Lawful<D(!new)>(t: Tree<D>) {
    && (forall d, n :: t.parent(t.child(d, n)) == d)
    && (forall a :: IsRootAnchor(a) ==> t.parent(t.anchor(a)) == t.anchor(a))
  }

  function Enter<D>(t: Tree<D>, at: D, part: string): D {
    if part == "." || part == "" then at else if part == ".." then t.parent(at) else t.child(at, part)
  }

  /** The place a path names when followed part by part from `cwd`. */
  function Place<D>(t: Tree<D>, cwd: D, parts: Parts): D
    decreases |parts|
  {
    if parts == [] then cwd
    else if |parts| == 1 && IsAnchor(parts[0]) then t.anchor(parts[0])
    else Enter(t, Place(t, cwd, Front(parts)), Last(parts))
  }

  /** The loop meets `..` on top of a part, not the first, that merely looks like a rooted anchor. */
  predicate ClampsInside(stack: Parts, part: string) { part == ".." && |stack| >= 2 && IsRootAnchor(Last(stack)) }

  predicate ClampFree(parts: Parts)
    decreases |parts|
  {
    parts == [] || (ClampFree(Front(parts)) && !ClampsInside(Normal(Front(parts)), Last(parts)))
  }

  /** The loop meets `..` on top of a part, not the first, that looks like any anchor. */
  predicate StuckInside(stack: Parts, part: string) { part == ".." && |stack| >= 2 && IsAnchor(Last(stack)) }

  predicate Resolvable(parts: Parts)
    decreases |parts|
  {
    parts == [] || (Resolvable(Front(parts)) && !StuckInside(Normal(Front(parts)), Last(parts)))
  }

  predicate OnlyFirstAnchor(parts: Parts) { forall i :: 1 <= i < |parts| ==> !IsAnchor(parts[i]) }

  // ----- shape -----

  /** `..` survives only where nothing normal and no root stands before it. */
  ghost predicate StackOk(s: Parts) {
    && (forall i :: 0 <= i < |s| ==> s[i] != "." && s[i] != "")
    && (forall i, j :: 0 <= i && j == i + 1 < |s| && s[j] == ".." ==> !IsNormal(s[i]) && !IsRootAnchor(s[i]))
  }

  lemma {:induction false} NormalStackOk(parts: Parts)
    ensures StackOk(Normal(parts))
    decreases |parts|
  {
    if parts != [] { NormalStackOk(Front(parts)); }
  }

  lemma {:induction false} StackOkIsNormal(s: Parts)
    requires StackOk(s)
    ensures Normal(s) == s
    decreases |s|
  {
    if s != [] {
      var before, part := Front(s), Last(s);
      assert StackOk(before);
      StackOkIsNormal(before);
      PushesOn(before, part);
      assert s == before + [part];
    }
  }

  lemma PushesOn(before: Parts, part: string)
    requires StackOk(before + [part])
    ensures Push(before, part) == before + [part]
  {
    var s := before + [part];
    assert s[|s| - 1] == part;
    if before != [] { assert s[|s| - 2] == Last(before); }
  }

  /** Resolving twice is resolving once, for every path whatsoever. */
  lemma NormalizeIdempotent(parts: Parts)
    ensures Normal(Normal(parts)) == Normal(parts)
  {
    NormalStackOk(parts);
    StackOkIsNormal(Normal(parts));
  }

  /** Anchor, then a run of `..`, then parts that are neither: and no `..` at all behind a root. */
  ghost predicate Canonical(s: Parts) {
    && (forall i :: 0 <= i < |s| ==> s[i] != "." && s[i] != "")
    && forall i, j :: 0 <= i < j < |s| && s[j] == ".." ==> s[i] == ".." || (i == 0 && IsAnchor(s[0]) && !IsRootAnchor(s[0]))
  }

  lemma PushCanonical(s: Parts, part: string)
    requires Canonical(s) && !StuckInside(s, part)
    ensures Canonical(Push(s, part))
  {
    if part == ".." && Push(s, part) == s + [".."] && s != [] {
      assert Last(s) == s[|s| - 1];
      assert Last(s) == ".." || (|s| == 1 && IsAnchor(s[0]) && !IsRootAnchor(s[0]));
      hide IsAnchor, IsRootAnchor;
    }
  }

  lemma {:induction false} NormalizeShape(parts: Parts)
    requires Resolvable(parts)
    ensures Canonical(Normal(parts))
    decreases |parts|
  {
    hide Canonical, StuckInside, Push;
    if parts == [] {
      EmptyCanonical();
    } else {
      NormalizeShape(Front(parts));
      PushCanonical(Normal(Front(parts)), Last(parts));
    }
  }

  lemma EmptyCanonical()
    ensures Canonical([])
  {
  }

  lemma {:induction false} OnlyFirstAnchorKept(parts: Parts)
    requires OnlyFirstAnchor(parts)
    ensures OnlyFirstAnchor(Normal(parts)) && Resolvable(parts)
    decreases |parts|
  {
    if parts != [] { OnlyFirstAnchorKept(Front(parts)); }
  }

  lemma {:induction false} ResolvableIsClampFree(parts: Parts)
    requires Resolvable(parts)
    ensures ClampFree(parts)
    decreases |parts|
  {
    if parts != [] { ResolvableIsClampFree(Front(parts)); }
  }

  // ----- meaning -----

  /** One push does to the stack's meaning what the part does to the place. */
  lemma PushMeaning<D(!new)>(t: Tree<D>, cwd: D, stack: Parts, part: string)
    requires Lawful(t) && !ClampsInside(stack, part) && StackOk(stack)
    requires stack == [] ==> !IsAnchor(part)
    ensures Place(t, cwd, Push(stack, part)) == Enter(t, Place(t, cwd, stack), part)
  {
    var s := Push(stack, part);
    if part != "." && part != "" {
      if part == ".." && stack != [] && IsNormal(Last(stack)) {
        assert Place(t, cwd, stack) == t.child(Place(t, cwd, Front(stack)), Last(stack));
      } else if part == ".." && stack != [] && IsRootAnchor(Last(stack)) {
        assert |stack| == 1;
      } else {
        assert Front(s) == stack && Last(s) == part;
      }
    }
  }

  lemma AnchorsAreNotDots(part: string)
    requires IsAnchor(part)
    ensures part != "." && part != "" && part != ".."
  {
  }

  /** An anchor that opened the path never leaves the bottom of the stack. */
  lemma {:induction false} AnchorStays(parts: Parts)
    requires parts != [] && IsAnchor(parts[0])
    ensures Normal(parts) != [] && Normal(parts)[0] == parts[0]
    decreases |parts|
  {
    if |parts| == 1 {
      AnchorsAreNotDots(parts[0]);
      assert Front(parts) == [];
    } else {
      AnchorStays(Front(parts));
    }
  }

  /** Before an anchor can be pushed onto an empty stack it would have to be a part that is not the first. */
  predicate NoLateAnchor(parts: Parts) { parts == [] || IsAnchor(parts[0]) || OnlyFirstAnchor(parts) }

  lemma {:induction false} NormalizeMeaning<D(!new)>(t: Tree<D>, cwd: D, parts: Parts)
    requires Lawful(t) && ClampFree(parts) && NoLateAnchor(parts)
    ensures Place(t, cwd, Normal(parts)) == Place(t, cwd, parts)
    decreases |parts|
  {
    if parts != [] {
      var stack := Normal(Front(parts));
      if |parts| == 1 {
        assert Front(parts) == [] && stack == [];
        if IsAnchor(parts[0]) { AnchorsAreNotDots(parts[0]); }
      } else {
        NormalizeMeaning(t, cwd, Front(parts));
        if IsAnchor(parts[0]) { AnchorStays(Front(parts)); }
        NormalStackOk(Front(parts));
        PushMeaning(t, cwd, stack, Last(parts));
      }
      if |parts| == 1 && !IsAnchor(parts[0]) { PushMeaning(t, cwd, [], parts[0]); }
    }
  }

  // ----- the free tree: a place is its anchor and the names below it -----

  datatype Dir = Dir(root: string, names: Parts)

  function FreeTree(): Tree<Dir> {
    Tree((d: Dir, n: string) => d.(names := d.names + [n]),
         (d: Dir) => if d.names == [] then d else d.(names := Front(d.names)),
         (a: string) => Dir(a, []))
  }

  lemma FreeTreeLawful()
    ensures Lawful(FreeTree())
  {
    var t := FreeTree();
    forall d: Dir, n: string ensures t.parent(t.child(d, n)) == d {
      assert Front(d.names + [n]) == d.names;
    }
  }

  const HERE := Dir("", [])

  function FreePlace(parts: Parts): Dir { Place(FreeTree(), HERE, parts) }

  /** Without dots behind the anchor, the free place spells the path out. */
  lemma {:induction false} FreePlaceSpells(s: Parts)
    requires s != [] && IsAnchor(s[0]) && forall i :: 1 <= i < |s| ==> s[i] != "." && s[i] != "" && s[i] != ".."
    ensures FreePlace(s) == Dir(s[0], s[1..])
    decreases |s|
  {
    if |s| > 1 {
      FreePlaceSpells(Front(s));
      assert s[1..] == Front(s)[1..] + [Last(s)];
    }
  }

  /** Climbing from a place reached by a name really goes up. */
  lemma ParentIsAbove(stack: Parts)
    requires |stack| >= 2 && IsAnchor(Last(stack))
    ensures FreeTree().parent(FreePlace(stack)).names < FreePlace(stack).names
  {
    AnchorsAreNotDots(Last(stack));
    assert FreePlace(stack).names == FreePlace(Front(stack)).names + [Last(stack)];
  }

  predicate PrefixMeaning(parts: Parts, k: nat)
    requires k <= |parts|
  {
    FreePlace(Normal(parts[..k])) == FreePlace(parts[..k])
  }

  /**
    Every prefix of an anchored path keeps its meaning exactly when the loop never clamps at a part
    that only looks like a root.
  */
  lemma MeaningExactly(parts: Parts)
    requires parts != [] && IsAnchor(parts[0])
    ensures ClampFree(parts) <==> forall k: nat :: k <= |parts| ==> PrefixMeaning(parts, k)
  {
    FreeTreeLawful();
    if ClampFree(parts) {
      forall k: nat | k <= |parts| ensures PrefixMeaning(parts, k) {
        ClampFreePrefix(parts, k);
        NormalizeMeaning(FreeTree(), HERE, parts[..k]);
      }
    } else {
      var k := FirstClamp(parts);
      assert !PrefixMeaning(parts, k);
    }
  }

  lemma {:induction false} ClampFreePrefix(parts: Parts, k: nat)
    requires ClampFree(parts) && k <= |parts|
    ensures ClampFree(parts[..k])
    decreases |parts|
  {
    if k < |parts| {
      assert parts[..k] == Front(parts)[..k];
      ClampFreePrefix(Front(parts), k);
    } else {
      assert parts[..k] == parts;
    }
  }

  lemma {:induction false} FirstClamp(parts: Parts) returns (k: nat)
    requires !ClampFree(parts) && IsAnchor(parts[0])
    ensures k <= |parts| && !PrefixMeaning(parts, k)
    decreases |parts|
  {
    if |parts| > 1 && !ClampFree(Front(parts)) {
      k := FirstClamp(Front(parts));
      assert Front(parts)[..k] == parts[..k];
    } else {
      k := |parts|;
      assert parts[..k] == parts;
      FreeTreeLawful();
      NormalizeMeaning(FreeTree(), HERE, Front(parts));
      ParentIsAbove(Normal(Front(parts)));
    }
  }

  // ----- containment -----

  predicate Abs(parts: Parts) { parts != [] && IsRootAnchor(parts[0]) }

  /** `is_relative_to` compares parts, and `self` is taken as it stands. */
  predicate ContainsPath(self: Parts, other: Parts) { self <= Normal(other) }

  function Descend<D>(t: Tree<D>, at: D, names: Parts): D
    decreases |names|
  {
    if names == [] then at else t.child(Descend(t, at, Front(names)), Last(names))
  }

  predicate Names(s: Parts) { forall i :: 0 <= i < |s| ==> s[i] != "." && s[i] != "" && s[i] != ".." }

  lemma {:induction false} DescendPlace<D(!new)>(t: Tree<D>, cwd: D, self: Parts, names: Parts)
    requires self != [] && Names(names)
    ensures Place(t, cwd, self + names) == Descend(t, Place(t, cwd, self), names)
    decreases |names|
  {
    if names == [] {
      assert self + names == self;
    } else {
      assert Front(self + names) == self + Front(names);
      DescendPlace(t, cwd, self, Front(names));
    }
  }

  lemma NoDotsBehindRoot(other: Parts)
    requires Abs(other) && Resolvable(other)
    ensures Abs(Normal(other)) && Normal(other)[0] == other[0] && Names(Normal(other)[1..])
  {
    AnchorStays(other);
    NormalizeShape(other);
    var s := Normal(other);
    forall i | 1 <= i < |s| ensures s[i] != "." && s[i] != "" && s[i] != ".." {
      AnchorsAreNotDots(s[0]);
    }
  }

  /** A true answer puts `other` at or below `self`, in every tree. */
  lemma ContainmentSound<D(!new)>(t: Tree<D>, cwd: D, self: Parts, other: Parts)
    requires Lawful(t) && Abs(self) && Abs(other) && Resolvable(other) && ContainsPath(self, other)
    ensures exists names :: Names(names) && Place(t, cwd, other) == Descend(t, Place(t, cwd, self), names)
  {
    NoDotsBehindRoot(other);
    ResolvableIsClampFree(other);
    NormalizeMeaning(t, cwd, other);
    var s := Normal(other);
    var names := s[|self|..];
    assert s == self + names;
    assert Names(names) by {
      forall i | 0 <= i < |names| ensures names[i] == s[1..][|self| - 1 + i] {}
    }
    DescendPlace(t, cwd, self, names);
  }

  /** And the answer is true exactly for a `self` free of dots that is a lexical ancestor of `other`. */
  lemma ContainmentExact(self: Parts, other: Parts)
    requires Abs(self) && Abs(other) && Resolvable(other)
    ensures ContainsPath(self, other) <==>
      Names(self[1..]) && self[0] == FreePlace(other).root && self[1..] <= FreePlace(other).names
  {
    var s := Normal(other);
    assert FreePlace(other) == Dir(s[0], s[1..]) && s != [] && Names(s[1..]) by {
      NoDotsBehindRoot(other);
      ResolvableIsClampFree(other);
      FreeTreeLawful();
      NormalizeMeaning(FreeTree(), HERE, other);
      FreePlaceSpells(s);
    }
    PrefixSplits(self, s);
  }

  lemma PrefixSplits(self: Parts, s: Parts)
    requires self != [] && s != [] && Names(s[1..])
    ensures self <= s <==> Names(self[1..]) && self[0] == s[0] && self[1..] <= s[1..]
  {
    assert s == [s[0]] + s[1..] && self == [self[0]] + self[1..];
    if self <= s {
      assert self[1..] == s[1..][..|self| - 1];
    }
  }

  /** In the free tree: `other` lies at or below `self`. */
  predicate AtOrBelow(self: Parts, other: Parts) {
    FreePlace(self).root == FreePlace(other).root && FreePlace(self).names <= FreePlace(other).names
  }

  predicate PrefixContained(other: Parts, k: nat, self: Parts)
    requires k <= |other|
  {
    ContainsPath(self, other[..k]) ==> AtOrBelow(self, other[..k])
  }

  /**
    Containment can be trusted for an absolute path and all its prefixes exactly when the loop
    never meets `..` on top of a later part that looks like an anchor.
  */
  lemma ContainmentTrusted(other: Parts)
    requires Abs(other)
    ensures Resolvable(other) <==> forall k: nat, self :: 1 <= k <= |other| && Abs(self) ==> PrefixContained(other, k, self)
  {
    if Resolvable(other) {
      forall k: nat, self | 1 <= k <= |other| && Abs(self) ensures PrefixContained(other, k, self) {
        ResolvablePrefix(other, k);
        if ContainsPath(self, other[..k]) {
          ContainmentExact(self, other[..k]);
          FreePlaceSpells(self);
        }
      }
    } else {
      var k, self := FirstStuck(other);
      assert !PrefixContained(other, k, self);
    }
  }

  lemma {:induction false} ResolvablePrefix(parts: Parts, k: nat)
    requires Resolvable(parts) && k <= |parts|
    ensures Resolvable(parts[..k])
    decreases |parts|
  {
    if k < |parts| {
      assert parts[..k] == Front(parts)[..k];
      ResolvablePrefix(Front(parts), k);
    } else {
      assert parts[..k] == parts;
    }
  }

  lemma {:induction false} FirstStuck(other: Parts) returns (k: nat, self: Parts)
    requires Abs(other) && !Resolvable(other)
    ensures 1 <= k <= |other| && Abs(self) && !PrefixContained(other, k, self)
    decreases |other|
  {
    if |other| > 1 && !Resolvable(Front(other)) {
      k, self := FirstStuck(Front(other));
      assert Front(other)[..k] == other[..k];
    } else {
      k, self := |other|, Normal(Front(other));
      assert other[..k] == other;
      StuckHere(other);
    }
  }

  lemma StuckHere(other: Parts)
    requires Abs(other) && !Resolvable(other) && Resolvable(Front(other))
    ensures Abs(Normal(Front(other))) && ContainsPath(Normal(Front(other)), other) && !AtOrBelow(Normal(Front(other)), other)
  {
    StuckSplits(other);
    var self := Normal(Front(other));
    SamePlace(Front(other));
    ParentIsAbove(self);
    assert FreePlace(other) == FreeTree().parent(FreePlace(Front(other)));
  }

  lemma StuckSplits(other: Parts)
    requires Abs(other) && !Resolvable(other) && Resolvable(Front(other))
    ensures Last(other) == ".." && Abs(Front(other)) && Abs(Normal(Front(other)))
    ensures |Normal(Front(other))| >= 2 && IsAnchor(Last(Normal(Front(other)))) && Normal(Front(other)) <= Normal(other)
  {
    assert Front(other) != [];
    AnchorStays(Front(other));
  }

  lemma SamePlace(parts: Parts)
    requires Resolvable(parts) && NoLateAnchor(parts)
    ensures FreePlace(Normal(parts)) == FreePlace(parts)
  {
    ResolvableIsClampFree(parts);
    FreeTreeLawful();
    NormalizeMeaning(FreeTree(), HERE, parts);
  }

  lemma OneMorePart(s: Parts, part: string)
    requires s != []
    ensures Normal(s + [part]) == Push(Normal(s), part)
    ensures FreePlace(s + [part]) == Enter(FreeTree(), FreePlace(s), part)
  {
    assert Front(s + [part]) == s;
  }

  const INTO_DRIVE: Parts := ["/", "ws", "C:"]
  const UP_ONCE: Parts := INTO_DRIVE + [".."]
  const UP_TWICE: Parts := UP_ONCE + [".."]

  lemma IntoDrive()
    ensures Normal(INTO_DRIVE) == INTO_DRIVE && FreePlace(INTO_DRIVE) == Dir("/", ["ws", "C:"])
  {
    StackOkIsNormal(INTO_DRIVE);
    FreePlaceSpells(INTO_DRIVE);
    assert INTO_DRIVE[1..] == ["ws", "C:"];
  }

  /** Behind a part that is neither normal nor a root, `..` stays on the stack although it climbs. */
  lemma Climbs(s: Parts)
    requires s != [] && Normal(s) == s && !IsNormal(Last(s)) && !IsRootAnchor(Last(s))
    ensures Normal(s + [".."]) == s + [".."] && FreePlace(s + [".."]) == FreeTree().parent(FreePlace(s))
  {
    OneMorePart(s, "..");
  }

  lemma UpOnce()
    ensures Normal(UP_ONCE) == UP_ONCE && FreePlace(UP_ONCE) == Dir("/", ["ws"])
  {
    IntoDrive();
    Climbs(INTO_DRIVE);
    assert ["ws", "C:"][..1] == ["ws"];
  }

  lemma UpTwice()
    ensures Normal(UP_TWICE) == UP_TWICE && FreePlace(UP_TWICE) == Dir("/", [])
  {
    UpOnce();
    hide Normal, Place;
    assert Last(UP_ONCE) == "..";
    Climbs(UP_ONCE);
    assert ["ws"][..0] == [];
  }

  lemma UpTwiceThenEtc()
    ensures Normal(UP_TWICE + ["etc"]) == UP_TWICE + ["etc"] && FreePlace(UP_TWICE + ["etc"]) == Dir("/", ["etc"])
  {
    UpTwice();
    OneMorePart(UP_TWICE, "etc");
    assert IsNormal("etc");
    hide Normal, Place;
    assert [] + ["etc"] == ["etc"];
  }

  lemma Workspace()
    ensures Abs(["/", "ws"]) && FreePlace(["/", "ws"]) == Dir("/", ["ws"])
  {
    FreePlaceSpells(["/", "ws"]);
    assert ["/", "ws"][1..] == ["ws"];
  }

  /** The family in its smallest form: a directory that is merely named like a drive. */
  lemma DriveNamedDirectory()
    ensures var other := ["/", "ws", "C:", "..", "..", "etc"];
            && ContainsPath(["/", "ws"], other) && FreePlace(other) == Dir("/", ["etc"]) && !AtOrBelow(["/", "ws"], other)
  {
    hide Normal, FreePlace;
    UpTwiceThenEtc();
    Workspace();
    var other := UP_TWICE + ["etc"];
    assert other == ["/", "ws", "C:", "..", "..", "etc"];
    assert ["/", "ws"] <= other;
    assert ["ws"][0] != ["etc"][0];
  }

  // ----- one path on its own -----

  /** Where an absolute path leads is the same walk in every tree: the free tree writes it down. */
  lemma {:induction false} PlaceFollowsFree<D(!new)>(t: Tree<D>, cwd: D, parts: Parts)
    requires Lawful(t) && Abs(parts)
    ensures var free := FreePlace(parts); IsRootAnchor(free.root) && Place(t, cwd, parts) == Descend(t, t.anchor(free.root), free.names)
    decreases |parts|
  {
    if |parts| == 1 {
      assert FreePlace(parts) == Dir(parts[0], []);
    } else {
      PlaceFollowsFree(t, cwd, Front(parts));
      var before, part := FreePlace(Front(parts)), Last(parts);
      assert FreePlace(parts) == Enter(FreeTree(), before, part);
      if part != "." && part != "" && part != ".." { assert Front(before.names + [part]) == before.names; }
    }
  }

  /** Two absolute paths name the same place in every lawful tree exactly when the free tree says so. */
  lemma MeaningDecided(a: Parts, b: Parts)
    requires Abs(a) && Abs(b)
    ensures FreePlace(a) == FreePlace(b) <==> forall t: Tree<Dir>, cwd: Dir :: Lawful(t) ==> Place(t, cwd, a) == Place(t, cwd, b)
  {
    FreeTreeLawful();
    if FreePlace(a) == FreePlace(b) {
      forall t: Tree<Dir>, cwd: Dir | Lawful(t) ensures Place(t, cwd, a) == Place(t, cwd, b) {
        PlaceFollowsFree(t, cwd, a);
        PlaceFollowsFree(t, cwd, b);
      }
    } else {
      assert Place(FreeTree(), HERE, a) != Place(FreeTree(), HERE, b);
    }
  }

  /**
    Since the loop last clamped on a part, not the first, that merely looks like a root, what it
    holds has led all the way up to the root; or it never clamped on one.
  */
  predicate Recovers(parts: Parts)
    requires Abs(parts)
    decreases |parts|
  {
    |parts| == 1
    || (!ClampsInside(Normal(Front(parts)), Last(parts))
        && (Recovers(Front(parts)) || FreePlace(Normal(parts)).names == []))
  }

  lemma EnterLevels(led: Dir, held: Dir, part: string)
    requires led.root == held.root && |led.names| < |held.names|
    ensures var r, h := Enter(FreeTree(), led, part), Enter(FreeTree(), held, part);
      r.root == h.root == led.root && (if h.names == [] then r == h else |r.names| < |h.names|)
  {
  }

  /** What the loop holds leads where the path leads, or else deeper. */
  lemma {:induction false} HeldOrDeeper(parts: Parts)
    requires Abs(parts)
    ensures var held, led := FreePlace(Normal(parts)), FreePlace(parts);
      held.root == led.root && (if Recovers(parts) then held == led else |led.names| < |held.names|)
    decreases |parts|
  {
    if |parts| == 1 {
      OneAnchor(parts);
    } else {
      var before, part := Front(parts), Last(parts);
      var s := Normal(before);
      HeldOrDeeper(before);
      AnchorStays(before);
      assert Normal(parts) == Push(s, part) && FreePlace(parts) == Enter(FreeTree(), FreePlace(before), part);
      if ClampsInside(s, part) {
        ClampedBelow(s, part, FreePlace(before));
      } else {
        NormalStackOk(before);
        FreeTreeLawful();
        PushMeaning(FreeTree(), HERE, s, part);
        if !Recovers(before) { EnterLevels(FreePlace(before), FreePlace(s), part); }
      }
    }
  }

  lemma OneAnchor(parts: Parts)
    requires Abs(parts) && |parts| == 1
    ensures Normal(parts) == parts
  {
    AnchorsAreNotDots(parts[0]);
    assert Front(parts) == [];
  }

  /** Where the loop clamps, the path goes up and what it holds does not. */
  lemma ClampedBelow(s: Parts, part: string, led: Dir)
    requires ClampsInside(s, part) && led.root == FreePlace(s).root && (led == FreePlace(s) || |led.names| < |FreePlace(s).names|)
    ensures Push(s, part) == s
    ensures Enter(FreeTree(), led, part).root == led.root && |Enter(FreeTree(), led, part).names| < |FreePlace(s).names|
  {
    AnchorsAreNotDots(Last(s));
    ParentIsAbove(s);
  }

  /** One absolute path keeps its meaning, in every lawful tree, exactly if the loop never clamped or has recovered since. */
  lemma MeaningOfOnePath(parts: Parts)
    requires Abs(parts)
    ensures Recovers(parts) <==> forall t: Tree<Dir>, cwd: Dir :: Lawful(t) ==> Place(t, cwd, Normal(parts)) == Place(t, cwd, parts)
    ensures ClampFree(parts) ==> Recovers(parts)
  {
    HeldOrDeeper(parts);
    AnchorStays(parts);
    MeaningDecided(Normal(parts), parts);
    if ClampFree(parts) { NeverClamped(parts); }
  }

  lemma {:induction false} NeverClamped(parts: Parts)
    requires Abs(parts) && ClampFree(parts)
    ensures Recovers(parts)
    decreases |parts|
  {
    if |parts| > 1 { NeverClamped(Front(parts)); }
  }

  /** From the root on, the stack never leaves the way to where it ends. */
  predicate Straight(stack: Parts) { forall k :: 1 <= k <= |stack| ==> AtOrBelow(stack[..k], stack) }

  /** Where no `..` is left, it does not. */
  lemma {:induction false} NamesAreStraight(stack: Parts)
    requires Abs(stack) && Names(stack[1..])
    ensures Straight(stack)
  {
    forall i | 1 <= i < |stack| ensures stack[i] != "." && stack[i] != "" && stack[i] != ".." { assert stack[1..][i - 1] == stack[i]; }
    FreePlaceSpells(stack);
    forall k | 1 <= k <= |stack| ensures AtOrBelow(stack[..k], stack) {
      FreePlaceSpells(stack[..k]);
      assert stack[..k][1..] == stack[1..][..k - 1];
    }
  }

  /** Every true containment answer about one absolute path is right exactly if it keeps its meaning and its normal form is straight. */
  lemma ContainmentOfOnePath(other: Parts)
    requires Abs(other)
    ensures Recovers(other) && Straight(Normal(other)) <==> forall self :: Abs(self) && ContainsPath(self, other) ==> AtOrBelow(self, other)
  {
    var s := Normal(other);
    HeldOrDeeper(other);
    AnchorStays(other);
    if Recovers(other) && Straight(s) {
      forall self | Abs(self) && ContainsPath(self, other) ensures AtOrBelow(self, other) { assert self == s[..|self|]; }
    }
    if forall self :: Abs(self) && ContainsPath(self, other) ==> AtOrBelow(self, other) {
      assert Abs(s) && ContainsPath(s, other) && AtOrBelow(s, other);
      forall k | 1 <= k <= |s| ensures AtOrBelow(s[..k], s) { assert Abs(s[..k]) && ContainsPath(s[..k], other); }
    }
  }

  const BACKSLASH: Parts := ["/", "\\"]
  const CLAMPED: Parts := BACKSLASH + [".."]
  const INTO_C: Parts := CLAMPED + ["C:"]
  const OUT_OF_C: Parts := INTO_C + [".."]
  const RECOVERED: Parts := OUT_OF_C + [".."]

  lemma BackslashDirectory()
    ensures Normal(BACKSLASH) == BACKSLASH && FreePlace(BACKSLASH) == Dir("/", ["\\"])
  {
    StackOkIsNormal(BACKSLASH);
    FreePlaceSpells(BACKSLASH);
    assert BACKSLASH[1..] == ["\\"];
  }

  /** `..` on top of a part that looks like a root, and is not the first. */
  lemma ClampsHere(p: Parts)
    requires |p| >= 2 && Normal(p) == p && IsRootAnchor(Last(p))
    ensures Normal(p + [".."]) == p && !ClampFree(p + [".."])
  {
    AnchorsAreNotDots(Last(p));
    assert Front(p + [".."]) == p && Last(p + [".."]) == "..";
  }

  lemma ClampedThere()
    ensures Normal(CLAMPED) == BACKSLASH && !ClampFree(CLAMPED)
  {
    BackslashDirectory();
    hide Normal, FreePlace, ClampFree;
    assert Last(BACKSLASH) == "\\";
    ClampsHere(BACKSLASH);
  }

  lemma StaysClamped(p: Parts, part: string)
    requires !ClampFree(p)
    ensures !ClampFree(p + [part])
  {
    assert Front(p + [part]) == p;
  }

  lemma RecoversHere(p: Parts, part: string)
    requires Abs(p) && !ClampsInside(Normal(p), part) && FreePlace(Normal(p + [part])).names == []
    ensures Abs(p + [part]) && Recovers(p + [part])
  {
    assert Front(p + [part]) == p && Last(p + [part]) == part;
  }

  lemma PushesBehind()
    ensures Push(BACKSLASH, "C:") == BACKSLASH + ["C:"]
    ensures Push(BACKSLASH + ["C:"], "..") == BACKSLASH + ["C:"] + [".."]
  {
    assert Last(BACKSLASH + ["C:"]) == "C:";
  }

  lemma PushesOnDots(s: Parts)
    requires s != [] && Last(s) == ".."
    ensures Push(s, "..") == s + [".."]
  {
  }

  lemma HeldNext(p: Parts, held: Parts, part: string, next: Parts)
    requires p != [] && Normal(p) == held && Push(held, part) == next
    ensures Normal(p + [part]) == next
  {
    OneMorePart(p, part);
  }

  lemma DotsAdd(s: Parts)
    ensures s + ["C:"] + [".."] == s + ["C:", ".."] && s + ["C:", ".."] + [".."] == s + ["C:", "..", ".."]
    ensures Last(s + ["C:", ".."]) == ".."
  {
  }

  /** What the loop holds behind it: down into a directory named like a drive, and up past both. */
  lemma HeldBehind()
    ensures Normal(INTO_C) == BACKSLASH + ["C:"] && Normal(OUT_OF_C) == BACKSLASH + ["C:", ".."]
    ensures Normal(RECOVERED) == BACKSLASH + ["C:", "..", ".."]
  {
    hide Normal, FreePlace, Push, ClampFree, Last, Front;
    ClampedThere();
    PushesBehind();
    DotsAdd(BACKSLASH);
    PushesOnDots(BACKSLASH + ["C:", ".."]);
    HeldNext(CLAMPED, BACKSLASH, "C:", BACKSLASH + ["C:"]);
    HeldNext(INTO_C, BACKSLASH + ["C:"], "..", BACKSLASH + ["C:", ".."]);
    HeldNext(OUT_OF_C, BACKSLASH + ["C:", ".."], "..", BACKSLASH + ["C:", "..", ".."]);
  }

  lemma HeldLeadsToRoot()
    ensures FreePlace(BACKSLASH + ["C:", "..", ".."]) == Dir("/", [])
  {
    BackslashDirectory();
    OneMorePart(BACKSLASH, "C:");
    var a, b := BACKSLASH + ["C:"], BACKSLASH + ["C:"] + [".."];
    OneMorePart(a, "..");
    OneMorePart(b, "..");
    hide Normal, FreePlace;
    assert b + [".."] == BACKSLASH + ["C:", "..", ".."];
    assert Front(["\\", "C:"]) == ["\\"] && Front(["\\"]) == [] && ["\\"] + ["C:"] == ["\\", "C:"];
  }

  /** The loop clamps below a directory named like a root, climbs out through one named like a drive, and has recovered. */
  lemma ClampedThenRecovered()
    ensures RECOVERED == ["/", "\\", "..", "C:", "..", ".."] && Abs(RECOVERED)
    ensures !ClampFree(RECOVERED) && Recovers(RECOVERED)
  {
    ClampedThere();
    HeldBehind();
    HeldLeadsToRoot();
    StaysClamped(CLAMPED, "C:");
    StaysClamped(INTO_C, "..");
    StaysClamped(OUT_OF_C, "..");
    hide Normal, FreePlace, ClampFree, Recovers;
    DotsAdd(BACKSLASH);
    assert !IsRootAnchor("..");
    RecoversHere(OUT_OF_C, "..");
  }

  // ----- join -----

  /** `/` on paths: an absolute right-hand side replaces, a relative one extends. */
  function Join(self: Parts, path: Parts): Parts { if Abs(path) then path else self + path }

  /** Joining keeps a path absolute and names what the second path names from the first. */
  lemma {:induction false} JoinPlace<D(!new)>(t: Tree<D>, cwd: D, self: Parts, path: Parts)
    requires Abs(self) && (path != [] && IsAnchor(path[0]) ==> Abs(path))
    ensures Abs(Join(self, path))
    ensures Place(t, cwd, Join(self, path)) == Place(t, Place(t, cwd, self), path)
    decreases |path|
  {
    if path == [] {
      assert self + path == self;
    } else if Abs(path) {
      AbsIgnoresCwd(t, cwd, Place(t, cwd, self), path);
    } else {
      if |path| > 1 { assert Front(path)[0] == path[0]; }
      JoinPlace(t, cwd, self, Front(path));
      assert Front(self + path) == self + Front(path);
    }
  }

  lemma {:induction false} AbsIgnoresCwd<D(!new)>(t: Tree<D>, a: D, b: D, path: Parts)
    requires Abs(path)
    ensures Place(t, a, path) == Place(t, b, path)
    decreases |path|
  {
    if |path| > 1 { AbsIgnoresCwd(t, a, b, Front(path)); }
  }
}
