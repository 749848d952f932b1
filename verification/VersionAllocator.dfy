/** Allocation of the next release version from the tags of the repository. */
module VersionAllocator {
  import opened Options
  import opened VersionText

  datatype Bump = Patch | Minor | Major | Unsupported

  datatype Tag = Tag(name: string, commit: string)

  datatype Allocation = Refused | Allocated(version: string, reused: bool)

  const ZERO := Version(0, 0, 0)

  /** The shape only this bump produces. */
  predicate Shaped(v: Version, bump: Bump) {
    match bump
    case Major => v.major > 0 && v.minor == 0 && v.patch == 0
    case Minor => v.minor > 0 && v.patch == 0
    case Patch => v.patch > 0
    case Unsupported => false
  }

  function Component(v: Version, bump: Bump): nat {
    match bump
    case Major => v.major
    case Minor => v.minor
    case Patch => v.patch
    case Unsupported => MAX_INT64
  }

  predicate Incrementable(v: Version, bump: Bump) {
    Component(v, bump) < MAX_INT64
  }

  function NextVersion(v: Version, bump: Bump): Version {
    match bump
    case Major => Version(v.major + 1, 0, 0)
    case Minor => Version(v.major, v.minor + 1, 0)
    case Patch => v.(patch := v.patch + 1)
    case Unsupported => v
  }

  predicate Fits(t: Tag, source: string, bump: Bump) {
    t.commit == source && ParseVersion(t.name).Some? && Shaped(ParseVersion(t.name).value, bump)
  }

  /** Versions of the source's own tags with the shape of the bump. */
  function Owned(tags: set<Tag>, source: string, bump: Bump): set<Version> {
    set t | t in tags && Fits(t, source, bump) :: ParseVersion(t.name).value
  }

  predicate CountsUp(t: Tag, bump: Bump) {
    ParseVersion(t.name).Some? && Incrementable(ParseVersion(t.name).value, bump)
  }

  /** Versions that can be counted up, and 0.0.0 to count from when there is none. */
  function Bases(tags: set<Tag>, bump: Bump): set<Version> {
    {ZERO} + set t | t in tags && CountsUp(t, bump) :: ParseVersion(t.name).value
  }

  predicate Highest(vs: set<Version>, m: Version) {
    m in vs && forall v | v in vs :: v == m || Less(v, m)
  }

  /** What the allocation must be; it speaks of the set of tags, not of their order. */
  predicate Allocates(tags: set<Tag>, source: string, bump: Bump, a: Allocation) {
    if bump.Unsupported? then a.Refused?
    else if Owned(tags, source, bump) != {} then
      exists v | v in Owned(tags, source, bump) ::
        Highest(Owned(tags, source, bump), v) && a == Allocated(Text(v), true)
    else
      exists v | v in Bases(tags, bump) ::
        Highest(Bases(tags, bump), v) && a == Allocated(Text(NextVersion(v, bump)), false)
  }

  /** Precedence, as in section 11 of Semantic Versioning 2.0.0, is a strict total order. */
  lemma LessIsStrictTotal(a: Version, b: Version, c: Version)
    ensures !Less(a, a)
    ensures Less(a, b) && Less(b, c) ==> Less(a, c)
    ensures a == b || Less(a, b) || Less(b, a)
    ensures !(Less(a, b) && Less(b, a))
  {
  }

  function TagSet(tags: seq<Tag>): set<Tag> {
    set t | t in tags
  }

  /** The highest version found so far, if any. */
  predicate Best(vs: set<Version>, best: Option<Version>) {
    match best
    case None => vs == {}
    case Some(v) => Highest(vs, v)
  }

  lemma HighestGrows(vs: set<Version>, m: Version, v: Version)
    requires Highest(vs, m)
    ensures Highest(vs + {v}, if Less(m, v) then v else m)
  {
    LessIsStrictTotal(m, v, v);
    if Less(m, v) {
      forall x | x in vs ensures Less(x, v) { LessIsStrictTotal(x, m, v); }
    }
  }

  lemma AddTagOwned(before: set<Tag>, t: Tag, source: string, bump: Bump)
    ensures Owned(before + {t}, source, bump) ==
      Owned(before, source, bump) + if Fits(t, source, bump) then {ParseVersion(t.name).value} else {}
  {
  }

  lemma AddOwned(before: set<Tag>, t: Tag, source: string, bump: Bump, reuse: Option<Version>)
    requires Best(Owned(before, source, bump), reuse)
    ensures var better := Fits(t, source, bump) && (reuse == None || Less(reuse.value, ParseVersion(t.name).value));
      Best(Owned(before + {t}, source, bump), if better then ParseVersion(t.name) else reuse)
  {
    AddTagOwned(before, t, source, bump);
    if Fits(t, source, bump) && reuse.Some? {
      HighestGrows(Owned(before, source, bump), reuse.value, ParseVersion(t.name).value);
    }
  }

  lemma AddTagBases(before: set<Tag>, t: Tag, bump: Bump)
    ensures Bases(before + {t}, bump) == Bases(before, bump) + if CountsUp(t, bump)
      then {ParseVersion(t.name).value} else {}
  {
  }

  lemma AddBase(before: set<Tag>, t: Tag, bump: Bump, max: Version)
    requires Highest(Bases(before, bump), max)
    ensures Highest(Bases(before + {t}, bump), if CountsUp(t, bump)
      && Less(max, ParseVersion(t.name).value) then ParseVersion(t.name).value else max)
  {
    AddTagBases(before, t, bump);
    if CountsUp(t, bump) { HighestGrows(Bases(before, bump), max, ParseVersion(t.name).value); }
  }

  /** One tag of the loop: it may be the highest to reuse, and the highest to count from. */
  method Consider(t: Tag, source: string, bump: Bump, ghost before: set<Tag>, max: Version, reuse: Option<Version>)
      returns (newMax: Version, newReuse: Option<Version>)
    requires Highest(Bases(before, bump), max) && Best(Owned(before, source, bump), reuse)
    ensures Highest(Bases(before + {t}, bump), newMax) && Best(Owned(before + {t}, source, bump), newReuse)
  {
    AddOwned(before, t, source, bump, reuse);
    AddBase(before, t, bump, max);
    newMax, newReuse := max, reuse;
    var parsed := ParseVersion(t.name);
    if parsed == None { return; }
    if Fits(t, source, bump) && (reuse == None || Less(reuse.value, parsed.value)) { newReuse := parsed; }
    if !Incrementable(parsed.value, bump) { return; }
    if Less(max, parsed.value) { newMax := parsed.value; }
  }

  method Scan(tags: seq<Tag>, source: string, bump: Bump) returns (max: Version, reuse: Option<Version>)
    ensures Highest(Bases(TagSet(tags), bump), max) && Best(Owned(TagSet(tags), source, bump), reuse)
  {
    max, reuse := ZERO, None;
    assert TagSet(tags[..0]) == {};
    for i := 0 to |tags|
      invariant Highest(Bases(TagSet(tags[..i]), bump), max)
      invariant Best(Owned(TagSet(tags[..i]), source, bump), reuse)
    {
      max, reuse := Consider(tags[i], source, bump, TagSet(tags[..i]), max, reuse);
      assert TagSet(tags[..i + 1]) == TagSet(tags[..i]) + {tags[i]};
    }
    assert tags[..|tags|] == tags;
  }

  method Allocate(tags: seq<Tag>, source: string, bump: Bump) returns (a: Allocation)
    ensures Allocates(TagSet(tags), source, bump, a)
  {
    if bump.Unsupported? { return Refused; }
    var max, reuse := Scan(tags, source, bump);
    if reuse.Some? { return Allocated(Text(reuse.value), true); }
    return Allocated(Text(NextVersion(max, bump)), false);
  }

  /** The result depends on neither the order nor the repetition of tags. */
  lemma AllocationUnique(tags: set<Tag>, source: string, bump: Bump, a: Allocation, b: Allocation)
    requires Allocates(tags, source, bump, a) && Allocates(tags, source, bump, b)
    ensures a == b
  {
  }

  lemma NextIsAbove(v: Version, bump: Bump)
    requires InRange(v) && Incrementable(v, bump)
    ensures InRange(NextVersion(v, bump)) && Shaped(NextVersion(v, bump), bump) && Less(v, NextVersion(v, bump))
  {
  }

  lemma BasesInRange(tags: set<Tag>, bump: Bump, v: Version)
    requires v in Bases(tags, bump) && !bump.Unsupported?
    ensures InRange(v) && Incrementable(v, bump)
  {
    if v != ZERO {
      var t :| t in tags && CountsUp(t, bump) && ParseVersion(t.name).value == v;
      TagRoundTrip(t.name, v);
    }
  }

  /** A new version fits 64 bits, has its bump's shape, and is strictly above every incrementable tag. */
  lemma NewIsAbove(tags: set<Tag>, source: string, bump: Bump, a: Allocation) returns (v: Version)
    requires Allocates(tags, source, bump, a) && a.Allocated? && !a.reused
    ensures a.version == Text(v) && InRange(v) && Shaped(v, bump) && ParseVersion(a.version) == Some(v)
    ensures forall t | t in tags && CountsUp(t, bump) :: Less(ParseVersion(t.name).value, v)
    ensures v in Owned(tags + {Tag(a.version, source)}, source, bump)
  {
    var m :| m in Bases(tags, bump) && Highest(Bases(tags, bump), m)
      && a == Allocated(Text(NextVersion(m, bump)), false);
    BasesInRange(tags, bump, m);
    NextIsAbove(m, bump);
    v := NextVersion(m, bump);
    ParseText(v);
    forall t | t in tags && CountsUp(t, bump)
      ensures Less(ParseVersion(t.name).value, v)
    {
      assert ParseVersion(t.name).value in Bases(tags, bump);
      LessIsStrictTotal(ParseVersion(t.name).value, m, v);
    }
    assert Tag(a.version, source) in tags + {Tag(a.version, source)};
  }

  predicate Higher(v: Version, w: Version) {
    v.major > w.major || (v.major == w.major && (v.minor > w.minor || (v.minor == w.minor && v.patch > w.patch)))
  }

  /** The tag names this version: its canonical text, with components that fit a signed 64-bit integer. */
  predicate Names(t: Tag, v: Version) {
    t.name == Text(v) && v.major < 0x8000_0000_0000_0000 && v.minor < 0x8000_0000_0000_0000
      && v.patch < 0x8000_0000_0000_0000
  }

  /** w is one release of this kind after v: the counted component rises by one, within 64 bits, and the
      lower ones start over. */
  predicate OneAfter(v: Version, w: Version, bump: Bump) {
    match bump
    case Major => w == Version(v.major + 1, 0, 0) && w.major < 0x8000_0000_0000_0000
    case Minor => w == Version(v.major, v.minor + 1, 0) && w.minor < 0x8000_0000_0000_0000
    case Patch => w == Version(v.major, v.minor, v.patch + 1) && w.patch < 0x8000_0000_0000_0000
    case Unsupported => false
  }

  /** The numbers tell that w can be a release of this kind. */
  predicate IsRelease(w: Version, bump: Bump) {
    match bump
    case Major => w.major > 0 && w.minor == 0 && w.patch == 0
    case Minor => w.minor > 0 && w.patch == 0
    case Patch => w.patch > 0
    case Unsupported => false
  }

  /** v was put on the source before, as a release of this kind. */
  predicate Own(tags: set<Tag>, source: string, bump: Bump, v: Version) {
    IsRelease(v, bump) && exists t | t in tags :: t.commit == source && Names(t, v)
  }

  lemma NamesParses(t: Tag, v: Version)
    ensures Names(t, v) <==> ParseVersion(t.name) == Some(v)
  {
    TagRoundTrip(t.name, v);
  }

  lemma FitsIsOwned(tags: set<Tag>, source: string, bump: Bump, t: Tag)
    requires t in tags && Fits(t, source, bump)
    ensures ParseVersion(t.name).value in Owned(tags, source, bump)
  {
  }

  lemma OwnedMeans(tags: set<Tag>, source: string, bump: Bump, v: Version)
    ensures v in Owned(tags, source, bump) <==> Own(tags, source, bump, v)
  {
    assert IsRelease(v, bump) <==> Shaped(v, bump);
    forall t ensures Names(t, v) <==> ParseVersion(t.name) == Some(v) { NamesParses(t, v); }
    if Own(tags, source, bump, v) {
      var t :| t in tags && t.commit == source && Names(t, v);
      FitsIsOwned(tags, source, bump, t);
    }
  }

  /** A release already on the source is returned again, the highest of them. */
  lemma ReuseMeans(tags: set<Tag>, source: string, bump: Bump, a: Allocation)
    requires Allocates(tags, source, bump, a)
    ensures a.Refused? <==> bump.Unsupported?
    ensures a.Allocated? && a.reused <==> exists v :: Own(tags, source, bump, v)
    ensures a.Allocated? && a.reused ==> exists v ::
      && Own(tags, source, bump, v) && a.version == Text(v)
      && forall w | Own(tags, source, bump, w) :: w == v || Higher(v, w)
  {
    var own := Owned(tags, source, bump);
    forall v ensures v in own <==> Own(tags, source, bump, v) { OwnedMeans(tags, source, bump, v); }
    if bump.Unsupported? {
      assert forall v :: !Own(tags, source, bump, v);
    } else if own != {} {
      var v :| v in own && Highest(own, v) && a == Allocated(Text(v), true);
      assert forall w | Own(tags, source, bump, w) :: w == v || Higher(v, w);
    }
  }

  /** Otherwise the new version is one release after the highest version there is, or after 0.0.0, not
      counting versions with no room for one more. */
  lemma NewMeans(tags: set<Tag>, source: string, bump: Bump, a: Allocation) returns (m: Version, v: Version)
    requires Allocates(tags, source, bump, a) && a.Allocated? && !a.reused
    ensures a.version == Text(v) && OneAfter(m, v, bump)
    ensures m == Version(0, 0, 0) || exists t | t in tags :: Names(t, m)
    ensures forall t, w | t in tags && Names(t, w) && (exists x :: OneAfter(w, x, bump)) :: w == m || Higher(m, w)
  {
    var bases := Bases(tags, bump);
    m :| m in bases && Highest(bases, m) && a == Allocated(Text(NextVersion(m, bump)), false);
    v := NextVersion(m, bump);
    BasesInRange(tags, bump, m);
    if m != ZERO {
      var t :| t in tags && CountsUp(t, bump) && ParseVersion(t.name).value == m;
      NamesParses(t, m);
    }
    forall t, w | t in tags && Names(t, w) && (exists x :: OneAfter(w, x, bump)) ensures w == m || Higher(m, w) {
      NamesParses(t, w);
      assert CountsUp(t, bump) && w in bases;
    }
  }

  /** Tags of other commits or other shapes change nothing about what the source owns. */
  lemma OwnedUnchanged(tags: set<Tag>, added: set<Tag>, source: string, bump: Bump)
    requires forall t | t in added :: !Fits(t, source, bump)
    ensures Owned(tags + added, source, bump) == Owned(tags, source, bump)
  {
  }

  lemma OwnedWithTag(tags: set<Tag>, source: string, bump: Bump, v: Version)
    requires InRange(v) && Shaped(v, bump)
    ensures Owned(tags + {Tag(Text(v), source)}, source, bump) == Owned(tags, source, bump) + {v}
  {
    ParseText(v);
    AddTagOwned(tags, Tag(Text(v), source), source, bump);
  }

  lemma OwnedIsShaped(tags: set<Tag>, source: string, bump: Bump, v: Version)
    requires v in Owned(tags, source, bump)
    ensures InRange(v) && Shaped(v, bump)
  {
    var t :| t in tags && Fits(t, source, bump) && ParseVersion(t.name).value == v;
    TagRoundTrip(t.name, v);
  }

  /** What was allocated, as a version: now the highest the source owns, if the tag is put on it. */
  lemma AllocatedIsHighest(tags: set<Tag>, source: string, bump: Bump, a: Allocation) returns (v: Version)
    requires Allocates(tags, source, bump, a) && a.Allocated?
    ensures a.version == Text(v) && Highest(Owned(tags + {Tag(a.version, source)}, source, bump), v)
  {
    var own := Owned(tags, source, bump);
    if own == {} {
      v := NewIsAbove(tags, source, bump, a);
      OwnedWithTag(tags, source, bump, v);
    } else {
      v :| v in own && Highest(own, v) && a == Allocated(Text(v), true);
      OwnedIsShaped(tags, source, bump, v);
      OwnedWithTag(tags, source, bump, v);
    }
  }

  /** Once attached to its source, an allocated version is what the same request returns, reused,
      whatever tags of other commits or other bump shapes are added. */
  lemma RetryReturnsSame(tags: set<Tag>, source: string, bump: Bump, a: Allocation, added: set<Tag>, b: Allocation)
    requires Allocates(tags, source, bump, a) && a.Allocated?
    requires forall t | t in added :: !Fits(t, source, bump)
    requires Allocates(tags + {Tag(a.version, source)} + added, source, bump, b)
    ensures b == Allocated(a.version, true)
  {
    var v := AllocatedIsHighest(tags, source, bump, a);
    OwnedUnchanged(tags + {Tag(a.version, source)}, added, source, bump);
    var own := Owned(tags + {Tag(a.version, source)} + added, source, bump);
    assert Highest(own, v);
    var w :| w in own && Highest(own, w) && b == Allocated(Text(w), true);
    LessIsStrictTotal(v, w, v);
  }

  lemma NewestBase(tags: set<Tag>, source: string, bump: Bump, a: Allocation, m: Version) returns (v: Version)
    requires Allocates(tags, source, bump, a) && a.Allocated? && !a.reused && Highest(Bases(tags, bump), m)
    ensures v == NextVersion(m, bump) && a.version == Text(v) && InRange(v)
  {
    var n :| n in Bases(tags, bump) && Highest(Bases(tags, bump), n)
      && a == Allocated(Text(NextVersion(n, bump)), false);
    LessIsStrictTotal(m, n, m);
    BasesInRange(tags, bump, m);
    NextIsAbove(m, bump);
    v := NextVersion(m, bump);
  }

  lemma TakenIsTop(tags: set<Tag>, source: string, bump: Bump, a: Allocation, m: Version, t: Tag)
    requires Allocates(tags, source, bump, a) && a.Allocated? && !a.reused && Highest(Bases(tags, bump), m)
    requires t in tags && t.name == a.version
    ensures t.commit != source && Component(m, bump) == MAX_INT64 - 1
  {
    var v := NewIsAbove(tags, source, bump, a);
    var w := NewestBase(tags, source, bump, a, m);
    ParseText(w);
    if CountsUp(t, bump) { LessIsStrictTotal(v, v, v); }
    if t.commit == source { FitsIsOwned(tags, source, bump, t); }
  }

  /** A new version's name exists already if and only if counting up from the highest incrementable
      version reaches the largest component there is, and another commit carries that very version. */
  lemma NameTakenExactly(tags: set<Tag>, source: string, bump: Bump, a: Allocation, m: Version)
    requires Allocates(tags, source, bump, a) && a.Allocated? && !a.reused && Highest(Bases(tags, bump), m)
    ensures (exists t | t in tags :: t.name == a.version) <==>
      && Component(m, bump) == MAX_INT64 - 1
      && exists t | t in tags :: t.commit != source && ParseVersion(t.name) == Some(NextVersion(m, bump))
  {
    var v := NewestBase(tags, source, bump, a, m);
    forall t | t in tags ensures t.name == a.version <==> ParseVersion(t.name) == Some(v) { TagRoundTrip(t.name, v); }
    if t :| t in tags && t.name == a.version { TakenIsTop(tags, source, bump, a, m, t); }
  }

  /** With nothing of its own and one base above zero, a patch request counts up from that base. */
  lemma CountsFrom(tags: set<Tag>, source: string, m: Version, a: Allocation)
    requires (forall t | t in tags :: t.commit != source) && Bases(tags, Patch) == {ZERO, m} && Less(ZERO, m)
    requires Allocates(tags, source, Patch, a)
    ensures a == Allocated(Text(NextVersion(m, Patch)), false)
  {
    assert Owned(tags, source, Patch) == {};
    var v :| v in Bases(tags, Patch) && Highest(Bases(tags, Patch), v)
      && a == Allocated(Text(NextVersion(v, Patch)), false);
    assert m in Bases(tags, Patch);
  }

  lemma TopTagsCountFrom(m: Version, s: Tag, t: Tag)
    requires m.major <= MAX_INT64 && m.minor <= MAX_INT64 && m.patch == MAX_INT64 - 1
    requires s.name == Text(m) && t.name == Text(NextVersion(m, Patch))
    ensures Bases({s, t}, Patch) == {ZERO, m}
  {
    ParseText(m);
    ParseText(NextVersion(m, Patch));
    AddTagBases({}, s, Patch);
    AddTagBases({s}, t, Patch);
    assert {s, t} == {s} + {t} && {s} == {} + {s};
  }

  /** Two tags of other commits at the top of the range are enough to make every patch allocation return
      a tag that exists: s is one below the top and t is the top. */
  lemma TopTagsBlockPatches(m: Version, s: Tag, t: Tag, source: string, a: Allocation)
    requires m.major <= MAX_INT64 && m.minor <= MAX_INT64 && m.patch == MAX_INT64 - 1
    requires s.name == Text(m) && t.name == Text(NextVersion(m, Patch)) && s.commit != source && t.commit != source
    requires Allocates({s, t}, source, Patch, a)
    ensures a == Allocated(t.name, false)
  {
    TopTagsCountFrom(m, s, t);
    CountsFrom({s, t}, source, m, a);
  }
}
