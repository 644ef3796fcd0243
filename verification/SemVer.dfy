/** Semantic versions: the strings that the registry accepts, the order key that it sorts by, and
    the next minor version that skill assignment proposes. */
module SemVer {
  import opened Prelude
  import opened Decimal
  import opened Sorting
  import opened Splitting

  datatype Version = Version(major: string, minor: string, patch: string,
                             pre: Option<seq<string>>, build: Option<seq<string>>)

  // ----- The grammar, section 2 and sections 9 and 10 of Semantic Versioning 2.0.0 -----

  predicate IdentifierChar(c: char) {
    IsDigit(c) || 'A' <= c <= 'Z' || 'a' <= c <= 'z' || c == '-'
  }

  predicate IsIdentifier(s: string) {
    s != [] && forall i :: 0 <= i < |s| ==> IdentifierChar(s[i])
  }

  /** Numeric identifiers of a prerelease have no leading zero. */
  predicate IsPrerelease(ids: seq<string>) {
    && ids != []
    && forall i :: 0 <= i < |ids| ==> IsIdentifier(ids[i]) && (AllDigits(ids[i]) ==> IsNumeral(ids[i]))
  }

  predicate IsBuild(ids: seq<string>) {
    ids != [] && forall i :: 0 <= i < |ids| ==> IsIdentifier(ids[i])
  }

  predicate WellFormed(v: Version) {
    && IsNumeral(v.major) && IsNumeral(v.minor) && IsNumeral(v.patch)
    && (v.pre.Some? ==> IsPrerelease(v.pre.value))
    && (v.build.Some? ==> IsBuild(v.build.value))
  }

  function Core(v: Version): string {
    Join([v.major, v.minor, v.patch], '.')
  }

  function Head(v: Version): string {
    if v.pre.None? then Core(v) else Core(v) + ['-'] + Join(v.pre.value, '.')
  }

  function Render(v: Version): string {
    if v.build.None? then Head(v) else Head(v) + ['+'] + Join(v.build.value, '.')
  }

  // ----- The parser -----

  function Identifiers(s: Option<string>): Option<seq<string>> {
    if s.None? then None else Some(Split(s.value, '.'))
  }

  function Parse(s: string): Option<Version> {
    var outer := Cut(s, '+');
    var inner := Cut(outer.head, '-');
    var core := Split(inner.head, '.');
    if |core| != 3 then None
    else
      var v := Version(core[0], core[1], core[2], Identifiers(inner.tail), Identifiers(outer.tail));
      if WellFormed(v) then Some(v) else None
  }

  lemma NumeralIsPlain(s: string, c: char)
    requires IsNumeral(s) && !IsDigit(c)
    ensures c !in s
  {
  }

  lemma CorePlain(v: Version, c: char)
    requires WellFormed(v) && !IsDigit(c) && c != '.'
    ensures c !in Core(v)
  {
    NumeralIsPlain(v.major, c);
    NumeralIsPlain(v.minor, c);
    NumeralIsPlain(v.patch, c);
    JoinIsWithout([v.major, v.minor, v.patch], '.', c);
  }

  lemma CoreSplits(v: Version)
    requires WellFormed(v)
    ensures Split(Core(v), '.') == [v.major, v.minor, v.patch]
  {
    NumeralIsPlain(v.major, '.');
    NumeralIsPlain(v.minor, '.');
    NumeralIsPlain(v.patch, '.');
    JoinThenSplit([v.major, v.minor, v.patch], '.');
  }

  lemma IdentifiersSplit(ids: seq<string>)
    requires IsBuild(ids)
    ensures Split(Join(ids, '.'), '.') == ids && '+' !in Join(ids, '.')
  {
    JoinThenSplit(ids, '.');
    JoinIsWithout(ids, '.', '+');
  }

  lemma HeadCuts(v: Version)
    requires WellFormed(v)
    ensures var inner := Cut(Head(v), '-');
            Split(inner.head, '.') == [v.major, v.minor, v.patch] && Identifiers(inner.tail) == v.pre
    ensures '+' !in Head(v)
  {
    hide Join, Split, Cut;
    CorePlain(v, '-');
    CorePlain(v, '+');
    CoreSplits(v);
    if v.pre.None? {
      CutNowhere(Core(v), '-');
    } else {
      IdentifiersSplit(v.pre.value);
      CutAt(Core(v), Join(v.pre.value, '.'), '-');
    }
  }

  lemma RenderThenParse(v: Version)
    requires WellFormed(v)
    ensures Parse(Render(v)) == Some(v)
  {
    hide Join, Split, Cut, Head;
    HeadCuts(v);
    if v.build.None? {
      CutNowhere(Head(v), '+');
    } else {
      IdentifiersSplit(v.build.value);
      CutAt(Head(v), Join(v.build.value, '.'), '+');
    }
  }

  lemma ParseThenRender(s: string)
    requires Parse(s).Some?
    ensures WellFormed(Parse(s).value) && Render(Parse(s).value) == s
  {
    hide Join, Split, Cut;
    var v := Parse(s).value;
    var outer := Cut(s, '+');
    var inner := Cut(outer.head, '-');
    SplitThenJoin(inner.head, '.');
    assert Split(inner.head, '.') == [v.major, v.minor, v.patch];
    if inner.tail.Some? { SplitThenJoin(inner.tail.value, '.'); }
    if outer.tail.Some? { SplitThenJoin(outer.tail.value, '.'); }
  }

  /** The accepted strings are exactly those of the grammar, and each is read in one way. */
  lemma ParsesTheGrammar(s: string, v: Version)
    ensures Parse(s) == Some(v) <==> WellFormed(v) && Render(v) == s
  {
    if Parse(s).Some? { ParseThenRender(s); }
    if WellFormed(v) && Render(v) == s { RenderThenParse(v); }
  }

  // ----- The order key -----

  /** `(0, int(identifier))` or `(1, identifier)`. */
  datatype KeyPart = Numeric(n: nat) | Text(s: string)

  datatype Key = Key(major: nat, minor: nat, patch: nat, released: nat, parts: seq<KeyPart>)

  function PartOf(id: string): KeyPart {
    if id != [] && AllDigits(id) then Numeric(Read(id)) else Text(id)
  }

  function PartsOf(ids: seq<string>): (parts: seq<KeyPart>)
    ensures |parts| == |ids| && forall i :: 0 <= i < |ids| ==> parts[i] == PartOf(ids[i])
  {
    if ids == [] then [] else PartsOf(ids[..|ids| - 1]) + [PartOf(ids[|ids| - 1])]
  }

  function KeyOf(v: Version): Key
    requires WellFormed(v)
  {
    Key(Read(v.major), Read(v.minor), Read(v.patch), if v.pre.None? then 1 else 0,
        if v.pre.None? then [] else PartsOf(v.pre.value))
  }

  /** `_semver`: the key of a valid version; an invalid one raises. */
  function Semver(s: string): Option<Key> {
    var v := Parse(s);
    if v.None? then None else Some(KeyOf(v.value))
  }

  /** `_semver` as it is computed: the pattern does not look at leading zeros of prerelease
      identifiers, so the loop that builds the key rejects them. */
  method SemverKey(version: string) returns (key: Option<Key>)
    ensures key == Semver(version)
  {
    hide Split, Cut, Read;
    var outer := Cut(version, '+');
    var inner := Cut(outer.head, '-');
    var core := Split(inner.head, '.');
    var prerelease, build := Identifiers(inner.tail), Identifiers(outer.tail);
    if || |core| != 3 || !IsNumeral(core[0]) || !IsNumeral(core[1]) || !IsNumeral(core[2])
       || (prerelease.Some? && !IsBuild(prerelease.value)) || (build.Some? && !IsBuild(build.value))
    {
      return None;
    }
    var parts: seq<KeyPart> := [];
    if prerelease.Some? {
      var ids := prerelease.value;
      for i := 0 to |ids|
        invariant |parts| == i && forall k :: 0 <= k < i ==> parts[k] == PartOf(ids[k])
        invariant forall k :: 0 <= k < i ==> AllDigits(ids[k]) ==> IsNumeral(ids[k])
      {
        if AllDigits(ids[i]) {
          if |ids[i]| > 1 && ids[i][0] == '0' { return None; }
          parts := parts + [Numeric(Read(ids[i]))];
        } else {
          parts := parts + [Text(ids[i])];
        }
      }
      assert parts == PartsOf(ids);
    }
    key := Some(Key(Read(core[0]), Read(core[1]), Read(core[2]), if prerelease.None? then 1 else 0, parts));
  }

  /** Tuples compare by their first difference, and a number's tag is below a text's. */
  predicate PartLe(a: KeyPart, b: KeyPart) {
    match (a, b)
    case (Numeric(m), Numeric(n)) => m <= n
    case (Numeric(_), Text(_)) => true
    case (Text(_), Numeric(_)) => false
    case (Text(s), Text(t)) => StringLe(s, t)
  }

  predicate PartsLe(a: seq<KeyPart>, b: seq<KeyPart>) {
    if a == [] then true
    else if b == [] then false
    else if a[0] != b[0] then PartLe(a[0], b[0])
    else PartsLe(a[1..], b[1..])
  }

  predicate KeyLe(a: Key, b: Key) {
    if a.major != b.major then a.major < b.major
    else if a.minor != b.minor then a.minor < b.minor
    else if a.patch != b.patch then a.patch < b.patch
    else if a.released != b.released then a.released < b.released
    else PartsLe(a.parts, b.parts)
  }

  lemma PartOrder(a: KeyPart, b: KeyPart, c: KeyPart)
    ensures PartLe(a, b) || PartLe(b, a)
    ensures PartLe(a, b) && PartLe(b, a) ==> a == b
    ensures PartLe(a, b) && PartLe(b, c) ==> PartLe(a, c)
  {
    StringOrder();
  }

  lemma {:induction false} PartsTotal(a: seq<KeyPart>, b: seq<KeyPart>)
    ensures PartsLe(a, b) || PartsLe(b, a)
    ensures PartsLe(a, b) && PartsLe(b, a) ==> a == b
  {
    hide PartLe;
    if a != [] && b != [] {
      PartOrder(a[0], b[0], a[0]);
      if a[0] == b[0] {
        PartsTotal(a[1..], b[1..]);
        assert a == [a[0]] + a[1..] && b == [b[0]] + b[1..];
      }
    }
  }

  lemma {:induction false} PartsTransitive(a: seq<KeyPart>, b: seq<KeyPart>, c: seq<KeyPart>)
    requires PartsLe(a, b) && PartsLe(b, c)
    ensures PartsLe(a, c)
  {
    hide PartLe;
    if a != [] && b != [] && c != [] {
      if a[0] == b[0] == c[0] {
        PartsTransitive(a[1..], b[1..], c[1..]);
      } else {
        PartOrder(a[0], b[0], c[0]);
        PartOrder(c[0], b[0], a[0]);
      }
    }
  }

  /** The key order is total and transitive, and only equal keys tie. */
  lemma KeyOrder()
    ensures TotalPreorder(KeyLe)
    ensures forall a, b :: KeyLe(a, b) && KeyLe(b, a) ==> a == b
  {
    hide PartsLe;
    forall a, b ensures (KeyLe(a, b) || KeyLe(b, a)) && (KeyLe(a, b) && KeyLe(b, a) ==> a == b) {
      PartsTotal(a.parts, b.parts);
    }
    forall a, b, c | KeyLe(a, b) && KeyLe(b, c) ensures KeyLe(a, c) {
      if PartsLe(a.parts, b.parts) && PartsLe(b.parts, c.parts) { PartsTransitive(a.parts, b.parts, c.parts); }
    }
  }

  // ----- Precedence, section 11 -----

  /** Items 1 to 3 of section 11.4: identifiers of digits only compare numerically, others by
      their ASCII text, and a numeric one is always below the others. */
  predicate IdentifierBelow(a: string, b: string) {
    if AllDigits(a) && AllDigits(b) then Read(a) < Read(b)
    else if AllDigits(a) then true
    else if AllDigits(b) then false
    else StringLt(a, b)
  }

  /** Section 11.4: the first difference decides, and with none the longer list is above. */
  ghost predicate PrereleaseBelow(a: seq<string>, b: seq<string>) {
    exists i :: 0 <= i <= |a| && DifferFirstAt(a, b, i)
  }

  ghost predicate DifferFirstAt(a: seq<string>, b: seq<string>, i: nat)
    requires i <= |a|
  {
    && i < |b| && a[..i] == b[..i]
    && (i < |a| ==> a[i] != b[i] && IdentifierBelow(a[i], b[i]))
  }

  function Numbers(v: Version): seq<nat>
    requires WellFormed(v)
  {
    [Read(v.major), Read(v.minor), Read(v.patch)]
  }

  /** Sections 11.2 to 11.4. Build metadata does not figure into precedence (section 11.1). */
  ghost predicate Below(a: Version, b: Version)
    requires WellFormed(a) && WellFormed(b)
  {
    || (exists i :: 0 <= i < 3 && Numbers(a)[..i] == Numbers(b)[..i] && Numbers(a)[i] < Numbers(b)[i])
    || (Numbers(a) == Numbers(b) && a.pre.Some? && b.pre.None?)
    || (Numbers(a) == Numbers(b) && a.pre.Some? && b.pre.Some? && PrereleaseBelow(a.pre.value, b.pre.value))
  }

  lemma PartOfIsInjective(a: string, b: string)
    requires IsIdentifier(a) && IsIdentifier(b)
    requires (AllDigits(a) ==> IsNumeral(a)) && (AllDigits(b) ==> IsNumeral(b))
    ensures PartOf(a) == PartOf(b) <==> a == b
    ensures a != b ==> (PartLe(PartOf(a), PartOf(b)) <==> IdentifierBelow(a, b))
  {
    if AllDigits(a) && AllDigits(b) && Read(a) == Read(b) {
      ShowRead(a);
      ShowRead(b);
    }
  }

  lemma PartsTail(ids: seq<string>)
    requires IsPrerelease(ids)
    ensures (ids[1..] == [] || IsPrerelease(ids[1..])) && PartsOf(ids)[1..] == PartsOf(ids[1..])
  {
    hide PartOf, IsIdentifier, AllDigits, IsNumeral;
  }

  /** Comparing the tuples of parts finds the first difference. */
  lemma {:induction false} PartsOrderIsPrecedence(a: seq<string>, b: seq<string>)
    requires (a == [] || IsPrerelease(a)) && (b == [] || IsPrerelease(b))
    ensures PartsLe(PartsOf(a), PartsOf(b)) && a != b <==> PrereleaseBelow(a, b)
  {
    hide IdentifierBelow, PartOf, PartsOf, PartLe, IsIdentifier, AllDigits, IsNumeral, PrereleaseBelow;
    if a == [] {
      EmptyIsBelow(b);
    } else if b == [] {
      NothingBelowEmpty(a);
    } else {
      PartOfIsInjective(a[0], b[0]);
      if a[0] != b[0] {
        FirstDiffers(a, b);
      } else {
        PartsTail(a);
        PartsTail(b);
        PartsOrderIsPrecedence(a[1..], b[1..]);
        SameFirst(a, b);
        assert a == [a[0]] + a[1..] && b == [b[0]] + b[1..];
      }
    }
  }

  lemma EmptyIsBelow(b: seq<string>)
    ensures PrereleaseBelow([], b) <==> b != []
  {
    if b != [] { assert DifferFirstAt([], b, 0); }
  }

  lemma NothingBelowEmpty(a: seq<string>)
    ensures !PrereleaseBelow(a, [])
  {
  }

  lemma FirstDiffers(a: seq<string>, b: seq<string>)
    requires a != [] && b != [] && a[0] != b[0]
    ensures PrereleaseBelow(a, b) <==> IdentifierBelow(a[0], b[0])
  {
    hide IdentifierBelow;
    if IdentifierBelow(a[0], b[0]) { assert DifferFirstAt(a, b, 0); }
    if PrereleaseBelow(a, b) {
      var i :| 0 <= i <= |a| && DifferFirstAt(a, b, i);
      if i > 0 { assert a[..i][0] == b[..i][0]; }
    }
  }

  lemma SameFirst(a: seq<string>, b: seq<string>)
    requires a != [] && b != [] && a[0] == b[0]
    ensures PrereleaseBelow(a, b) <==> PrereleaseBelow(a[1..], b[1..])
  {
    hide IdentifierBelow;
    if PrereleaseBelow(a, b) {
      var i :| 0 <= i <= |a| && DifferFirstAt(a, b, i);
      assert i > 0;
      assert a[1..][..i - 1] == a[..i][1..] && b[1..][..i - 1] == b[..i][1..];
      assert DifferFirstAt(a[1..], b[1..], i - 1);
    }
    if PrereleaseBelow(a[1..], b[1..]) {
      var i :| 0 <= i <= |a[1..]| && DifferFirstAt(a[1..], b[1..], i);
      assert a[..i + 1] == [a[0]] + a[1..][..i] && b[..i + 1] == [b[0]] + b[1..][..i];
      assert DifferFirstAt(a, b, i + 1);
    }
  }

  lemma NumbersOrder(a: Version, b: Version)
    requires WellFormed(a) && WellFormed(b)
    ensures (exists i :: 0 <= i < 3 && Numbers(a)[..i] == Numbers(b)[..i] && Numbers(a)[i] < Numbers(b)[i]) <==>
            (if Read(a.major) != Read(b.major) then Read(a.major) < Read(b.major)
             else if Read(a.minor) != Read(b.minor) then Read(a.minor) < Read(b.minor)
             else Read(a.patch) < Read(b.patch))
  {
    hide Read;
    var x, y := Numbers(a), Numbers(b);
    assert x[..0] == y[..0];
    assert x[..1] == [x[0]] && y[..1] == [y[0]];
    assert x[..2] == [x[0], x[1]] && y[..2] == [y[0], y[1]];
    if x[0] != y[0] {
    } else if x[1] != y[1] {
      assert x[..1] == y[..1];
    } else {
      assert x[..2] == y[..2];
    }
  }

  /** On every two valid versions, the key order is the precedence of section 11. */
  lemma KeyOrderIsPrecedence(a: Version, b: Version)
    requires WellFormed(a) && WellFormed(b)
    ensures KeyLe(KeyOf(a), KeyOf(b)) && KeyOf(a) != KeyOf(b) <==> Below(a, b)
  {
    hide Read, PartsLe, IsPrerelease, PrereleaseBelow;
    NumbersOrder(a, b);
    KeysTieUpToBuild(a, b);
    if a.pre.Some? && b.pre.Some? {
      PartsOrderIsPrecedence(a.pre.value, b.pre.value);
    } else {
      PartsOfNone();
    }
  }

  lemma PartsOfNone()
    ensures PartsLe([], [])
  {
  }

  /** Section 10: two versions that differ only in build metadata have the same precedence, and
      no other two have. */
  lemma KeysTieUpToBuild(a: Version, b: Version)
    requires WellFormed(a) && WellFormed(b)
    ensures KeyOf(a) == KeyOf(b) <==> a.(build := None) == b.(build := None)
    ensures Numbers(a) == Numbers(b) <==> a.major == b.major && a.minor == b.minor && a.patch == b.patch
    ensures a.pre.Some? && b.pre.Some? ==> (PartsOf(a.pre.value) == PartsOf(b.pre.value) <==> a.pre == b.pre)
  {
    hide Read, PartOf;
    ShowRead(a.major);
    ShowRead(b.major);
    ShowRead(a.minor);
    ShowRead(b.minor);
    ShowRead(a.patch);
    ShowRead(b.patch);
    if a.pre.Some? && b.pre.Some? { PartsAreInjective(a.pre.value, b.pre.value); }
  }

  lemma PartsAreInjective(a: seq<string>, b: seq<string>)
    requires IsPrerelease(a) && IsPrerelease(b)
    ensures PartsOf(a) == PartsOf(b) <==> a == b
  {
    hide PartOf;
    if PartsOf(a) == PartsOf(b) {
      forall i | 0 <= i < |a| ensures a[i] == b[i] { PartOfIsInjective(a[i], b[i]); }
    }
  }

  // ----- Printing a key -----

  function PartText(p: KeyPart): string {
    match p
    case Numeric(n) => Show(n)
    case Text(s) => s
  }

  function PartTexts(parts: seq<KeyPart>): (ids: seq<string>)
    ensures |ids| == |parts| && forall i :: 0 <= i < |parts| ==> ids[i] == PartText(parts[i])
  {
    if parts == [] then [] else PartTexts(parts[..|parts| - 1]) + [PartText(parts[|parts| - 1])]
  }

  function VersionOf(k: Key): Version {
    Version(Show(k.major), Show(k.minor), Show(k.patch),
            if k.released == 1 then None else Some(PartTexts(k.parts)), None)
  }

  lemma PrintThenRead(v: Version)
    requires WellFormed(v)
    ensures VersionOf(KeyOf(v)) == v.(build := None)
  {
    hide Read, Show, PartOf;
    ShowRead(v.major);
    ShowRead(v.minor);
    ShowRead(v.patch);
    if v.pre.Some? {
      var ids := v.pre.value;
      forall i | 0 <= i < |ids| ensures PartText(PartOf(ids[i])) == ids[i] { PartTextOf(ids[i]); }
      assert PartTexts(PartsOf(ids)) == ids;
    }
  }

  lemma PartTextOf(id: string)
    requires IsIdentifier(id) && (AllDigits(id) ==> IsNumeral(id))
    ensures PartText(PartOf(id)) == id
  {
    if AllDigits(id) { ShowRead(id); }
  }

  /** A key loses nothing but the build metadata: printed as a version, it is read back as the
      same key. */
  lemma KeyRoundTrip(s: string)
    requires Semver(s).Some?
    ensures Semver(Render(VersionOf(Semver(s).value))) == Semver(s)
  {
    hide Render, KeyOf;
    ParseThenRender(s);
    var v := Parse(s).value;
    PrintThenRead(v);
    RenderThenParse(v.(build := None));
    KeysTieUpToBuild(v, v.(build := None));
  }

  // ----- The next minor version -----

  /** `str.isdigit`, for ASCII. */
  predicate AreDigits(s: string) {
    s != [] && AllDigits(s)
  }

  /** `_next_minor`, which cuts at the first hyphen only. */
  function NextMinor(version: string): Option<string> {
    var parts := Split(Cut(version, '-').head, '.');
    if |parts| != 3 || !AreDigits(parts[0]) || !AreDigits(parts[1]) || !AreDigits(parts[2]) then None
    else Some(Join([parts[0], Show(Read(parts[1]) + 1), ['0']], '.'))
  }

  /** A core followed by build metadata is not three runs of digits. */
  lemma BuildIsNotDigits(v: Version)
    requires WellFormed(v) && v.pre.None? && v.build.Some?
    ensures NextMinor(Render(v)).None?
  {
    hide Join, Split, Cut;
    var s := Render(v);
    var h := Cut(s, '-');
    CorePlain(v, '-');
    CorePlain(v, '+');
    CutPast(Core(v) + ['+'], Join(v.build.value, '.'), '-');
    assert h.head[|Core(v)|] == s[|Core(v)|] == '+';
    var parts := Split(h.head, '.');
    SplitThenJoin(h.head, '.');
    assert '+' in h.head;
    if |parts| == 3 && AreDigits(parts[0]) && AreDigits(parts[1]) && AreDigits(parts[2]) {
      JoinIsWithout(parts, '.', '+');
      assert false;
    }
  }

  /** Without build metadata, or with a prerelease in front of it, the cut leaves the core. */
  lemma CutLeavesTheCore(v: Version)
    requires WellFormed(v) && (v.pre.Some? || v.build.None?)
    ensures Cut(Render(v), '-').head == Core(v)
  {
    hide Join;
    CorePlain(v, '-');
    if v.pre.None? {
      CutNowhere(Core(v), '-');
    } else {
      var rest := Join(v.pre.value, '.') + (if v.build.None? then [] else ['+'] + Join(v.build.value, '.'));
      assert Render(v) == Core(v) + ['-'] + rest;
      CutAt(Core(v), rest, '-');
    }
  }

  lemma ProposedIsWellFormed(v: Version)
    requires WellFormed(v)
    ensures var next := Version(v.major, Show(Read(v.minor) + 1), ['0'], None, None);
            WellFormed(next) && Below(v, next)
            && Render(next) == Join([v.major, Show(Read(v.minor) + 1), ['0']], '.')
  {
    hide Join;
    var next := Version(v.major, Show(Read(v.minor) + 1), ['0'], None, None);
    ReadShow(Read(v.minor) + 1);
    assert Numbers(v)[..1] == Numbers(next)[..1];
    assert Numbers(v)[1] < Numbers(next)[1];
  }

  /** On a valid version the proposal exists exactly when build metadata is absent or stands behind
      a prerelease; it is then a valid release version, and strictly above the version it is made from. */
  lemma NextMinorIsGreater(v: Version)
    requires WellFormed(v)
    ensures NextMinor(Render(v)).Some? <==> v.pre.Some? || v.build.None?
    ensures NextMinor(Render(v)).Some? ==>
              var next := Parse(NextMinor(Render(v)).value);
              && next.Some? && WellFormed(next.value) && Below(v, next.value)
              && next.value.pre.None? && next.value.build.None? && next.value.major == v.major
  {
    hide Join, Split, Cut, Parse, Render, Below;
    if v.pre.None? && v.build.Some? {
      BuildIsNotDigits(v);
    } else {
      CutLeavesTheCore(v);
      CoreSplits(v);
      ProposedIsWellFormed(v);
      RenderThenParse(Version(v.major, Show(Read(v.minor) + 1), ['0'], None, None));
    }
  }
}
