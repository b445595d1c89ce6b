/**
  Release version parsing and ordering (proto/updateutil/version.go): SemVer 2.0.0
  precedence, plus the historical `vX.Y.Z-N-g<hash>-staging` form of git describe.

  The code orders numeric identifiers by length and then bytes and never computes
  their value; `Precedence` below is the reference it is proved against: section 11
  of SemVer 2.0.0 over the numbers and words that the identifiers denote.
 */
module Versions {
  import opened Basics
  import opened Text

  const UINT64: nat := 0x1_0000_0000_0000_0000
  const MAX_VERSION_BYTES: nat := 128

  datatype Version = Version(core: seq<nat>, pre: seq<string>, ahead: nat)

  // ------------------------------------------------- reference: SemVer section 11

  datatype Identifier = Number(n: nat) | Word(w: string)

  /** Numbers compare numerically and sort below words, which compare as bytes. */
  function IdentifierPrecedence(p: Identifier, q: Identifier): (order: int)
    ensures order == -1 || order == 0 || order == 1
  {
    match (p, q)
    case (Number(m), Number(n)) => Sign(m - n)
    case (Number(_), Word(_)) => -1
    case (Word(_), Number(_)) => 1
    case (Word(v), Word(w)) => Text.Compare(v, w)
  }

  /** The first differing identifier decides; otherwise the longer list is higher. */
  function ListPrecedence(x: seq<Identifier>, y: seq<Identifier>): (order: int)
    ensures order == -1 || order == 0 || order == 1
  {
    if x == [] || y == [] then Sign(|x| - |y|)
    else if IdentifierPrecedence(x[0], y[0]) != 0 then IdentifierPrecedence(x[0], y[0])
    else ListPrecedence(x[1..], y[1..])
  }

  function CorePrecedence(x: seq<nat>, y: seq<nat>): (order: int)
    requires |x| == |y|
    ensures order == -1 || order == 0 || order == 1
  {
    if x == [] then 0
    else if x[0] != y[0] then (if x[0] < y[0] then -1 else 1)
    else CorePrecedence(x[1..], y[1..])
  }

  /** A release outranks its prereleases; a build `ahead` commits past it outranks both. */
  function Precedence(x: Version, y: Version): (order: int)
    requires Accepted(x) && Accepted(y)
    ensures order == -1 || order == 0 || order == 1
  {
    if CorePrecedence(x.core, y.core) != 0 then CorePrecedence(x.core, y.core)
    else if x.ahead != y.ahead then Sign(x.ahead - y.ahead)
    else if (x.pre == []) != (y.pre == []) then (if x.pre == [] then 1 else -1)
    else ListPrecedence(Meanings(x.pre), Meanings(y.pre))
  }

  /** What the parser guarantees of every version it returns. */
  predicate Accepted(v: Version) {
    && |v.core| == 3
    && (forall i :: 0 <= i < 3 ==> v.core[i] < UINT64)
    && v.ahead < UINT64
    && (v.ahead != 0 ==> v.pre == [])
    && (forall i :: 0 <= i < |v.pre| ==> PrereleaseIdentifier(v.pre[i]))
  }

  predicate PrereleaseIdentifier(id: string) {
    id != [] && (Digits(id) && |id| > 1 ==> id[0] != '0')
  }

  predicate IsNumeric(s: string) {
    s != [] && Digits(s)
  }

  function Meaning(id: string): Identifier {
    if IsNumeric(id) then Number(Value(id)) else Word(id)
  }

  function Meanings(ids: seq<string>): (ms: seq<Identifier>)
    ensures |ms| == |ids| && forall i :: 0 <= i < |ids| ==> ms[i] == Meaning(ids[i])
  {
    seq(|ids|, i requires 0 <= i < |ids| => Meaning(ids[i]))
  }

  // ------------------------------------------------------- the comparison as coded

  function CompareIdentifier(p: string, q: string): (order: int)
  {
    var pn, qn := IsNumeric(p), IsNumeric(q);
    if pn && qn && |p| != |q| then Sign(|p| - |q|)
    else if pn != qn then (if pn then -1 else 1)
    else Text.Compare(p, q)
  }

  /** Length-then-bytes on numeric identifiers is numeric order. */
  lemma IdentifierOrderIsPrecedence(p: string, q: string)
    requires PrereleaseIdentifier(p) && PrereleaseIdentifier(q)
    ensures CompareIdentifier(p, q) == IdentifierPrecedence(Meaning(p), Meaning(q))
  {
    if IsNumeric(p) && IsNumeric(q) {
      if |p| == |q| {
        EqualLengthOrder(p, q);
      } else if |p| < |q| {
        LongerIsLarger(p, q);
      } else {
        LongerIsLarger(q, p);
      }
    }
  }

  lemma {:induction false} SkipEqualPrefix(x: seq<Identifier>, y: seq<Identifier>, k: nat)
    requires k <= |x| && k <= |y|
    requires forall i :: 0 <= i < k ==> IdentifierPrecedence(x[i], y[i]) == 0
    ensures ListPrecedence(x, y) == ListPrecedence(x[k..], y[k..])
  {
    if k != 0 {
      SkipEqualPrefix(x, y, k - 1);
      assert x[k - 1..][1..] == x[k..] && y[k - 1..][1..] == y[k..];
    } else {
      assert x[0..] == x && y[0..] == y;
    }
  }

  method ComparePrerelease(x: seq<string>, y: seq<string>) returns (order: int)
    requires forall i :: 0 <= i < |x| ==> PrereleaseIdentifier(x[i])
    requires forall i :: 0 <= i < |y| ==> PrereleaseIdentifier(y[i])
    ensures order == if (x == []) != (y == []) then (if x == [] then 1 else -1)
                     else ListPrecedence(Meanings(x), Meanings(y))
  {
    if |x| == 0 || |y| == 0 {
      return Sign(|y| - |x|);
    }
    ghost var mx, my := Meanings(x), Meanings(y);
    var i := 0;
    while i < |x| && i < |y|
      invariant 0 <= i <= |x| && i <= |y|
      invariant forall k :: 0 <= k < i ==> IdentifierPrecedence(mx[k], my[k]) == 0
    {
      IdentifierOrderIsPrecedence(x[i], y[i]);
      order := CompareIdentifier(x[i], y[i]);
      if order != 0 {
        SkipEqualPrefix(mx, my, i);
        return;
      }
      i := i + 1;
    }
    SkipEqualPrefix(mx, my, i);
    order := Sign(|x| - |y|);
  }

  lemma {:induction false} CoreFirstDifference(x: seq<nat>, y: seq<nat>, k: nat)
    requires |x| == |y| && k <= |x| && x[..k] == y[..k]
    ensures CorePrecedence(x, y) == if k < |x| && x[k] != y[k] then (if x[k] < y[k] then -1 else 1)
                                    else CorePrecedence(x[k..], y[k..])
  {
    if k != 0 {
      assert x[0] == x[..k][0] == y[..k][0] == y[0];
      assert x[1..][..k - 1] == x[..k][1..] && y[1..][..k - 1] == y[..k][1..];
      CoreFirstDifference(x[1..], y[1..], k - 1);
      assert x[1..][k - 1..] == x[k..] && y[1..][k - 1..] == y[k..];
    } else {
      assert x[0..] == x && y[0..] == y;
    }
  }

  method CompareParsed(x: Version, y: Version) returns (order: int)
    requires Accepted(x) && Accepted(y)
    ensures order == Precedence(x, y)
  {
    var i := 0;
    while i < 3
      invariant 0 <= i <= 3 && x.core[..i] == y.core[..i]
    {
      if x.core[i] != y.core[i] {
        CoreFirstDifference(x.core, y.core, i);
        return if x.core[i] < y.core[i] then -1 else 1;
      }
      i := i + 1;
    }
    CoreFirstDifference(x.core, y.core, 3);
    if x.ahead != 0 || y.ahead != 0 {
      return Sign(x.ahead - y.ahead);
    }
    order := ComparePrerelease(x.pre, y.pre);
  }

  /** The whole comparison, on every pair of inputs: refused, or section 11 precedence. */
  method CompareVersions(a: string, b: string) returns (result: Option<int>)
    ensures result == Order(a, b)
  {
    var x :- ParseVersion(a);
    var y :- ParseVersion(b);
    var order := CompareParsed(x, y);
    return Some(order);
  }

  /** The order of two version strings, if both are accepted. */
  function Order(a: string, b: string): Option<int> {
    var x :- ParseVersion(a);
    var y :- ParseVersion(b);
    Some(Precedence(x, y))
  }

  // ------------------------------------------------------------ total preorder laws

  lemma IdentifierLaws(p: Identifier, q: Identifier, r: Identifier)
    ensures IdentifierPrecedence(q, p) == -IdentifierPrecedence(p, q)
    ensures IdentifierPrecedence(p, q) == 0 <==> p == q
    ensures IdentifierPrecedence(p, q) <= 0 && IdentifierPrecedence(q, r) <= 0 ==>
              IdentifierPrecedence(p, r) <= 0
  {
    if p.Word? && q.Word? {
      CompareFlips(p.w, q.w);
      if r.Word? && Text.Compare(p.w, q.w) <= 0 && Text.Compare(q.w, r.w) <= 0 {
        CompareTransitive(p.w, q.w, r.w);
      }
    }
  }

  lemma {:induction false} ListFlips(x: seq<Identifier>, y: seq<Identifier>)
    ensures ListPrecedence(y, x) == -ListPrecedence(x, y)
    ensures ListPrecedence(x, y) == 0 <==> x == y
  {
    if x != [] && y != [] {
      IdentifierLaws(x[0], y[0], y[0]);
      ListFlips(x[1..], y[1..]);
      assert x == [x[0]] + x[1..] && y == [y[0]] + y[1..];
    }
  }

  lemma {:induction false} ListTransitive(x: seq<Identifier>, y: seq<Identifier>, z: seq<Identifier>)
    requires ListPrecedence(x, y) <= 0 && ListPrecedence(y, z) <= 0
    ensures ListPrecedence(x, z) <= 0
  {
    if x != [] && y != [] && z != [] {
      IdentifierLaws(x[0], y[0], z[0]);
      IdentifierLaws(z[0], y[0], x[0]);
      IdentifierLaws(x[0], z[0], y[0]);
      if x[0] == y[0] == z[0] {
        ListTransitive(x[1..], y[1..], z[1..]);
      }
    }
  }

  lemma {:induction false} CoreLaws(x: seq<nat>, y: seq<nat>, z: seq<nat>)
    requires |x| == |y| == |z|
    ensures CorePrecedence(y, x) == -CorePrecedence(x, y)
    ensures CorePrecedence(x, y) == 0 <==> x == y
    ensures CorePrecedence(x, y) <= 0 && CorePrecedence(y, z) <= 0 ==> CorePrecedence(x, z) <= 0
  {
    if x != [] {
      CoreLaws(x[1..], y[1..], z[1..]);
      assert x == [x[0]] + x[1..] && y == [y[0]] + y[1..];
    }
  }

  /** Reversing the arguments negates the order; every version equals itself. */
  lemma PrecedenceFlips(x: Version, y: Version)
    requires Accepted(x) && Accepted(y)
    ensures Precedence(y, x) == -Precedence(x, y)
    ensures Precedence(x, x) == 0
  {
    CoreLaws(x.core, y.core, y.core);
    CoreLaws(x.core, x.core, x.core);
    ListFlips(Meanings(x.pre), Meanings(y.pre));
    ListFlips(Meanings(x.pre), Meanings(x.pre));
  }

  lemma PrecedenceTransitive(x: Version, y: Version, z: Version)
    requires Accepted(x) && Accepted(y) && Accepted(z)
    requires Precedence(x, y) <= 0 && Precedence(y, z) <= 0
    ensures Precedence(x, z) <= 0
  {
    CoreLaws(x.core, y.core, z.core);
    CoreLaws(x.core, z.core, y.core);
    CoreLaws(z.core, y.core, x.core);
    if x.core == y.core == z.core && x.ahead == y.ahead == z.ahead
       && x.pre != [] && y.pre != [] && z.pre != [] {
      ListTransitive(Meanings(x.pre), Meanings(y.pre), Meanings(z.pre));
    }
  }

  /** The update rule `CompareVersions(target, original) > 0`. */
  predicate Newer(target: string, original: string) {
    var order := Order(target, original);
    order.Some? && order.value > 0
  }

  /** "Newer" is a strict order on strings, so chains of accepted updates never loop. */
  lemma NewerIsStrictOrder(a: string, b: string, c: string)
    ensures !Newer(a, a)
    ensures Newer(a, b) && Newer(b, c) ==> Newer(a, c)
  {
    if ParseVersion(a).Some? {
      PrecedenceFlips(ParseVersion(a).value, ParseVersion(a).value);
    }
    if Newer(a, b) && Newer(b, c) {
      var x, y, z := ParseVersion(a).value, ParseVersion(b).value, ParseVersion(c).value;
      PrecedenceFlips(x, y);
      PrecedenceFlips(y, z);
      PrecedenceFlips(x, z);
      PrecedenceTransitive(z, y, x);
      if Precedence(x, z) == 0 {
        PrecedenceTransitive(x, z, y);
      }
    }
  }

  lemma NewerDiffers(a: string, b: string)
    requires Newer(a, b)
    ensures a != b && a != ""
  {
    NewerIsStrictOrder(a, b, a);
  }

  /** A historical build lies strictly between its base release and any higher core. */
  lemma HistoricalBuildBetween(base: Version, build: Version, next: Version)
    requires Accepted(base) && Accepted(build) && Accepted(next)
    requires base.ahead == 0 && build == base.(ahead := build.ahead) && build.ahead > 0
    requires CorePrecedence(base.core, next.core) < 0
    ensures base.pre == [] && Precedence(base, build) < 0 && Precedence(build, next) < 0
  {
    CoreLaws(base.core, build.core, next.core);
  }

  // ------------------------------------------------------------------------ parsing

  predicate IdentifierChar(c: char) {
    IsDigit(c) || 'a' <= c <= 'z' || 'A' <= c <= 'Z' || c == '-'
  }

  /** The character class `[0-9A-Za-z.-]+` of the two suffix groups. */
  predicate GroupChars(s: string) {
    s != [] && forall i :: 0 <= i < |s| ==> IdentifierChar(s[i]) || s[i] == '.'
  }

  predicate HexChars(s: string) {
    forall i :: 0 <= i < |s| ==> IsDigit(s[i]) || 'a' <= s[i] <= 'f'
  }

  predicate Contains(s: string, word: string) {
    exists i | 0 <= i <= |s| :: word <= s[i..]
  }

  predicate Canonical(d: string) {
    Digits(d) && d != [] && (|d| > 1 ==> d[0] != '0')
  }

  function DigitRun(s: string): (n: nat)
    ensures n <= |s| && Digits(s[..n]) && (n < |s| ==> !IsDigit(s[n]))
  {
    if s == [] || !IsDigit(s[0]) then 0 else
      var n := 1 + DigitRun(s[1..]);
      assert s[..n] == [s[0]] + s[1..][..n - 1];
      n
  }

  /** Text that cannot extend a numeral in front of it. */
  predicate Stops(rest: string) {
    rest == [] || !IsDigit(rest[0])
  }

  /** One group `0|[1-9][0-9]*` and what follows it. */
  function TakeNumeral(s: string): (r: Option<(string, string)>)
    ensures r.Some? ==> s == r.value.0 + r.value.1 && Canonical(r.value.0) && Stops(r.value.1)
  {
    var n := DigitRun(s);
    if n == 0 || (n > 1 && s[0] == '0') then None else Some((s[..n], s[n..]))
  }

  lemma {:induction false} DigitRunOf(d: string, rest: string)
    requires Digits(d) && Stops(rest)
    ensures DigitRun(d + rest) == |d|
  {
    if d == [] {
      assert d + rest == rest;
    } else {
      assert (d + rest)[1..] == d[1..] + rest;
      DigitRunOf(d[1..], rest);
    }
  }

  lemma TakeNumeralOf(d: string, rest: string)
    requires Canonical(d) && Stops(rest)
    ensures TakeNumeral(d + rest) == Some((d, rest))
  {
    DigitRunOf(d, rest);
    assert (d + rest)[..|d|] == d && (d + rest)[|d|..] == rest;
  }

  /** The three numerals of a version core. */
  datatype Core = Core(major: string, minor: string, patch: string) {
    predicate Valid() {
      Canonical(major) && Canonical(minor) && Canonical(patch)
    }

    function Show(): string {
      major + ("." + (minor + ("." + patch)))
    }
  }

  /** A numeral, a dot, and what follows the dot. */
  function TakeDotted(s: string): (r: Option<(string, string)>)
    ensures r.Some? ==> s == r.value.0 + ("." + r.value.1) && Canonical(r.value.0)
  {
    var a :- TakeNumeral(s);
    if a.1 == [] || a.1[0] != '.' then None else
      assert a.1 == "." + a.1[1..];
      Some((a.0, a.1[1..]))
  }

  lemma TakeDottedOf(d: string, rest: string)
    requires Canonical(d)
    ensures TakeDotted(d + ("." + rest)) == Some((d, rest))
  {
    TakeNumeralOf(d, "." + rest);
  }

  lemma ConcatAssociative(a: string, b: string, c: string)
    ensures (a + b) + c == a + (b + c)
  {
  }

  lemma ShowThen(c: Core, rest: string)
    ensures c.Show() + rest == c.major + ("." + (c.minor + ("." + (c.patch + rest))))
  {
    ConcatAssociative(c.major, "." + (c.minor + ("." + c.patch)), rest);
    ConcatAssociative(".", c.minor + ("." + c.patch), rest);
    ConcatAssociative(c.minor, "." + c.patch, rest);
    ConcatAssociative(".", c.patch, rest);
  }

  /** The three dotted numerals of the core and what follows them. */
  function TakeCore(s: string): (r: Option<(Core, string)>)
    ensures r.Some? ==> s == r.value.0.Show() + r.value.1 && r.value.0.Valid() && Stops(r.value.1)
  {
    var a :- TakeDotted(s);
    var b :- TakeDotted(a.1);
    var c :- TakeNumeral(b.1);
    ShowThen(Core(a.0, b.0, c.0), c.1);
    Some((Core(a.0, b.0, c.0), c.1))
  }

  lemma TakeCoreOf(c: Core, rest: string)
    requires c.Valid() && Stops(rest)
    ensures TakeCore(c.Show() + rest) == Some((c, rest))
  {
    ShowThen(c, rest);
    TakeDottedOf(c.major, c.minor + ("." + (c.patch + rest)));
    TakeDottedOf(c.minor, c.patch + rest);
    TakeNumeralOf(c.patch, rest);
  }

  function StripV(raw: string): string {
    if raw != [] && raw[0] == 'v' then raw[1..] else raw
  }

  function Run(s: string, stop: char): (n: nat)
    ensures n <= |s| && stop !in s[..n] && (n < |s| ==> s[n] == stop)
  {
    if s == [] || s[0] == stop then 0 else
      var n := 1 + Run(s[1..], stop);
      assert s[..n] == [s[0]] + s[1..][..n - 1];
      n
  }

  /** `strings.Split(s, ".")`. */
  function SplitDots(s: string): (ids: seq<string>)
    ensures ids != [] && JoinDots(ids) == s
    ensures forall i :: 0 <= i < |ids| ==> '.' !in ids[i]
    decreases |s|
  {
    var n := Run(s, '.');
    if n == |s| then [s] else
      var rest := SplitDots(s[n + 1..]);
      assert s == s[..n] + "." + s[n + 1..];
      [s[..n]] + rest
  }

  function JoinDots(ids: seq<string>): string {
    if ids == [] then "" else if |ids| == 1 then ids[0] else ids[0] + "." + JoinDots(ids[1..])
  }

  /** The identifiers of one suffix group; an absent group is the empty string. */
  function VersionIdentifiers(group: string, prerelease: bool): (r: Option<seq<string>>)
    ensures r.Some? ==> JoinDots(r.value) == group && (r.value == [] <==> group == [])
    ensures r.Some? ==> forall i :: 0 <= i < |r.value| ==>
              r.value[i] != [] && '.' !in r.value[i] && (prerelease ==> PrereleaseIdentifier(r.value[i]))
  {
    if group == [] then Some([]) else
      var ids := SplitDots(group);
      if exists i :: 0 <= i < |ids| && (ids[i] == [] || (prerelease && !PrereleaseIdentifier(ids[i]))) then None
      else Some(ids)
  }

  /** The optional `-group` and `+group`, to the end of the string. */
  function TakeSuffix(rest: string): (r: Option<(string, string)>)
    ensures r.Some? ==> rest == SuffixText(r.value.0, r.value.1)
    ensures r.Some? ==> (r.value.0 != [] ==> GroupChars(r.value.0)) && (r.value.1 != [] ==> GroupChars(r.value.1))
  {
    if rest == [] then Some(("", "")) else
      var n := if rest[0] == '-' then Run(rest, '+') else 0;
      var pre := if n == 0 then "" else rest[1..n];
      var tail := rest[n..];
      var build := if tail == [] then "" else tail[1..];
      if (rest[0] == '-' && !GroupChars(pre))
         || (tail != [] && (tail[0] != '+' || !GroupChars(build))) then None
      else
        assert rest == rest[..n] + tail;
        assert n != 0 ==> rest[..n] == "-" + pre;
        assert tail != [] ==> tail == "+" + build;
        Some((pre, build))
  }

  function SuffixText(pre: string, build: string): string {
    (if pre == [] then "" else "-" + pre) + (if build == [] then "" else "+" + build)
  }

  /** The text of a historical build: base core, commits ahead, abbreviated hash. */
  function HistoricalText(v: string, core: Core, count: string, hash: string): string {
    v + (core.Show() + HistoricalTail(count, hash))
  }

  function HistoricalTail(count: string, hash: string): string {
    "-" + (count + ("-g" + (hash + "-staging")))
  }

  predicate HistoricalParts(core: Core, count: string, hash: string) {
    core.Valid() && Canonical(count) && count[0] != '0' && 7 <= |hash| <= 64 && HexChars(hash)
  }

  datatype Legacy = Legacy(core: Core, count: string, hash: string)

  /** `-g<hash>-staging`, to the end of the string. */
  function TakeHash(tail: string): (r: Option<string>)
    ensures r.Some? ==> tail == "-g" + (r.value + "-staging") && 7 <= |r.value| <= 64 && HexChars(r.value)
  {
    if |tail| < 17 || tail[..2] != "-g" || tail[|tail| - 8..] != "-staging" then None else
      var hash := tail[2..|tail| - 8];
      if !(7 <= |hash| <= 64 && HexChars(hash)) then None else
        assert tail == tail[..2] + (hash + tail[|tail| - 8..]);
        Some(hash)
  }

  lemma TakeHashOf(hash: string)
    requires 7 <= |hash| <= 64 && HexChars(hash)
    ensures TakeHash("-g" + (hash + "-staging")) == Some(hash)
  {
    var tail := "-g" + (hash + "-staging");
    assert tail[2..|tail| - 8] == hash && tail[|tail| - 8..] == "-staging" && tail[..2] == "-g";
  }

  /** `-N-g<hash>-staging`, to the end of the string. */
  function TakeHistoricalTail(rest: string): (r: Option<(string, string)>)
    ensures r.Some? ==> rest == HistoricalTail(r.value.0, r.value.1)
    ensures r.Some? ==> Canonical(r.value.0) && r.value.0[0] != '0' && 7 <= |r.value.1| <= 64 && HexChars(r.value.1)
  {
    if rest == [] || rest[0] != '-' then None else
      var count :- TakeNumeral(rest[1..]);
      var hash :- TakeHash(count.1);
      if count.0[0] == '0' then None else
        assert rest == "-" + rest[1..];
        Some((count.0, hash))
  }

  lemma TakeHistoricalTailOf(count: string, hash: string)
    requires Canonical(count) && count[0] != '0' && 7 <= |hash| <= 64 && HexChars(hash)
    ensures TakeHistoricalTail(HistoricalTail(count, hash)) == Some((count, hash))
  {
    TakeHashOf(hash);
    TakeNumeralOf(count, "-g" + (hash + "-staging"));
    assert HistoricalTail(count, hash)[1..] == count + ("-g" + (hash + "-staging"));
  }

  function TakeHistorical(raw: string): (r: Option<Legacy>)
    ensures r.Some? ==> HistoricalParts(r.value.core, r.value.count, r.value.hash)
    ensures r.Some? ==> StripV(raw) == r.value.core.Show() + HistoricalTail(r.value.count, r.value.hash)
  {
    var core :- TakeCore(StripV(raw));
    var tail :- TakeHistoricalTail(core.1);
    Some(Legacy(core.0, tail.0, tail.1))
  }

  /** The optional leading `v`. */
  function Prefix(raw: string): string {
    if raw != [] && raw[0] == 'v' then "v" else ""
  }

  function ParseVersion(raw: string): (r: Option<Version>)
    ensures r.Some? ==> Accepted(r.value)
    decreases |raw|, 0
  {
    if |raw| > MAX_VERSION_BYTES || Contains(raw, "dirty") then None
    else if TakeHistorical(raw).Some? then
      var legacy := TakeHistorical(raw).value;
      var base :- ParseVersion(Prefix(raw) + legacy.core.Show());
      assert base.pre == [] by { BaseIsRelease(Prefix(raw), legacy.core); }
      if Value(legacy.count) >= UINT64 then None else Some(base.(ahead := Value(legacy.count)))
    else
      ParseSemantic(raw)
  }

  function ParseSemantic(raw: string): (r: Option<Version>)
    ensures r.Some? ==> Accepted(r.value) && r.value.ahead == 0
  {
    var core :- TakeCore(StripV(raw));
    var groups :- TakeSuffix(core.1);
    var numbers :- CoreNumbers(core.0);
    var pre :- VersionIdentifiers(groups.0, true);
    var build :- VersionIdentifiers(groups.1, false);
    Some(Version(numbers, pre, 0))
  }

  function CoreNumbers(c: Core): (r: Option<seq<nat>>)
    requires c.Valid()
    ensures r.Some? ==> |r.value| == 3 && forall i :: 0 <= i < 3 ==> r.value[i] < UINT64
  {
    if Value(c.major) >= UINT64 || Value(c.minor) >= UINT64 || Value(c.patch) >= UINT64 then None
    else Some([Value(c.major), Value(c.minor), Value(c.patch)])
  }

  lemma StripPrefix(v: string, c: Core, rest: string)
    requires (v == "" || v == "v") && c.Valid()
    ensures StripV(v + (c.Show() + rest)) == c.Show() + rest
    ensures Prefix(v + (c.Show() + rest)) == v
  {
    assert c.Show()[0] == c.major[0] && IsDigit(c.major[0]);
    if v == "" { assert v + (c.Show() + rest) == c.Show() + rest; }
  }

  /** The base of a historical version parses as a plain release, or not at all. */
  lemma BaseIsRelease(v: string, c: Core)
    requires (v == "" || v == "v") && c.Valid()
    ensures ParseVersion(v + c.Show()) ==
            if |v + c.Show()| <= MAX_VERSION_BYTES && !Contains(v + c.Show(), "dirty") && CoreNumbers(c).Some?
            then Some(Version(CoreNumbers(c).value, [], 0)) else None
    decreases |v + c.Show()|, 1
  {
    assert c.Show() + "" == c.Show();
    StripPrefix(v, c, "");
    TakeCoreOf(c, "");
  }

  // ------------------------------------------------------------- parsing round trips

  /** A semantic version as its parts. */
  datatype Reading = Reading(v: string, core: Core, pre: seq<string>, build: seq<string>) {
    predicate Valid() {
      && (v == "" || v == "v") && core.Valid() && CoreNumbers(core).Some?
      && (forall i :: 0 <= i < |pre| ==> SuffixIdentifier(pre[i]) && PrereleaseIdentifier(pre[i]))
      && (forall i :: 0 <= i < |build| ==> SuffixIdentifier(build[i]))
    }

    function Show(): string {
      v + (core.Show() + SuffixText(JoinDots(pre), JoinDots(build)))
    }

    function Denotes(): Version
      requires Valid()
    {
      Version(CoreNumbers(core).value, pre, 0)
    }
  }

  predicate SuffixIdentifier(id: string) {
    id != [] && forall i :: 0 <= i < |id| ==> IdentifierChar(id[i])
  }

  lemma {:induction false} RunOf(s: string, rest: string, stop: char)
    requires stop !in s && (rest == [] || rest[0] == stop)
    ensures Run(s + rest, stop) == |s|
  {
    if s == [] {
      assert s + rest == rest;
    } else {
      assert (s + rest)[1..] == s[1..] + rest;
      RunOf(s[1..], rest, stop);
    }
  }

  lemma SplitFirst(head: string, tail: string)
    requires '.' !in head
    ensures SplitDots(head) == [head]
    ensures SplitDots(head + ("." + tail)) == [head] + SplitDots(tail)
  {
    var s := head + ("." + tail);
    assert head + "" == head;
    RunOf(head, "", '.');
    RunOf(head, "." + tail, '.');
    assert s[..|head|] == head && s[|head| + 1..] == tail;
  }

  lemma {:induction false} SplitOfJoin(ids: seq<string>)
    requires ids != [] && forall i :: 0 <= i < |ids| ==> '.' !in ids[i]
    ensures SplitDots(JoinDots(ids)) == ids
  {
    if |ids| == 1 {
      SplitFirst(ids[0], "");
    } else {
      SplitFirst(ids[0], JoinDots(ids[1..]));
      assert JoinDots(ids) == ids[0] + ("." + JoinDots(ids[1..]));
      SplitOfJoin(ids[1..]);
    }
  }

  lemma {:induction false} JoinChars(ids: seq<string>)
    requires ids != [] && forall i :: 0 <= i < |ids| ==> SuffixIdentifier(ids[i])
    ensures GroupChars(JoinDots(ids))
  {
    if |ids| > 1 {
      JoinChars(ids[1..]);
    }
  }

  lemma IdentifiersOf(ids: seq<string>, prerelease: bool)
    requires forall i :: 0 <= i < |ids| ==> SuffixIdentifier(ids[i]) && (prerelease ==> PrereleaseIdentifier(ids[i]))
    ensures VersionIdentifiers(JoinDots(ids), prerelease) == Some(ids)
    ensures ids != [] ==> GroupChars(JoinDots(ids))
  {
    if ids != [] {
      JoinChars(ids);
      SplitOfJoin(ids);
    }
  }

  lemma TakeSuffixOf(pre: string, build: string)
    requires pre != [] ==> GroupChars(pre)
    requires build != [] ==> GroupChars(build)
    ensures TakeSuffix(SuffixText(pre, build)) == Some((pre, build))
    ensures Stops(SuffixText(pre, build))
  {
    var rest := SuffixText(pre, build);
    var tail := if build == [] then "" else "+" + build;
    if pre != [] {
      assert rest == ("-" + pre) + tail;
      assert '+' !in "-" + pre;
      RunOf("-" + pre, tail, '+');
      assert rest[1..|pre| + 1] == pre && rest[|pre| + 1..] == tail;
    } else {
      assert rest == tail && rest[0..] == rest;
    }
  }

  /** Every well-formed semantic text parses to exactly what it denotes. */
  lemma SemanticRoundTrip(r: Reading)
    requires r.Valid()
    ensures ParseSemantic(r.Show()) == Some(r.Denotes())
  {
    IdentifiersOf(r.pre, true);
    IdentifiersOf(r.build, false);
    TakeSuffixOf(JoinDots(r.pre), JoinDots(r.build));
    StripPrefix(r.v, r.core, SuffixText(JoinDots(r.pre), JoinDots(r.build)));
    TakeCoreOf(r.core, SuffixText(JoinDots(r.pre), JoinDots(r.build)));
  }

  lemma SuffixSound(rest: string) returns (pre: seq<string>, build: seq<string>)
    requires TakeSuffix(rest).Some?
    requires VersionIdentifiers(TakeSuffix(rest).value.0, true).Some?
    requires VersionIdentifiers(TakeSuffix(rest).value.1, false).Some?
    ensures VersionIdentifiers(TakeSuffix(rest).value.0, true) == Some(pre)
    ensures rest == SuffixText(JoinDots(pre), JoinDots(build))
    ensures forall i :: 0 <= i < |pre| ==> SuffixIdentifier(pre[i]) && PrereleaseIdentifier(pre[i])
    ensures forall i :: 0 <= i < |build| ==> SuffixIdentifier(build[i])
  {
    var groups := TakeSuffix(rest).value;
    pre := VersionIdentifiers(groups.0, true).value;
    build := VersionIdentifiers(groups.1, false).value;
    GroupParts(groups.0, pre);
    GroupParts(groups.1, build);
  }

  /** Every accepted semantic text is the text of some well-formed reading. */
  lemma SemanticSound(raw: string) returns (r: Reading)
    requires ParseSemantic(raw).Some?
    ensures r.Valid() && r.Show() == raw && ParseSemantic(raw).value == r.Denotes()
  {
    var core := TakeCore(StripV(raw)).value;
    var pre, build := SuffixSound(core.1);
    r := Reading(Prefix(raw), core.0, pre, build);
    PrefixThenRest(raw);
  }

  lemma PrefixThenRest(raw: string)
    ensures raw == Prefix(raw) + StripV(raw)
  {
  }

  lemma GroupParts(group: string, ids: seq<string>)
    requires JoinDots(ids) == group && (group != [] ==> GroupChars(group))
    requires forall i :: 0 <= i < |ids| ==> ids[i] != [] && '.' !in ids[i]
    ensures forall i :: 0 <= i < |ids| ==> SuffixIdentifier(ids[i])
  {
    if ids != [] {
      JoinOnlyUses(ids);
      forall i | 0 <= i < |ids|
        ensures SuffixIdentifier(ids[i])
      {
        forall k | 0 <= k < |ids[i]|
          ensures IdentifierChar(ids[i][k])
        {
          assert ids[i][k] in JoinDots(ids);
        }
      }
    }
  }

  lemma {:induction false} JoinOnlyUses(ids: seq<string>)
    ensures forall i, k :: 0 <= i < |ids| && 0 <= k < |ids[i]| ==> ids[i][k] in JoinDots(ids)
  {
    if |ids| > 1 {
      JoinOnlyUses(ids[1..]);
      forall i, k | 0 <= i < |ids| && 0 <= k < |ids[i]|
        ensures ids[i][k] in JoinDots(ids)
      {
        if i != 0 {
          assert ids[i] == ids[1..][i - 1];
        }
      }
    }
  }

  lemma TakeHistoricalOf(v: string, core: Core, count: string, hash: string)
    requires (v == "" || v == "v") && HistoricalParts(core, count, hash)
    ensures TakeHistorical(HistoricalText(v, core, count, hash)) == Some(Legacy(core, count, hash))
    ensures Prefix(HistoricalText(v, core, count, hash)) == v
  {
    StripPrefix(v, core, HistoricalTail(count, hash));
    TakeCoreOf(core, HistoricalTail(count, hash));
    TakeHistoricalTailOf(count, hash);
  }

  lemma CleanBase(v: string, core: Core, count: string, hash: string)
    requires !Contains(HistoricalText(v, core, count, hash), "dirty")
    ensures !Contains(v + core.Show(), "dirty")
    ensures |v + core.Show()| < |HistoricalText(v, core, count, hash)|
  {
    ConcatAssociative(v, core.Show(), HistoricalTail(count, hash));
    CleanPrefix(v + core.Show(), HistoricalTail(count, hash), "dirty");
  }

  /** Every well-formed historical text that is short enough and not dirty is its base, `count` commits ahead. */
  lemma HistoricalRoundTrip(v: string, core: Core, count: string, hash: string)
    requires (v == "" || v == "v") && HistoricalParts(core, count, hash)
    requires |HistoricalText(v, core, count, hash)| <= MAX_VERSION_BYTES
    requires !Contains(HistoricalText(v, core, count, hash), "dirty")
    ensures ParseVersion(HistoricalText(v, core, count, hash)) ==
            if CoreNumbers(core).Some? && Value(count) < UINT64
            then Some(Version(CoreNumbers(core).value, [], Value(count))) else None
  {
    TakeHistoricalOf(v, core, count, hash);
    CleanBase(v, core, count, hash);
    LegacyParses(HistoricalText(v, core, count, hash), v, Legacy(core, count, hash));
  }

  /** One step of the parser on a historical text. */
  lemma LegacyStep(raw: string, base: string, count: string)
    requires |raw| <= MAX_VERSION_BYTES && !Contains(raw, "dirty") && TakeHistorical(raw).Some?
    requires base == Prefix(raw) + TakeHistorical(raw).value.core.Show() && count == TakeHistorical(raw).value.count
    ensures Digits(count)
    ensures ParseVersion(raw) == CommitsAhead(ParseVersion(base), Value(count))
  {
  }

  function CommitsAhead(base: Option<Version>, count: nat): Option<Version> {
    if base.None? || count >= UINT64 then None else Some(base.value.(ahead := count))
  }

  lemma LegacyParses(raw: string, v: string, legacy: Legacy)
    requires (v == "" || v == "v") && HistoricalParts(legacy.core, legacy.count, legacy.hash)
    requires |raw| <= MAX_VERSION_BYTES && !Contains(raw, "dirty")
    requires |v + legacy.core.Show()| < |raw| && !Contains(v + legacy.core.Show(), "dirty")
    requires TakeHistorical(raw) == Some(legacy) && Prefix(raw) == v
    ensures ParseVersion(raw) ==
            if CoreNumbers(legacy.core).Some? && Value(legacy.count) < UINT64
            then Some(Version(CoreNumbers(legacy.core).value, [], Value(legacy.count))) else None
  {
    LegacyStep(raw, v + legacy.core.Show(), legacy.count);
    BaseIsRelease(v, legacy.core);
  }

  lemma CleanPrefix(base: string, tail: string, word: string)
    requires !Contains(base + tail, word)
    ensures !Contains(base, word)
  {
    forall i | 0 <= i <= |base|
      ensures !(word <= base[i..])
    {
      assert (base + tail)[i..] == base[i..] + tail;
    }
  }
}
