/**
  The encrypted-storage check (proto/protectedinput/spool.go): every backing path of a block
  device must cross a crypt device. The device graph comes from the kernel and may be cyclic.
 */
module DeviceWalk {
  import opened Basics
  import Text

  type Device = string

  /** `slaves[d]` are the entries of d's slaves directory, absent when it cannot be read; an entry
      that does not resolve to a device is None. */
  datatype Graph = Graph(crypt: set<Device>, slaves: map<Device, seq<Option<Device>>>)

  function Backing(g: Graph, d: Device): seq<Option<Device>> {
    if d in g.slaves then g.slaves[d] else []
  }

  /** Encrypted by a derivation of at most `rank` levels. */
  predicate EncryptedWithin(g: Graph, d: Device, rank: nat)
    decreases rank, 0
  {
    || d in g.crypt
    || (rank > 0 && Backing(g, d) != [] && AllWithin(g, Backing(g, d), rank - 1))
  }

  predicate AllWithin(g: Graph, ds: seq<Option<Device>>, rank: nat)
    decreases rank, 1
  {
    forall i :: 0 <= i < |ds| ==> ds[i].Some? && EncryptedWithin(g, ds[i].value, rank)
  }

  /** The least fixpoint of "a crypt device, or some backing devices that all qualify". */
  ghost predicate Encrypted(g: Graph, d: Device) {
    exists rank: nat :: EncryptedWithin(g, d, rank)
  }

  /** `s` satisfies the rule from right to left. */
  predicate Closed(g: Graph, s: set<Device>, d: Device) {
    var ds := Backing(g, d);
    d in g.crypt || (ds != [] && forall i :: 0 <= i < |ds| ==> ds[i].Some? && ds[i].value in s)
  }

  lemma {:induction false} RankGrows(g: Graph, d: Device, rank: nat, higher: nat)
    requires EncryptedWithin(g, d, rank) && rank <= higher
    ensures EncryptedWithin(g, d, higher)
    decreases rank
  {
    if d !in g.crypt {
      var ds := Backing(g, d);
      forall i | 0 <= i < |ds|
        ensures ds[i].Some? && EncryptedWithin(g, ds[i].value, higher - 1)
      {
        RankGrows(g, ds[i].value, rank - 1, higher - 1);
      }
    }
  }

  /** One rank serves finitely many devices. */
  lemma {:induction false} CommonRank(g: Graph, ds: seq<Option<Device>>) returns (rank: nat)
    requires forall i :: 0 <= i < |ds| ==> ds[i].Some? && Encrypted(g, ds[i].value)
    ensures AllWithin(g, ds, rank)
    decreases |ds|
  {
    if ds == [] {
      return 0;
    }
    var front := ds[..|ds| - 1];
    var r := CommonRank(g, front);
    var last := ds[|ds| - 1].value;
    var q: nat :| EncryptedWithin(g, last, q);
    rank := if r < q then q else r;
    RankGrows(g, last, q, rank);
    forall i | 0 <= i < |ds|
      ensures ds[i].Some? && EncryptedWithin(g, ds[i].value, rank)
    {
      if i < |front| {
        assert front[i] == ds[i];
        RankGrows(g, ds[i].value, r, rank);
      }
    }
  }

  ghost predicate AllEncrypted(g: Graph, ds: seq<Option<Device>>) {
    forall i :: 0 <= i < |ds| ==> ds[i].Some? && Encrypted(g, ds[i].value)
  }

  /** `Encrypted` satisfies its rule in both directions. */
  lemma EncryptedIsFixpoint(g: Graph, d: Device)
    ensures Encrypted(g, d) <==> d in g.crypt || (Backing(g, d) != [] && AllEncrypted(g, Backing(g, d)))
  {
    if Encrypted(g, d) && d !in g.crypt {
      var rank: nat :| EncryptedWithin(g, d, rank);
      assert AllWithin(g, Backing(g, d), rank - 1);
    }
    if d in g.crypt {
      assert EncryptedWithin(g, d, 0);
    } else if Backing(g, d) != [] && AllEncrypted(g, Backing(g, d)) {
      var rank := CommonRank(g, Backing(g, d));
      assert EncryptedWithin(g, d, rank + 1);
    }
  }

  /** Any set closed under the rule contains every encrypted device. */
  lemma {:induction false} EncryptedIsLeast(g: Graph, s: set<Device>, d: Device, rank: nat)
    requires forall x :: x in g.crypt + g.slaves.Keys && Closed(g, s, x) ==> x in s
    requires EncryptedWithin(g, d, rank)
    ensures d in s
    decreases rank
  {
    var ds := Backing(g, d);
    if d !in g.crypt {
      forall i | 0 <= i < |ds|
        ensures ds[i].Some? && ds[i].value in s
      {
        EncryptedIsLeast(g, s, ds[i].value, rank - 1);
      }
    }
    assert Closed(g, s, d) && d in g.crypt + g.slaves.Keys;
  }

  // ------------------------------------------------------------------------------ the walk

  /** What the walk answers when the devices in `seen` are on its current path. */
  predicate Walks(g: Graph, d: Device, seen: set<Device>)
    decreases g.slaves.Keys - seen, 1
  {
    && d !in seen
    && (d in g.crypt || (Backing(g, d) != [] && d in g.slaves && AllWalk(g, g.slaves[d], seen + {d})))
  }

  predicate AllWalk(g: Graph, ds: seq<Option<Device>>, seen: set<Device>)
    decreases g.slaves.Keys - seen, 2
  {
    forall i :: 0 <= i < |ds| ==> ds[i].Some? && Walks(g, ds[i].value, seen)
  }

  lemma {:induction false} WalkIsSound(g: Graph, d: Device, seen: set<Device>)
    requires Walks(g, d, seen)
    ensures Encrypted(g, d)
    decreases g.slaves.Keys - seen
  {
    if d !in g.crypt {
      var ds := g.slaves[d];
      forall i | 0 <= i < |ds|
        ensures ds[i].Some? && Encrypted(g, ds[i].value)
      {
        WalkIsSound(g, ds[i].value, seen + {d});
      }
    }
    EncryptedIsFixpoint(g, d);
  }

  /** A device with a derivation that needs nothing on the current path is accepted. */
  lemma {:induction false} WalkIsComplete(g: Graph, d: Device, rank: nat, seen: set<Device>)
    requires EncryptedWithin(g, d, rank)
    requires forall x :: x in seen ==> !EncryptedWithin(g, x, rank)
    ensures Walks(g, d, seen)
    decreases rank
  {
    if d !in g.crypt {
      forall x | x in seen
        ensures !EncryptedWithin(g, x, rank - 1)
      {
        if EncryptedWithin(g, x, rank - 1) {
          RankGrows(g, x, rank - 1, rank);
        }
      }
      if EncryptedWithin(g, d, rank - 1) {
        WalkIsComplete(g, d, rank - 1, seen);
      } else {
        var ds := g.slaves[d];
        forall i | 0 <= i < |ds|
          ensures ds[i].Some? && Walks(g, ds[i].value, seen + {d})
        {
          WalkIsComplete(g, ds[i].value, rank - 1, seen + {d});
        }
      }
    }
  }

  /** From an empty path the walk decides exactly the least fixpoint, cycles included. */
  lemma WalkDecidesEncryption(g: Graph, d: Device)
    ensures Walks(g, d, {}) <==> Encrypted(g, d)
  {
    if Walks(g, d, {}) {
      WalkIsSound(g, d, {});
    }
    if Encrypted(g, d) {
      var rank: nat :| EncryptedWithin(g, d, rank);
      WalkIsComplete(g, d, rank, {});
    }
  }

  /** The map of devices on the current path, shared by all recursive calls. */
  class Visited {
    var devices: set<Device>

    constructor ()
      ensures devices == {}
    {
      devices := {};
    }
  }

  /** `encryptedSysPath`; `path` is the device the path resolves to, if it resolves. */
  method EncryptedSysPath(g: Graph, path: Option<Device>, seen: Visited) returns (ok: bool)
    modifies seen
    ensures seen.devices == old(seen.devices)
    ensures ok <==> path.Some? && Walks(g, path.value, old(seen.devices))
    decreases g.slaves.Keys - seen.devices
  {
    if path.None? || path.value in seen.devices {
      return false;
    }
    var device := path.value;
    seen.devices := seen.devices + {device};
    ok := false;
    if device in g.crypt {
      ok := true;
    } else if device in g.slaves && g.slaves[device] != [] {
      var children := g.slaves[device];
      ok := true;
      var i := 0;
      while i < |children| && ok
        invariant 0 <= i <= |children| && seen.devices == old(seen.devices) + {device}
        invariant ok ==> forall j :: 0 <= j < i ==> children[j].Some? && Walks(g, children[j].value, seen.devices)
        invariant !ok ==> !AllWalk(g, children, seen.devices)
      {
        ok := EncryptedSysPath(g, children[i], seen);
        i := i + 1;
      }
    }
    seen.devices := seen.devices - {device};
  }

  // -------------------------------------------------------------------------- device names

  /** The digits of a number, none for zero. */
  function Leading(n: nat): string {
    if n == 0 then "" else Leading(n / 10) + [Text.DigitChar(n % 10)]
  }

  lemma {:induction false} LeadingIsDecimal(n: nat)
    requires n > 0
    ensures Leading(n) == Text.Decimal(n)
  {
    if n >= 10 {
      LeadingIsDecimal(n / 10);
    } else {
      assert Leading(n / 10) == "";
    }
  }

  lemma PeelDigit(n: nat, tail: string, digit: char)
    requires n > 0 && digit == Text.DigitChar(n % 10)
    ensures Leading(n) + tail == Leading(n / 10) + ([digit] + tail)
  {
  }

  lemma FitsShrinks(n: nat, width: nat)
    requires 0 < n < Text.Power10(width)
    ensures width > 0 && n / 10 < Text.Power10(width - 1)
  {
  }

  /** `decimal`: digits from the right into a buffer of twenty. */
  method Decimal(number: nat) returns (text: string)
    requires number <= Text.MAX_UINT64
    ensures text == Text.Decimal(number)
  {
    if number == 0 {
      return "0";
    }
    Text.FitsTwentyDigits(number);
    var buf := new char[20];
    var i := FillDigits(number, buf);
    LeadingIsDecimal(number);
    return buf[i..];
  }

  method FillDigits(number: nat, buf: array<char>) returns (i: nat)
    requires number < Text.Power10(buf.Length)
    modifies buf
    ensures i <= buf.Length && buf[i..] == Leading(number)
  {
    var n: nat := number;
    i := buf.Length;
    while n > 0
      invariant i <= buf.Length && n < Text.Power10(i)
      invariant Leading(number) == Leading(n) + buf[i..]
    {
      var digit := Text.DigitChar(n % 10);
      ghost var tail := buf[i..];
      PeelDigit(n, tail, digit);
      FitsShrinks(n, i);
      i := i - 1;
      buf[i] := digit;
      assert buf[i..] == [digit] + tail;
      n := n / 10;
    }
  }

  /** The kernel's 64-bit device number: twelve and twenty bits of major, eight and twenty-four of minor. */
  function Major(dev: bv64): bv64 {
    ((dev >> 8) & 0xfff) | ((dev >> 32) & 0xfffff000)
  }

  function Minor(dev: bv64): bv64 {
    (dev & 0xff) | ((dev >> 12) & 0xffffff00)
  }

  function DeviceNumber(major: bv64, minor: bv64): bv64 {
    ((major & 0xfff) << 8) | ((major & 0xfffff000) << 32) | (minor & 0xff) | ((minor & 0xffffff00) << 12)
  }

  /** No bit of a device number is lost or read twice. */
  lemma DeviceNumberRoundTrip(dev: bv64)
    ensures DeviceNumber(Major(dev), Minor(dev)) == dev
  {
  }

  function DeviceName(dev: bv64): string {
    Text.Decimal(Major(dev) as nat) + ":" + Text.Decimal(Minor(dev) as nat)
  }

  /** Different devices have different names under /sys/dev/block. */
  lemma DeviceNameIsInjective(dev: bv64, other: bv64)
    requires DeviceName(dev) == DeviceName(other)
    ensures dev == other
  {
    var a, b := Text.Decimal(Major(dev) as nat), Text.Decimal(Minor(dev) as nat);
    var x, y := Text.Decimal(Major(other) as nat), Text.Decimal(Minor(other) as nat);
    Text.SplitAt(':', a, b, x, y);
    assert Major(dev) as nat == Text.Value(a) == Major(other) as nat;
    assert Minor(dev) as nat == Text.Value(b) == Minor(other) as nat;
    SameNatSameBits(Major(dev), Major(other));
    SameNatSameBits(Minor(dev), Minor(other));
    DeviceNumberRoundTrip(dev);
    DeviceNumberRoundTrip(other);
  }

  lemma SameNatSameBits(x: bv64, y: bv64)
    requires x as nat == y as nat
    ensures x == y
  {
    assert (x as nat) as bv64 == x && (y as nat) as bv64 == y;
  }

  method FmtDevice(dev: bv64) returns (text: string)
    ensures text == DeviceName(dev)
  {
    var major := Decimal(Major(dev) as nat);
    var minor := Decimal(Minor(dev) as nat);
    return major + ":" + minor;
  }

  /** The check as the store makes it, for the device number of its directory: true exactly if the device of
      that number resolves and is encrypted. */
  method EncryptedDevice(g: Graph, dev: bv64, resolve: string -> Option<Device>) returns (ok: bool)
    ensures var path := resolve("/sys/dev/block/" + DeviceName(dev)); ok <==> path.Some? && Encrypted(g, path.value)
  {
    var name := FmtDevice(dev);
    var path := resolve("/sys/dev/block/" + name);
    var seen := new Visited();
    ok := EncryptedSysPath(g, path, seen);
    if path.Some? {
      WalkDecidesEncryption(g, path.value);
    }
  }
}
