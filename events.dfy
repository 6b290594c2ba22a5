/** The event stream's element type and the subscription bitmask (src/events.rs). */
module Events {
  import opened Lib
  import opened Wrappers

  /** What the monitor sends down its channel: six application events that
      carry the application's identifier, five power and screen events that
      carry nothing, and an error from the notification parser. */
  datatype Event =
    // Activation/focus
    | DidActivateApplication(app: string)
    | DidDeactivateApplication(app: string)
    // Application lifecycle
    | DidLaunchApplication(app: string)
    | DidTerminateApplication(app: string)
    // Visibility
    | DidHideApplication(app: string)
    | DidUnhideApplication(app: string)
    // Power
    | DidSleep
    | DidWake
    | DidPowerOff
    // Screens
    | DidScreenSleep
    | DidScreenWake
    | Error(error: NSWorkspaceError)
  {
    /** Position of the variant in the declaration of `Event`. */
    function Index(): (i: nat)
      ensures i <= 11
      ensures i == 11 <==> Error?
      ensures i < 6 <==> IsAppEvent()
    {
      match this
      case DidActivateApplication(_) => 0
      case DidDeactivateApplication(_) => 1
      case DidLaunchApplication(_) => 2
      case DidTerminateApplication(_) => 3
      case DidHideApplication(_) => 4
      case DidUnhideApplication(_) => 5
      case DidSleep => 6
      case DidWake => 7
      case DidPowerOff => 8
      case DidScreenSleep => 9
      case DidScreenWake => 10
      case Error(_) => 11
    }

    /** The variant carries an application identifier. */
    predicate IsAppEvent()
    {
      DidActivateApplication? || DidDeactivateApplication? || DidLaunchApplication? ||
      DidTerminateApplication? || DidHideApplication? || DidUnhideApplication?
    }

    /** The name the variant is declared under. */
    function Name(): string
    {
      match this
      case DidActivateApplication(_) => "DidActivateApplication"
      case DidDeactivateApplication(_) => "DidDeactivateApplication"
      case DidLaunchApplication(_) => "DidLaunchApplication"
      case DidTerminateApplication(_) => "DidTerminateApplication"
      case DidHideApplication(_) => "DidHideApplication"
      case DidUnhideApplication(_) => "DidUnhideApplication"
      case DidSleep => "DidSleep"
      case DidWake => "DidWake"
      case DidPowerOff => "DidPowerOff"
      case DidScreenSleep => "DidScreenSleep"
      case DidScreenWake => "DidScreenWake"
      case Error(_) => "Error"
    }
  }

  /** The `#[bitmask]` struct: a machine word (`usize`, 64 bits on the
      targets the crate supports) whose declared variants are the bits
      `1 << 0` to `1 << 10`, in declaration order. */
  datatype NotificationListener = NotificationListener(bits: bv64)
  {
    // Activation/focus
    static const DidActivateApplication: NotificationListener := NotificationListener(0x1)  // 1 << 0
    static const DidDeactivateApplication: NotificationListener := NotificationListener(0x2)  // 1 << 1
    // Application lifecycle
    static const DidLaunchApplication: NotificationListener := NotificationListener(0x4)  // 1 << 2
    static const DidTerminateApplication: NotificationListener := NotificationListener(0x8)  // 1 << 3
    // Visibility
    static const DidHideApplication: NotificationListener := NotificationListener(0x10)  // 1 << 4
    static const DidUnhideApplication: NotificationListener := NotificationListener(0x20)  // 1 << 5
    // Power
    static const DidSleep: NotificationListener := NotificationListener(0x40)  // 1 << 6
    static const DidWake: NotificationListener := NotificationListener(0x80)  // 1 << 7
    static const DidPowerOff: NotificationListener := NotificationListener(0x100)  // 1 << 8
    // Screens
    static const DidScreenSleep: NotificationListener := NotificationListener(0x200)  // 1 << 9
    static const DidScreenWake: NotificationListener := NotificationListener(0x400)  // 1 << 10

    /** `contains`: every bit of `other` is set in this mask. */
    predicate Contains(other: NotificationListener)
    {
      AllSet(bits, other.bits)
    }

    /** `|`: the smallest mask that contains both operands. */
    function Or(other: NotificationListener): (r: NotificationListener)
      ensures r.Contains(this) && r.Contains(other)
    {
      OrSetsBoth(bits, other.bits);
      NotificationListener(bits | other.bits)
    }
  }

  /** Every bit of `mask` is set in `word`. */
  predicate AllSet(word: bv64, mask: bv64)
  {
    word & mask == mask
  }

  lemma OrSetsBoth(x: bv64, y: bv64)
    ensures AllSet(x | y, x) && AllSet(x | y, y)
  {
  }

  /** Or-ing `mask` into `word` leaves it unchanged. */
  predicate Absorbs(word: bv64, mask: bv64)
  {
    word | mask == word
  }

  lemma AllSetIffAbsorbs(word: bv64, mask: bv64)
    ensures AllSet(word, mask) <==> Absorbs(word, mask)
  {
    if AllSet(word, mask) {
      AllSetAbsorbs(word, mask);
    }
    if Absorbs(word, mask) {
      AbsorbsAllSet(word, mask);
    }
  }

  lemma AllSetAbsorbs(word: bv64, mask: bv64)
    requires word & mask == mask
    ensures word | mask == word
  {
  }

  lemma AbsorbsAllSet(word: bv64, mask: bv64)
    requires word | mask == word
    ensures word & mask == mask
  {
  }

  /** A mask with exactly one bit set. */
  predicate IsSingleBit(f: NotificationListener)
  {
    f.bits != 0 && f.bits & (f.bits - 1) == 0
  }

  /** The table that `flags()` iterates: each declared variant's name and
      value, in declaration order. */
  function Flags(): (r: seq<(string, NotificationListener)>)
    ensures |r| == 11
  {
    [
    ("DidActivateApplication", NotificationListener.DidActivateApplication),
    ("DidDeactivateApplication", NotificationListener.DidDeactivateApplication),
    ("DidLaunchApplication", NotificationListener.DidLaunchApplication),
    ("DidTerminateApplication", NotificationListener.DidTerminateApplication),
    ("DidHideApplication", NotificationListener.DidHideApplication),
    ("DidUnhideApplication", NotificationListener.DidUnhideApplication),
    ("DidSleep", NotificationListener.DidSleep),
    ("DidWake", NotificationListener.DidWake),
    ("DidPowerOff", NotificationListener.DidPowerOff),
    ("DidScreenSleep", NotificationListener.DidScreenSleep),
    ("DidScreenWake", NotificationListener.DidScreenWake)
    ]
  }

  /** `f` is one of the declared variants, i.e. a value `flags()` yields. */
  predicate IsFlag(f: NotificationListener)
  {
    exists i :: 0 <= i < |Flags()| && Flags()[i].1 == f
  }

  /** A value `flags()` yields is one of the eleven declared variants. */
  lemma FlagCases(f: NotificationListener)
    requires IsFlag(f)
    ensures || f == NotificationListener.DidActivateApplication
            || f == NotificationListener.DidDeactivateApplication
            || f == NotificationListener.DidLaunchApplication
            || f == NotificationListener.DidTerminateApplication
            || f == NotificationListener.DidHideApplication
            || f == NotificationListener.DidUnhideApplication
            || f == NotificationListener.DidSleep
            || f == NotificationListener.DidWake
            || f == NotificationListener.DidPowerOff
            || f == NotificationListener.DidScreenSleep
            || f == NotificationListener.DidScreenWake
  {
    var i :| 0 <= i < |Flags()| && Flags()[i].1 == f;
  }

  /** The subscription kind an event belongs to; `Error` belongs to none. */
  function ListenerOf(e: Event): Option<NotificationListener>
  {
    match e
    case DidActivateApplication(_) => Some(NotificationListener.DidActivateApplication)
    case DidDeactivateApplication(_) => Some(NotificationListener.DidDeactivateApplication)
    case DidLaunchApplication(_) => Some(NotificationListener.DidLaunchApplication)
    case DidTerminateApplication(_) => Some(NotificationListener.DidTerminateApplication)
    case DidHideApplication(_) => Some(NotificationListener.DidHideApplication)
    case DidUnhideApplication(_) => Some(NotificationListener.DidUnhideApplication)
    case DidSleep => Some(NotificationListener.DidSleep)
    case DidWake => Some(NotificationListener.DidWake)
    case DidPowerOff => Some(NotificationListener.DidPowerOff)
    case DidScreenSleep => Some(NotificationListener.DidScreenSleep)
    case DidScreenWake => Some(NotificationListener.DidScreenWake)
    case Error(_) => None
  }

  /** The eleven declared variants are single bits that pairwise share no
      bit, and their names are distinct. */
  lemma FlagsAreDistinctSingleBits()
    ensures forall i | 0 <= i < |Flags()| :: IsSingleBit(Flags()[i].1)
    ensures forall i, j | 0 <= i < j < |Flags()| :: Flags()[i].1.bits & Flags()[j].1.bits == 0
    ensures forall i, j | 0 <= i < j < |Flags()| :: Flags()[i].0 != Flags()[j].0
  {
  }

  /** `flags()` yields every declared variant exactly once. */
  lemma FlagsYieldEachKindOnce(f: NotificationListener)
    requires IsFlag(f)
    ensures forall i, j | 0 <= i < |Flags()| && 0 <= j < |Flags()| && Flags()[i].1 == f && Flags()[j].1 == f :: i == j
  {
    FlagsAreDistinctSingleBits();
  }

  /** The listener kinds mirror the non-`Error` events: the same names in
      the same order, and `Error` has no kind. */
  lemma FlagsMirrorEvents(e: Event)
    ensures ListenerOf(e).None? <==> e.Error?
    ensures !e.Error? ==> Flags()[e.Index()] == (e.Name(), ListenerOf(e).value)
  {
  }

  /** The five power and screen events are exactly the events that have a
      listener kind but carry no application identifier. */
  lemma EventPayloads(e: Event)
    ensures 6 <= e.Index() < 11 <==> ListenerOf(e).Some? && !e.IsAppEvent()
  {
  }

  /** No mask smaller than `a | b` contains both `a` and `b`. */
  lemma OrIsLeast(a: NotificationListener, b: NotificationListener, m: NotificationListener)
    requires m.Contains(a) && m.Contains(b)
    ensures m.Contains(a.Or(b))
  {
  }

  /** `a | b` contains a declared variant exactly when `a` or `b` does. */
  lemma OrContainsFlag(a: NotificationListener, b: NotificationListener, f: NotificationListener)
    requires IsSingleBit(f)
    ensures a.Or(b).Contains(f) <==> a.Contains(f) || b.Contains(f)
  {
    ContainsMeansBitsSet(a.Or(b), f);
    ContainsMeansBitsSet(a, f);
    ContainsMeansBitsSet(b, f);
    OrContainsBit(a.bits, b.bits, f.bits);
  }

  /** `contains` holds exactly when or-ing `f` into `m` changes nothing. */
  lemma ContainsIffAbsorbs(m: NotificationListener, f: NotificationListener)
    ensures m.Contains(f) <==> m.Or(f) == m
  {
    ContainsMeansBitsSet(m, f);
    AllSetIffAbsorbs(m.bits, f.bits);
  }

  /** `contains`, read off the two words. */
  lemma ContainsMeansBitsSet(m: NotificationListener, f: NotificationListener)
    ensures m.Contains(f) <==> AllSet(m.bits, f.bits)
  {
  }

  /** The word-level fact behind `OrContainsFlag`. */
  lemma OrContainsBit(x: bv64, y: bv64, z: bv64)
    requires z != 0 && z & (z - 1) == 0
    ensures AllSet(x | y, z) <==> AllSet(x, z) || AllSet(y, z)
  {
    SingleBitMask(x, z);
    SingleBitMask(y, z);
    SingleBitMask(x | y, z);
  }

  /** Masking with a single bit keeps that bit or nothing. */
  lemma SingleBitMask(a: bv64, f: bv64)
    requires f != 0 && f & (f - 1) == 0
    ensures a & f == f || a & f == 0
  {
  }

  /** Folding `|` over a sequence of `flags()` entries, starting from `acc`. */
  function FoldOr(acc: NotificationListener, flags: seq<(string, NotificationListener)>): NotificationListener
    decreases |flags|
  {
    if flags == [] then acc else FoldOr(acc.Or(flags[0].1), flags[1..])
  }

  /** The fold contains its seed and every folded entry. */
  lemma {:induction false} FoldOrContains(acc: NotificationListener, flags: seq<(string, NotificationListener)>)
    decreases |flags|
    ensures FoldOr(acc, flags).Contains(acc)
    ensures forall i | 0 <= i < |flags| :: FoldOr(acc, flags).Contains(flags[i].1)
  {
    if flags != [] {
      var next := acc.Or(flags[0].1);
      FoldOrContains(next, flags[1..]);
      var r := FoldOr(acc, flags);
      assert r == FoldOr(next, flags[1..]);
      forall i | 0 <= i < |flags|
        ensures r.Contains(flags[i].1)
      {
        if i > 0 {
          assert flags[i] == flags[1..][i - 1];
        } else {
          ContainsTransitive(r, next, flags[0].1);
        }
      }
      ContainsTransitive(r, next, acc);
    }
  }

  lemma ContainsTransitive(a: NotificationListener, b: NotificationListener, c: NotificationListener)
    requires a.Contains(b) && b.Contains(c)
    ensures a.Contains(c)
  {
  }

  /** Folding `|` over all of `flags()`, from any seed, gives a mask that
      contains every declared variant (the "all kinds" mask). */
  lemma FoldAllFlagsContainsEveryKind(seed: NotificationListener, f: NotificationListener)
    requires IsFlag(f)
    ensures FoldOr(seed, Flags()).Contains(f)
  {
    FoldOrContains(seed, Flags());
  }
}
