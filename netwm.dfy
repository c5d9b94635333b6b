/**
 * The parts of the window manager protocol (NET, as exposed by KWindowSystem)
 * that the task button reads and writes: window state flags, allowed-action
 * flags and the "on all desktops" desktop number. A NET state or action mask
 * is modelled as the set of its flags: `mask | bits` is a union, `mask & ~bits`
 * a difference, and a flag test in C++ (`state & NET::Max` used as a
 * condition) is true when the two sets share a flag.
 */
module NetWm {

  /** The NET::State flags, in bit order (Modal is bit 0, Focused bit 13). */
  datatype StateFlag =
    | Modal | Sticky | MaxVert | MaxHoriz | Shaded | SkipTaskbar | KeepAbove
    | SkipPager | Hidden | FullScreen | KeepBelow | DemandsAttention | SkipSwitcher | Focused

  /** The NET::Action flags, in bit order (ActionMove is bit 0). */
  datatype ActionFlag =
    | ActionMove | ActionResize | ActionMinimize | ActionShade | ActionStick
    | ActionMaxVert | ActionMaxHoriz | ActionFullScreen | ActionChangeDesktop | ActionClose

  type States = set<StateFlag>
  type Actions = set<ActionFlag>

  /** NET::Max: maximised in both directions. */
  const Max: States := {MaxVert, MaxHoriz}

  /** NET::ActionMax: either maximise action. */
  const ActionMax: Actions := {ActionMaxVert, ActionMaxHoriz}

  /** NET::OnAllDesktops, the desktop number of a sticky window. */
  const OnAllDesktops: int := -1

  /** The integer value of a state flag, as an action's data carries it. */
  function Value(f: StateFlag): nat {
    match f
    case Modal => 0x1
    case Sticky => 0x2
    case MaxVert => 0x4
    case MaxHoriz => 0x8
    case Shaded => 0x10
    case SkipTaskbar => 0x20
    case KeepAbove => 0x40
    case SkipPager => 0x80
    case Hidden => 0x100
    case FullScreen => 0x200
    case KeepBelow => 0x400
    case DemandsAttention => 0x800
    case SkipSwitcher => 0x1000
    case Focused => 0x2000
  }

  /** The value of NET::Max, the two maximisation bits together. */
  const MaxValue: int := Value(MaxVert) + Value(MaxHoriz)

  /** The C++ condition `mask & bits` on a state: some of the flags are set. */
  predicate HasState(s: States, bits: States) {
    s * bits != {}
  }

  /** KWindowInfo::actionSupported on the allowed-actions mask: some of the actions are allowed. */
  predicate Supports(allowed: Actions, bits: Actions) {
    allowed * bits != {}
  }

  /** setState: the given flags become set, every other flag is kept. */
  function SetState(s: States, bits: States): (r: States)
    ensures bits <= r && r - bits == s - bits
  {
    s + bits
  }

  /** clearState: the given flags become clear, every other flag is kept. */
  function ClearState(s: States, bits: States): (r: States)
    ensures r * bits == {} && r - bits == s - bits
  {
    s - bits
  }

  /**
   * Distinct flags have distinct single-bit values, and NET::Max has the value
   * of its two bits together.
   */
  lemma ValuesAreBits(f: StateFlag, g: StateFlag)
    ensures f != g ==> Value(f) != Value(g)
    ensures MaxValue == 12 && MaxValue != Value(f)
  {
  }
}
