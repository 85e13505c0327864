/** `KeyHandler`: five independent boolean switches, each flipped by its own global hotkey. */
module Hotkeys {
  import opened Common

  datatype Hotkey = KeyF | KeyL | KeyN | KeyR | KeyM

  /** The chord each callback is registered under. */
  function Chord(k: Hotkey): string
  {
    match k
    case KeyF => "<ctrl>+<alt>+f"
    case KeyL => "<ctrl>+<alt>+l"
    case KeyN => "<ctrl>+<alt>+n"
    case KeyR => "<ctrl>+<alt>+r"
    case KeyM => "<ctrl>+<alt>+m"
  }

  /** The hotkey table: which callback a chord reaches, if any. */
  function Bound(chord: string): (k: Option<Hotkey>)
    ensures k.Some? ==> Chord(k.value) == chord
  {
    if chord == "<ctrl>+<alt>+f" then Some(KeyF)
    else if chord == "<ctrl>+<alt>+l" then Some(KeyL)
    else if chord == "<ctrl>+<alt>+n" then Some(KeyN)
    else if chord == "<ctrl>+<alt>+r" then Some(KeyR)
    else if chord == "<ctrl>+<alt>+m" then Some(KeyM)
    else None
  }

  /** Every callback is reachable through its own chord, so no two share a chord. */
  lemma BoundChord(k: Hotkey)
    ensures Bound(Chord(k)) == Some(k)
  {
  }

  /** The switch values: triggers f, l, n and switches bgr2rgb, mirror. */
  datatype Flags = Flags(f: bool, l: bool, n: bool, bgr2rgb: bool, mirror: bool)

  const InitialFlags: Flags := Flags(true, true, true, false, true)

  function Get(s: Flags, k: Hotkey): bool
  {
    match k
    case KeyF => s.f
    case KeyL => s.l
    case KeyN => s.n
    case KeyR => s.bgr2rgb
    case KeyM => s.mirror
  }

  /** One callback: negate the switch of hotkey `k`. */
  function Toggle(s: Flags, k: Hotkey): (r: Flags)
    ensures Get(r, k) == !Get(s, k)
    ensures forall other :: other != k ==> Get(r, other) == Get(s, other)
  {
    match k
    case KeyF => s.(f := !s.f)
    case KeyL => s.(l := !s.l)
    case KeyN => s.(n := !s.n)
    case KeyR => s.(bgr2rgb := !s.bgr2rgb)
    case KeyM => s.(mirror := !s.mirror)
  }

  /** The callbacks of a sequence of key presses, in order. */
  function Replay(s: Flags, presses: seq<Hotkey>): Flags
    decreases presses
  {
    if presses == [] then s else Replay(Toggle(s, presses[0]), presses[1..])
  }

  function Count(presses: seq<Hotkey>, k: Hotkey): nat
  {
    if presses == [] then 0 else (if presses[0] == k then 1 else 0) + Count(presses[1..], k)
  }

  /** After any sequence of presses a switch equals its start value XOR "pressed an odd
      number of times". */
  lemma {:induction false} ReplayParity(s: Flags, presses: seq<Hotkey>, k: Hotkey)
    ensures Get(Replay(s, presses), k) == (Get(s, k) != (Count(presses, k) % 2 == 1))
    decreases presses
  {
    if presses != [] {
      ReplayParity(Toggle(s, presses[0]), presses[1..], k);
    }
  }

  /** The trigger tuple handed to a plugin: (f, l, n). */
  function Trigger(s: Flags): (bool, bool, bool)
  {
    (s.f, s.l, s.n)
  }

  class KeyHandler {
    var fTrig: bool
    var lTrig: bool
    var nTrig: bool
    var bgr2rgbSw: bool
    var mirrorSw: bool
    var listening: bool

    function State(): Flags
      reads this
    {
      Flags(fTrig, lTrig, nTrig, bgr2rgbSw, mirrorSw)
    }

    constructor ()
      ensures State() == InitialFlags && !listening
    {
      fTrig, lTrig, nTrig := true, true, true;
      bgr2rgbSw, mirrorSw := false, true;
      listening := false;
    }

    /** `start`: install the global hook. */
    method Start()
      modifies this`listening
      ensures listening
    {
      listening := true;
    }

    /** `__exit__`: stop the global hook. */
    method Stop()
      modifies this`listening
      ensures !listening
    {
      listening := false;
    }

    method FTrigger()
      modifies this`fTrig
      ensures State() == Toggle(old(State()), KeyF)
    {
      fTrig := !fTrig;
    }

    method LTrigger()
      modifies this`lTrig
      ensures State() == Toggle(old(State()), KeyL)
    {
      lTrig := !lTrig;
    }

    method NTrigger()
      modifies this`nTrig
      ensures State() == Toggle(old(State()), KeyN)
    {
      nTrig := !nTrig;
    }

    method Bgr2RgbSwitch()
      modifies this`bgr2rgbSw
      ensures State() == Toggle(old(State()), KeyR)
    {
      bgr2rgbSw := !bgr2rgbSw;
    }

    method MirrorSwitch()
      modifies this`mirrorSw
      ensures State() == Toggle(old(State()), KeyM)
    {
      mirrorSw := !mirrorSw;
    }

    /** The hook delivering one chord: the bound callback runs, an unbound chord does nothing. */
    method OnChord(chord: string)
      modifies this`fTrig, this`lTrig, this`nTrig, this`bgr2rgbSw, this`mirrorSw
      ensures Bound(chord).Some? ==> State() == Toggle(old(State()), Bound(chord).value)
      ensures Bound(chord).None? ==> State() == old(State())
    {
      match Bound(chord)
      case None =>
      case Some(KeyF) => FTrigger();
      case Some(KeyL) => LTrigger();
      case Some(KeyN) => NTrigger();
      case Some(KeyR) => Bgr2RgbSwitch();
      case Some(KeyM) => MirrorSwitch();
    }

    /** A run of presses between two frames. */
    method PressAll(presses: seq<Hotkey>)
      modifies this`fTrig, this`lTrig, this`nTrig, this`bgr2rgbSw, this`mirrorSw
      ensures State() == Replay(old(State()), presses)
    {
      var i := 0;
      while i < |presses|
        invariant 0 <= i <= |presses|
        invariant Replay(State(), presses[i..]) == Replay(old(State()), presses)
      {
        assert presses[i..][1..] == presses[i + 1..];
        OnChord(Chord(presses[i]));
        i := i + 1;
      }
    }
  }
}
