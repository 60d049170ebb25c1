/** The platform-independent input types of src/lib.rs: the events a host hands the
    game, the key codes, and the `KeyModifiers` bit set with its `|` and `&`. */
module Keys {

  /** A key, by its position on a US keyboard; `Unknown` stands for every platform code
      the host cannot translate. */
  datatype KeyCode =
    | KeyA | KeyB | KeyC | KeyD | KeyE | KeyF | KeyG | KeyH | KeyI | KeyJ | KeyK | KeyL | KeyM
    | KeyN | KeyO | KeyP | KeyQ | KeyR | KeyS | KeyT | KeyU | KeyV | KeyW | KeyX | KeyY | KeyZ
    | Num0 | Num1 | Num2 | Num3 | Num4 | Num5 | Num6 | Num7 | Num8 | Num9
    | Backslash | CloseBracket | Comma | EqualSign | Hyphen | NonUSBackslash | NonUSPound
    | OpenBracket | Period | Quote | Semicolon | Separator | Slash | Spacebar
    | CapsLock | LeftAlt | LeftControl | LeftShift | LockingCapsLock | LockingNumLock
    | LockingScrollLock | RightAlt | RightControl | RightShift | ScrollLock
    | LeftArrow | RightArrow | UpArrow | DownArrow | PageUp | PageDown | Home | End
    | DeleteForward | DeleteOrBackspace | Escape | Insert | Return | Tab
    | Unknown

  /** The modifier keys held during an event, one bit per modifier. */
  datatype KeyModifiers = KeyModifiers(bits: bv8)

  const CLEAR: KeyModifiers := KeyModifiers(0)
  const CAPSLOCK: KeyModifiers := KeyModifiers(0x01)
  const SHIFT: KeyModifiers := KeyModifiers(0x02)
  const CONTROL: KeyModifiers := KeyModifiers(0x04)
  const OPTION: KeyModifiers := KeyModifiers(0x08)
  const COMMAND: KeyModifiers := KeyModifiers(0x10)
  const NUMERIC_PAD: KeyModifiers := KeyModifiers(0x20)
  const HELP: KeyModifiers := KeyModifiers(0x40)
  const FUNCTION: KeyModifiers := KeyModifiers(0x80)

  /** The eight named modifiers, in declaration order. */
  const MODIFIERS: seq<KeyModifiers> := [CAPSLOCK, SHIFT, CONTROL, OPTION, COMMAND, NUMERIC_PAD, HELP, FUNCTION]

  /** An input event: a key going down or up, or a relative mouse motion. */
  datatype Input =
    | Key(code: KeyCode, modifiers: KeyModifiers, pressed: bool, repeat: bool)
    | MouseMoved(dx: real, dy: real)

  /** Whether every bit of `flag` is set in `m`. */
  predicate Has(m: KeyModifiers, flag: KeyModifiers) {
    m.bits & flag.bits == flag.bits
  }

  /** `BitOr`: a modifier is held in the union exactly when it is held in either side. */
  function Or(a: KeyModifiers, b: KeyModifiers): (c: KeyModifiers)
    ensures forall k :: 0 <= k < |MODIFIERS| ==> (Has(c, MODIFIERS[k]) <==> Has(a, MODIFIERS[k]) || Has(b, MODIFIERS[k]))
  {
    OrEach(a.bits, b.bits);
    KeyModifiers(a.bits | b.bits)
  }

  /** `BitAnd`: a modifier is held in the intersection exactly when it is held in both. */
  function And(a: KeyModifiers, b: KeyModifiers): (c: KeyModifiers)
    ensures forall k :: 0 <= k < |MODIFIERS| ==> (Has(c, MODIFIERS[k]) <==> Has(a, MODIFIERS[k]) && Has(b, MODIFIERS[k]))
  {
    AndEach(a.bits, b.bits);
    KeyModifiers(a.bits & b.bits)
  }

  /** The bitwise facts behind `Or` and `And`, one named modifier at a time. */
  lemma OrEach(a: bv8, b: bv8)
    ensures forall k :: 0 <= k < |MODIFIERS| ==>
      (Has(KeyModifiers(a | b), MODIFIERS[k]) <==> Has(KeyModifiers(a), MODIFIERS[k]) || Has(KeyModifiers(b), MODIFIERS[k]))
  {
    forall k | 0 <= k < |MODIFIERS|
      ensures Has(KeyModifiers(a | b), MODIFIERS[k]) <==> Has(KeyModifiers(a), MODIFIERS[k]) || Has(KeyModifiers(b), MODIFIERS[k])
    {
      IsSingleBit(k);
      OrSingleBit(a, b, MODIFIERS[k].bits);
    }
  }

  /** Each named modifier is one bit. */
  lemma IsSingleBit(k: nat)
    requires k < |MODIFIERS|
    ensures MODIFIERS[k].bits != 0 && MODIFIERS[k].bits & (MODIFIERS[k].bits - 1) == 0
  {
    var f := MODIFIERS[k].bits;
    if k == 0 { assert f == 1; } else if k == 1 { assert f == 2; }
    else if k == 2 { assert f == 4; } else if k == 3 { assert f == 8; }
    else if k == 4 { assert f == 16; } else if k == 5 { assert f == 32; }
    else if k == 6 { assert f == 64; } else { assert f == 128; }
  }

  /** A named modifier holds another named modifier only when the two are the same. */
  lemma HasNamed(j: nat, k: nat)
    requires j < |MODIFIERS| && k < |MODIFIERS|
    ensures Has(MODIFIERS[j], MODIFIERS[k]) <==> j == k
  {
    SingleBits();
    IsSingleBit(k);
    if j < k {
      assert MODIFIERS[j].bits & MODIFIERS[k].bits == 0;
    } else if k < j {
      assert MODIFIERS[k].bits & MODIFIERS[j].bits == 0;
    }
  }

  /** A single bit is set in a union exactly when it is set in either side. */
  lemma OrSingleBit(a: bv8, b: bv8, f: bv8)
    requires f != 0 && f & (f - 1) == 0
    ensures (a | b) & f == f <==> a & f == f || b & f == f
  {
  }

  lemma AndEach(a: bv8, b: bv8)
    ensures forall k :: 0 <= k < |MODIFIERS| ==>
      (Has(KeyModifiers(a & b), MODIFIERS[k]) <==> Has(KeyModifiers(a), MODIFIERS[k]) && Has(KeyModifiers(b), MODIFIERS[k]))
  {
    forall k | 0 <= k < |MODIFIERS|
      ensures Has(KeyModifiers(a & b), MODIFIERS[k]) <==> Has(KeyModifiers(a), MODIFIERS[k]) && Has(KeyModifiers(b), MODIFIERS[k])
    {
      AndHas(a, b, MODIFIERS[k]);
    }
  }

  /** Bits are set in an intersection exactly when they are set in both sides. */
  lemma AndHas(a: bv8, b: bv8, f: KeyModifiers)
    ensures Has(KeyModifiers(a & b), f) <==> Has(KeyModifiers(a), f) && Has(KeyModifiers(b), f)
  {
  }

  /** `CLEAR` holds nothing, and the named modifiers are eight distinct single bits,
      the k-th being bit k, so no two of them overlap. */
  lemma {:induction false} SingleBits()
    ensures CLEAR.bits == 0
    ensures forall k :: 0 <= k < |MODIFIERS| ==> MODIFIERS[k].bits == 1 << k
    ensures forall j, k :: 0 <= j < k < |MODIFIERS| ==> MODIFIERS[j].bits & MODIFIERS[k].bits == 0
  {
    forall k | 0 <= k < |MODIFIERS|
      ensures MODIFIERS[k].bits == 1 << k
    {
      if k == 0 {} else if k == 1 {} else if k == 2 {} else if k == 3 {}
      else if k == 4 {} else if k == 5 {} else if k == 6 {} else {}
    }
  }

  /** The named modifiers cover every bit, so a set of modifiers is determined by which
      of them it holds. */
  lemma {:induction false} DeterminedByModifiers(x: KeyModifiers, y: KeyModifiers)
    requires forall k :: 0 <= k < |MODIFIERS| ==> (Has(x, MODIFIERS[k]) <==> Has(y, MODIFIERS[k]))
    ensures x == y
  {
    assert Has(x, CAPSLOCK) == Has(y, CAPSLOCK) by { assert MODIFIERS[0] == CAPSLOCK; }
    assert Has(x, SHIFT) == Has(y, SHIFT) by { assert MODIFIERS[1] == SHIFT; }
    assert Has(x, CONTROL) == Has(y, CONTROL) by { assert MODIFIERS[2] == CONTROL; }
    assert Has(x, OPTION) == Has(y, OPTION) by { assert MODIFIERS[3] == OPTION; }
    assert Has(x, COMMAND) == Has(y, COMMAND) by { assert MODIFIERS[4] == COMMAND; }
    assert Has(x, NUMERIC_PAD) == Has(y, NUMERIC_PAD) by { assert MODIFIERS[5] == NUMERIC_PAD; }
    assert Has(x, HELP) == Has(y, HELP) by { assert MODIFIERS[6] == HELP; }
    assert Has(x, FUNCTION) == Has(y, FUNCTION) by { assert MODIFIERS[7] == FUNCTION; }
  }

  lemma OrCommutative(a: KeyModifiers, b: KeyModifiers)
    ensures Or(a, b) == Or(b, a)
  {
    DeterminedByModifiers(Or(a, b), Or(b, a));
  }

  lemma OrAssociative(a: KeyModifiers, b: KeyModifiers, c: KeyModifiers)
    ensures Or(Or(a, b), c) == Or(a, Or(b, c))
  {
    DeterminedByModifiers(Or(Or(a, b), c), Or(a, Or(b, c)));
  }

  /** `CLEAR` is the identity of `|` on either side. */
  lemma OrIdentity(a: KeyModifiers)
    ensures Or(a, CLEAR) == a && Or(CLEAR, a) == a
  {
    DeterminedByModifiers(Or(a, CLEAR), a);
    DeterminedByModifiers(Or(CLEAR, a), a);
  }

  /** `CLEAR` absorbs `&`, and `&` is idempotent. */
  lemma AndClearAndIdempotent(a: KeyModifiers)
    ensures And(a, CLEAR) == CLEAR && And(a, a) == a
  {
    DeterminedByModifiers(And(a, CLEAR), CLEAR);
    DeterminedByModifiers(And(a, a), a);
  }

  /** The union of all named modifiers is the full byte. */
  lemma AllModifiers()
    ensures Or(Or(Or(Or(Or(Or(Or(CAPSLOCK, SHIFT), CONTROL), OPTION), COMMAND), NUMERIC_PAD), HELP), FUNCTION).bits == 0xFF
  {
  }
}
