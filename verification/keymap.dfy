/** The keymap tables of the Sun Type-3 converter and their read accessors.

    All tables live in program memory in the firmware and are never written; here
    they are immutable sequences, and the accessors are total functions whose
    preconditions are the array bounds the firmware leaves unchecked. */
module Sun3Keymap {
  import opened KeyCodes
  import opened Actions
  import opened Counting
  import opened KeymapMacro

  // The arguments of the one KEYMAP(...) invocation, one constant per source line.
  const BaseLine1: seq<KeyCode> :=
    [Fn(0), Fn(1), F1, F2, F3, F4, F5, F6, F7, F8, F9, BSPC, VOLD, MUTE, VOLU]
  const BaseLine2: seq<KeyCode> :=
    [Fn(2), Fn(3), ESC, Num1, Num2, Num3, Num4, Num5, Num6, Num7, Num8, Num9, Num0, MINS, EQL, BSLS, GRV, MPRV, MPLY, MNXT]
  const BaseLine3: seq<KeyCode> :=
    [Fn(4), Fn(5), TAB, Q, W, E, R, T, Y, U, I, O, P, LBRC, RBRC, DEL, HOME, UP, PGUP]
  const BaseLine4: seq<KeyCode> :=
    [Fn(6), Fn(7), LGUI, A, S, D, F, G, H, J, K, L, SCLN, QUOT, ENT, LEFT, INSERT, RIGHT]
  const BaseLine5: seq<KeyCode> :=
    [Fn(8), Fn(9), LSFT, Z, X, C, V, B, N, M, COMM, DOT, SLSH, RSFT, RGUI, END, DOWN, PGDOWN]
  const BaseLine6: seq<KeyCode> :=
    [LALT, LCTL, SPC, RCTL, RALT]

  /** The 95 arguments of the base layer, in parameter order. */
  const BaseArgs: seq<KeyCode> :=
    BaseLine1 + BaseLine2 + BaseLine3 + BaseLine4 + BaseLine5 + BaseLine6

  /** keymaps: one layer, the expansion of the base-layer arguments. */
  const Keymaps: seq<Matrix> := [Keymap(BaseArgs)]

  /** fn_layer: the layer switched to while Fn0 .. Fn7 is held (0: no switch). */
  const FnLayers: seq<nat> := [2, 3, 4, 0, 0, 0, 0, 0]

  /** fn_keycode: the keycode sent when Fn0 .. Fn7 is released without using its layer. */
  const FnKeycodes: seq<KeyCode> := [NO, SCLN, SLSH, NO, NO, NO, NO, NO]

  /** fn_actions: the action of FN0 .. FN9, each a Command (left GUI) shortcut. */
  const FnActions: seq<Action> := [
    ModsKey({LGui}, T),     // FN0: new tab
    ModsKey({LGui}, N),     // FN1: new window
    ModsKey({LGui}, COMM),  // FN2: properties
    ModsKey({LGui}, Z),     // FN3: undo
    ModsKey({LGui}, NO),    // FN4: front
    ModsKey({LGui}, C),     // FN5: copy
    ModsKey({LGui}, O),     // FN6: open
    ModsKey({LGui}, V),     // FN7: paste
    ModsKey({LGui}, F),     // FN8: find
    ModsKey({LGui}, X)      // FN9: cut
  ]

  // ---------------------------------------------------------------------------
  // Facts about the base-layer arguments.

  /** A base-layer argument is a real key, and an Fn argument is one of FN0 .. FN9. */
  predicate BaseArgOk(keycode: KeyCode) {
    keycode != NO && (keycode.Fn? ==> keycode.index < 10)
  }

  lemma BaseLinesOk()
    ensures forall i :: 0 <= i < |BaseLine1| ==> BaseArgOk(BaseLine1[i])
    ensures forall i :: 0 <= i < |BaseLine2| ==> BaseArgOk(BaseLine2[i])
    ensures forall i :: 0 <= i < |BaseLine3| ==> BaseArgOk(BaseLine3[i])
    ensures forall i :: 0 <= i < |BaseLine4| ==> BaseArgOk(BaseLine4[i])
    ensures forall i :: 0 <= i < |BaseLine5| ==> BaseArgOk(BaseLine5[i])
    ensures forall i :: 0 <= i < |BaseLine6| ==> BaseArgOk(BaseLine6[i])
  {}

  /** No base-layer argument is KC_NO, and every Fn argument is one of FN0 .. FN9. */
  lemma BaseArgsShape()
    ensures |BaseArgs| == |Params|
    ensures forall i :: 0 <= i < |BaseArgs| ==> BaseArgs[i] != NO
    ensures forall i :: 0 <= i < |BaseArgs| && BaseArgs[i].Fn? ==> BaseArgs[i].index < 10
  {
    BaseLinesOk();
    assert forall i :: 0 <= i < |BaseArgs| ==> BaseArgOk(BaseArgs[i]);
  }

  // ---------------------------------------------------------------------------
  // Accessors.

  /** keymap_get_keycode: the keycode of cell (row, col) in `layer`. The cell is
      KC_NO exactly when no KEYMAP parameter is named after its scan code, and
      otherwise holds the base-layer argument of that parameter. */
  function GetKeycode(layer: nat, row: nat, col: nat): (keycode: KeyCode)
    requires layer < |Keymaps| && row < Rows && col < Cols
    ensures keycode == NO <==> CellCode(row, col) !in Params
    ensures forall i :: 0 <= i < |Params| && Params[i] == CellCode(row, col) ==> keycode == BaseArgs[i]
  {
    BaseArgsShape();
    ParamIndexInvertsParams();
    KeymapCell(BaseArgs, row, col);
    Keymaps[layer][row][col]
  }

  /** keymap_fn_layer: the layer Fn0 .. Fn2 switch to is 2 .. 4; Fn3 .. Fn7
      switch to no layer. */
  function FnLayer(index: nat): (layer: nat)
    requires index < |FnLayers|
    ensures index < 3 ==> layer == index + 2
    ensures 3 <= index ==> layer == 0
  {
    FnLayers[index]
  }

  /** keymap_fn_keycode: Fn1 taps a semicolon, Fn2 a slash, and every other Fn key
      sends nothing. */
  function FnKeycode(index: nat): (keycode: KeyCode)
    requires index < |FnKeycodes|
    ensures index == 1 ==> keycode == SCLN
    ensures index == 2 ==> keycode == SLSH
    ensures index != 1 && index != 2 ==> keycode == NO
  {
    FnKeycodes[index]
  }

  /** keymap_fn_to_action: the action of an Fn keycode, looked up by its FN_INDEX.
      Every action is a Command (left GUI) shortcut; only FN4 sends no key with it. */
  function FnToAction(keycode: KeyCode): (action: Action)
    requires keycode.Fn? && FnIndex(keycode) < |FnActions|
    ensures action.mods == {LGui}
    ensures action.key == NO <==> FnIndex(keycode) == 4
  {
    FnActions[FnIndex(keycode)]
  }

  // ---------------------------------------------------------------------------
  // Properties of the tables.

  /** The table dimensions: one layer of Rows x Cols, eight Fn layer and Fn
      keycode entries, ten Fn actions. */
  lemma TableSizes()
    ensures |Keymaps| == 1 && IsMatrix(Keymaps[0])
    ensures |FnLayers| == 8 && |FnKeycodes| == 8 && |FnActions| == 10
  {}

  /** The base layer agrees cell for cell with its KEYMAP arguments. */
  lemma BaseLayerAgrees()
    ensures forall i :: 0 <= i < |Params| ==>
              Params[i] < Rows * Cols && GetKeycode(0, Params[i] / Cols, Params[i] % Cols) == BaseArgs[i]
  {
    BodyUsesEveryParam();
    forall i | 0 <= i < |Params|
      ensures Params[i] < Rows * Cols && GetKeycode(0, Params[i] / Cols, Params[i] % Cols) == BaseArgs[i]
    {
      assert CellCode(Params[i] / Cols, Params[i] % Cols) == Params[i];
    }
  }

  /** Exactly the 33 unaddressed cells of the base layer are KC_NO. */
  lemma BaseLayerCells()
    ensures forall k :: k in Range(Rows * Cols) ==> (Keymaps[0][k / Cols][k % Cols] == NO <==> k in EmptyCodes())
    ensures |EmptyCodes()| == 33
  {
    BaseArgsShape();
    CellCounts();
    EmptyCellsExactly(BaseArgs);
  }

  /** Escape sits at (3, 5) (scan code 0x1D), the space bar at (15, 1) (0x79) and
      backspace at (5, 3) (0x2B). */
  lemma BaseLayerExamples()
    ensures GetKeycode(0, 3, 5) == ESC
    ensures GetKeycode(0, 15, 1) == SPC
    ensures GetKeycode(0, 5, 3) == BSPC
  {
    ParamIndexInvertsParams();
    assert Params[17] == 0x1D && BaseArgs[17] == ESC;
    assert Params[92] == 0x79 && BaseArgs[92] == SPC;
    assert Params[11] == 0x2B && BaseArgs[11] == BSPC;
  }

  /** The Fn layer and Fn keycode tables: Fn0 -> layer 2 with no tap key, Fn1 ->
      layer 3 tapping a semicolon, Fn2 -> layer 4 tapping a slash, Fn3 .. Fn7 -> no
      layer and no tap key. */
  lemma FnTablesContents()
    ensures FnLayer(0) == 2 && FnKeycode(0) == NO
    ensures FnLayer(1) == 3 && FnKeycode(1) == SCLN
    ensures FnLayer(2) == 4 && FnKeycode(2) == SLSH
    ensures forall i :: 3 <= i < 8 ==> FnLayer(i) == 0 && FnKeycode(i) == NO
  {}

  /** fn_actions, entry by entry: the key each Command shortcut sends. */
  lemma FnActionsContents()
    ensures FnToAction(Fn(0)).key == T
    ensures FnToAction(Fn(1)).key == N
    ensures FnToAction(Fn(2)).key == COMM
    ensures FnToAction(Fn(3)).key == Z
    ensures FnToAction(Fn(4)).key == NO
    ensures FnToAction(Fn(5)).key == C
    ensures FnToAction(Fn(6)).key == O
    ensures FnToAction(Fn(7)).key == V
    ensures FnToAction(Fn(8)).key == F
    ensures FnToAction(Fn(9)).key == X
  {}

  /** The Fn keys of the base layer are exactly FN0 .. FN9: each has an action, so
      keymap_fn_to_action never reads past fn_actions for a key of this layer, while
      FN8 (at (11, 7)) and FN9 (at (12, 1)) lie beyond the eight-entry fn_layer and
      fn_keycode tables. */
  lemma FnKeysCovered()
    ensures forall r, c :: 0 <= r < Rows && 0 <= c < Cols && GetKeycode(0, r, c).Fn? ==>
              FnIndex(GetKeycode(0, r, c)) < |FnActions|
    ensures forall n :: 0 <= n < |FnActions| ==>
              exists r, c :: 0 <= r < Rows && 0 <= c < Cols && GetKeycode(0, r, c) == Fn(n)
    ensures GetKeycode(0, 11, 7) == Fn(8) && 8 >= |FnLayers| && 8 >= |FnKeycodes|
    ensures GetKeycode(0, 12, 1) == Fn(9) && 9 >= |FnLayers| && 9 >= |FnKeycodes|
  {
    BaseArgsShape();
    ParamIndexInvertsParams();
    forall r, c | 0 <= r < Rows && 0 <= c < Cols && GetKeycode(0, r, c).Fn?
      ensures FnIndex(GetKeycode(0, r, c)) < |FnActions|
    {
      KeymapInverse(BaseArgs, r, c);
    }
    // Where FN0 .. FN9 are placed: parameters K01, K03, K19, K1A, K31, K33, K48,
    // K49, K5F and K61.
    var cells := [(0, 1), (0, 3), (3, 1), (3, 2), (6, 1), (6, 3), (9, 0), (9, 1), (11, 7), (12, 1)];
    var args := [0, 1, 15, 16, 35, 36, 54, 55, 72, 73];
    forall n | 0 <= n < |FnActions|
      ensures exists r, c :: 0 <= r < Rows && 0 <= c < Cols && GetKeycode(0, r, c) == Fn(n)
    {
      var (r, c) := cells[n];
      assert Params[args[n]] == CellCode(r, c) && BaseArgs[args[n]] == Fn(n);
      assert GetKeycode(0, r, c) == Fn(n);
    }
    assert Params[72] == CellCode(11, 7) && BaseArgs[72] == Fn(8);
    assert Params[73] == CellCode(12, 1) && BaseArgs[73] == Fn(9);
  }
}
