/** Logical keycodes of the TMK firmware, as far as the Sun Type-3 keymap uses them.
    The numeric HID values of the `KC_*` names are left abstract: a keycode is one
    constructor of this datatype, named like the source's `KC_` suffix. */
module KeyCodes {

  datatype KeyCode =
    | NO                               // KC_NO: no key at this position
    | Fn(index: nat)                   // KC_FN0, KC_FN1, ...: Fn keys, by their index
    | A | B | C | D | E | F | G | H | I | J | K | L | M
    | N | O | P | Q | R | S | T | U | V | W | X | Y | Z
    | Num1 | Num2 | Num3 | Num4 | Num5 | Num6 | Num7 | Num8 | Num9 | Num0
    | F1 | F2 | F3 | F4 | F5 | F6 | F7 | F8 | F9
    | ESC | TAB | BSPC | ENT | SPC | DEL | INSERT
    | MINS | EQL | BSLS | GRV | LBRC | RBRC | SCLN | QUOT | COMM | DOT | SLSH
    | HOME | END | PGUP | PGDOWN | UP | DOWN | LEFT | RIGHT
    | LCTL | LSFT | LALT | LGUI | RCTL | RSFT | RALT | RGUI
    | VOLD | VOLU | MUTE | MPRV | MPLY | MNXT

  /** FN_INDEX: the position of an Fn keycode in the Fn tables. */
  function FnIndex(keycode: KeyCode): nat
    requires keycode.Fn?
  {
    keycode.index
  }
}
