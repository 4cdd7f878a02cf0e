# Sun Type-3 keymap (TMK `sun3_usb` converter) in Dafny

This project models the keymap of the TMK Sun Type-3 to USB converter
(`converter/sun3_usb/keymap.c`). The file holds two pieces:

- The `KEYMAP` macro. It takes 95 positional keycode arguments. Each formal
  parameter is named after the Sun scan code of its key (`K01`, `K03`, …,
  `K7A`, `K13`). The macro writes each argument into the 16 × 8 switch matrix
  and fills every other cell with `KC_NO`.
- The constant tables and their read accessors. `keymaps` has one layer,
  `fn_layer` and `fn_keycode` have eight entries each, and `fn_actions` has
  ten. The accessors are `keymap_get_keycode`, `keymap_fn_layer`,
  `keymap_fn_keycode` and `keymap_fn_to_action`.

Files:

- `keycode.dfy` (module `KeyCodes`): the logical keycodes the keymap uses,
  as one datatype. `Fn(index)` stands for `KC_FN0`, `KC_FN1`, ….
- `action.dfy` (module `Actions`): modifiers and the `(mods, key)` action
  built by `ACTION_MODS_KEY`.
- `counting.dfy` (module `Counting`): distinctness and cardinality helpers.
- `keymap_macro.dfy` (module `KeymapMacro`): the macro. Its parameter list is
  one sequence per header line. Its body is a 16 × 8 table of slots, where
  each slot is `KC_NO` or `KC_##Kxy`. `ParamIndex` binds parameter names to
  argument positions. `Keymap(args)` is the expansion.
- `keymap.dfy` (module `Sun3Keymap`): the base-layer arguments, the four
  tables and the four accessors.

A cell (row, col) is identified by the scan code `8 * row + col`
(`KeymapMacro.CellCode`). The central fact is the layout rule: the argument
for `Kxy` lands at row `0xxy / 8`, column `0xxy % 8`. The 95 parameter names
are distinct, so the arguments fill 95 distinct cells. The other 33 cells are
`KC_NO`.

In C the accessors are unchecked array reads. Here they are total functions,
and their `requires` clauses state the array bounds the C code silently
relies on. A read outside those bounds is undefined behaviour in the C code,
so the model has no out-of-range path to mirror.

## Model

| member | source | states |
|---|---|---|
| KeymapMacro.ParamIndexInvertsParams | converter/sun3_usb/keymap.c:43-49 | The macro has 95 formal parameters, and each name is bound to its own position. So the name of the i-th parameter binds back to i. |
| KeymapMacro.ParamsDistinct | converter/sun3_usb/keymap.c:43-49 | No scan code names two parameters. |
| KeymapMacro.ParamIndexSound | converter/sun3_usb/keymap.c:43-49 | A scan code bound to a position is the name of the parameter at that position. |
| KeymapMacro.BodyFollowsScanCodes | converter/sun3_usb/keymap.c:50-67 | The macro body is 16 × 8. Every cell holds `KC_NO` or the parameter named after that cell's own scan code `8*row+col`. |
| KeymapMacro.BodyUsesOnlyParams | converter/sun3_usb/keymap.c:43-66 | Every `KC_##Kxy` in the body names a declared parameter. |
| KeymapMacro.BodyUsesEveryParam | converter/sun3_usb/keymap.c:43-66 | Every parameter is below 128 and is pasted into the body at row `code / 8`, column `code % 8`. |
| KeymapMacro.Keymap | converter/sun3_usb/keymap.c:43-67 | The expansion is a 16 × 8 matrix. The argument for `Kxy` is at row `0xxy / 8`, column `0xxy % 8`. Every cell whose scan code names no parameter is `KC_NO`. |
| KeymapMacro.KeymapCell | converter/sun3_usb/keymap.c:43-66 | Reading a cell back gives the argument of the parameter named `8*row+col` when there is one, and `KC_NO` otherwise. |
| KeymapMacro.KeymapInverse | converter/sun3_usb/keymap.c:43-66 | A cell that is not `KC_NO` holds the argument whose scan code is `8*row+col`. |
| KeymapMacro.PlacementInjective | converter/sun3_usb/keymap.c:43-66 | Different parameters go to different (row, col) cells, so no argument overwrites another. |
| KeymapMacro.CellCounts | converter/sun3_usb/keymap.c:51-66 | The parameters address 95 of the 128 cells. The 33 remaining cells are `KC_NO` for every argument list. |
| KeymapMacro.EmptyCellsExactly | converter/sun3_usb/keymap.c:51-66 | When no argument is `KC_NO`, a cell is `KC_NO` exactly when its scan code names no parameter. |
| KeymapMacro.PlacementExamples | converter/sun3_usb/keymap.c:44-66 | `K2B` lands at (5,3), `K13` at (2,3), `K58` at (11,0) and `K7A` at (15,2). |
| Sun3Keymap.BaseArgsShape | converter/sun3_usb/keymap.c:97-104 | The base layer passes 95 arguments. None is `KC_NO`, and every Fn argument is one of FN0..FN9. |
| Sun3Keymap.GetKeycode | converter/sun3_usb/keymap.c:128-131 | `keymap_get_keycode` is defined for layer 0, row < 16 and col < 8. The result is `KC_NO` exactly when no parameter is named `8*row+col`. Otherwise it is that parameter's base-layer argument. |
| Sun3Keymap.FnLayer | converter/sun3_usb/keymap.c:133-136 | `keymap_fn_layer` is defined for index < 8. Fn0..Fn2 give layers 2..4, and Fn3..Fn7 give 0 (no switch). |
| Sun3Keymap.FnKeycode | converter/sun3_usb/keymap.c:138-141 | `keymap_fn_keycode` is defined for index < 8. Fn1 gives `KC_SCLN`, Fn2 gives `KC_SLSH`, and every other index gives `KC_NO`. |
| Sun3Keymap.FnToAction | converter/sun3_usb/keymap.c:121-125 | `keymap_fn_to_action` is defined for an Fn keycode whose `FN_INDEX` is below 10. The action holds left GUI alone and sends no key only for FN4. |
| Sun3Keymap.TableSizes | converter/sun3_usb/keymap.c:70-119 | There is one 16 × 8 layer. `fn_layer` and `fn_keycode` have 8 entries each, and `fn_actions` has 10. |
| Sun3Keymap.BaseLayerAgrees | converter/sun3_usb/keymap.c:95-105 | Each base-layer argument is read back at its parameter's cell. |
| Sun3Keymap.BaseLayerCells | converter/sun3_usb/keymap.c:95-105 | Exactly the 33 unaddressed cells of the base layer are `KC_NO`. |
| Sun3Keymap.BaseLayerExamples | converter/sun3_usb/keymap.c:97-104 | `ESC` (0x1D) is at (3,5), `SPC` (0x79) at (15,1) and `BSPC` (0x2B) at (5,3). |
| Sun3Keymap.FnTablesContents | converter/sun3_usb/keymap.c:69-92 | Fn0 gives layer 2 and no tap key. Fn1 gives layer 3 and `;`. Fn2 gives layer 4 and `/`. Fn3..Fn7 give no layer and no tap key. |
| Sun3Keymap.FnActionsContents | converter/sun3_usb/keymap.c:108-119 | The keys of FN0..FN9 are T, N, COMM, Z, NO, C, O, V, F, X. |
| Sun3Keymap.FnKeysCovered | converter/sun3_usb/keymap.c:97-119 | The Fn keys of the base layer are exactly FN0..FN9, and each has an `fn_actions` entry. FN8 at (11,7) and FN9 at (12,1) lie beyond the 8-entry `fn_layer` and `fn_keycode` tables. |

## Left out

- `PROGMEM`, `pgm_read_byte` and `pgm_read_word`. These are AVR program-memory storage and reads. The tables are immutable sequences, and a read is plain indexing.
- Numeric keycode values (`keycode.h` is not part of this model). Keycodes form a datatype of exactly the names the keymap uses, so the model makes no claim about HID codes.
- The 16-bit encoding of `ACTION_MODS_KEY` and the `MOD_*` bit values (the action headers are not part of this model). An action is the `(modifier set, key)` pair it is built from.
- `FN_INDEX` is the subtraction `keycode - KC_FN0` in the firmware. Here it is the index carried by the `Fn` constructor.
- Sun3Keymap.FnToAction: takes the Fn keycode, as the C function does, and requires it to be an Fn key with index below 10. The firmware does not check either condition.
- Sun3Keymap.GetKeycode, Sun3Keymap.FnLayer, Sun3Keymap.FnKeycode: the `uint8_t` width of the arguments is not modelled. The bounds in `requires` are far below 256, so the width cannot matter.
- The reference diagram comment (lines 26-40) is only the source of the scan-code names. It is not modelled as data.
- Matrix scanning, debouncing, the layer engine (`layer.c`) and USB HID reporting. They are not in this file.
- Whether any caller passes FN8 or FN9 to `keymap_fn_layer` or `keymap_fn_keycode` depends on the layer engine, which is not part of this model. `Sun3Keymap.FnKeysCovered` only records that those two keys have no entry in either table.
