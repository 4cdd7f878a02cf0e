/** Actions bound to Fn keys. The 16-bit encoding of `ACTION_MODS_KEY` is left
    abstract: an action is the pair it is built from. */
module Actions {
  import opened KeyCodes

  /** The modifier bits MOD_LCTL ... MOD_RGUI. */
  datatype Modifier = LCtl | LSft | LAlt | LGui | RCtl | RSft | RAlt | RGui

  /** ACTION_MODS_KEY(mods, key): send `key` with the modifiers `mods` held. */
  datatype Action = ModsKey(mods: set<Modifier>, key: KeyCode)
}
