/**
 * The `keys` object the keydown/keyup listeners fill in: a key is held when
 * its entry is present and true; a key never pressed has no entry, which
 * JavaScript reads as the falsy `undefined`.
 */
module Keyboard {

  type Keys = map<string, bool>

  predicate Held(keys: Keys, k: string)
  {
    k in keys && keys[k]
  }
}
