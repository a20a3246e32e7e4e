/**
 * `ConfigManager`, the persisted key/value settings store several
 * components write to. Only the values written are modelled; the store is
 * a map from setting name to value.
 */
module ConfigStore {
  import Json

  /** A `QVariant` as the components store it: text or a number. */
  datatype ConfigValue = Text(text: string) | Number(number: int)

  type Store = map<string, ConfigValue>

  /**
   * `getValue(key, "").toString()`: the stored text, a stored number in
   * decimal, or "" when the key is missing.
   */
  function TextOr(store: Store, key: string): (r: string)
    ensures key !in store ==> r == ""
    ensures key in store && store[key].Text? ==> r == store[key].text
    ensures key in store && store[key].Number? ==> r == Json.DecimalText(store[key].number)
  {
    if key !in store then ""
    else match store[key]
      case Text(text) => text
      case Number(number) => Json.DecimalText(number)
  }
}
