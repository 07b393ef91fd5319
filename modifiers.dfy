/** The records of the settings screens: a modifier (a named, ordered prompt
    ingredient that can be switched on and off) and the values it offers. */
module Modifiers {
  import opened JsText

  /** One value of a modifier: its id, its label and its two prompts; any
      further fields the record carries are kept in `others`. */
  datatype ValueEntry = ValueEntry(id: int, value: String, system: String, user: String, others: map<String, String>)

  /** A modifier record: name, description, `'active'`/`'inactive'` status,
      position in the prompt and its values. */
  datatype Modifier = Modifier(modifier: String, description: String, status: String, sequence: int, values: seq<ValueEntry>)

  const Active: String := "active"
  const Inactive: String := "inactive"
}
