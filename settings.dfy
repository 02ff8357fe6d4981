/**
 * Configuration values as the TOML file and the JSON bodies carry them: text,
 * integers and lists of text, grouped into sections keyed by name.
 */
module Settings {

  datatype Setting = Text(text: string) | Number(number: int) | TextList(items: seq<string>)

  /** One section of the configuration document, e.g. "main". */
  type Section = map<string, Setting>

  /** config.get(key, default) for a text setting; a value of another type under key is read as absent. */
  function TextOr(m: Section, key: string, default: string): (r: string)
    ensures key in m && m[key].Text? ==> r == m[key].text
    ensures !(key in m && m[key].Text?) ==> r == default
  {
    if key in m && m[key].Text? then m[key].text else default
  }

  /** config.get(key, default) for an integer setting; a value of another type under key is read as absent. */
  function NumberOr(m: Section, key: string, default: int): (r: int)
    ensures key in m && m[key].Number? ==> r == m[key].number
    ensures !(key in m && m[key].Number?) ==> r == default
  {
    if key in m && m[key].Number? then m[key].number else default
  }
}
