/**
 * The template renderer the library delegates to. Its behaviour is not part
 * of this model: every operation that renders receives the renderer as a
 * total function `m(template, variables)` and the model states which template
 * and which variables it passes.
 */
module Templates {
  import opened Values

  /** One option of a select, radio or checkbox input, as the input template sees it. */
  datatype Choice = Choice(optionValue: string, optionText: string, optionSelected: bool)

  /** A template variable. */
  datatype TVar =
    | TStr(s: string)
    | TBool(b: bool)
    | TChoices(choices: seq<Choice>)
    | TStrs(strs: seq<string>)
    | TValue(v: Value)

  type Vars = map<string, TVar>

  /** The renderer: a template and its variables give the rendered text. */
  type Mustache = (string, Vars) -> string

  /**
   * `Object.assign({...computed}, extra || {})`: the caller's variables
   * override computed ones with the same name; every other computed one stays.
   */
  function Overlay(computed: Vars, extra: Vars): (r: Vars)
    ensures r.Keys == computed.Keys + extra.Keys
    ensures forall k :: k in extra ==> r[k] == extra[k]
    ensures forall k :: k in computed && k !in extra ==> r[k] == computed[k]
  {
    computed + extra
  }
}
