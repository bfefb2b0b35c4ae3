/**
 * Values and editor-state snapshots read by the context helpers of the
 * code-intelligence client.
 *
 * The editor model, the extension-host position and selection types and the
 * settings cascade are collaborators of the context helpers; only the parts of
 * them that the helpers read are modelled here, as plain immutable values.
 */
module ContextTypes {

  datatype Option<+T> = None | Some(value: T)

  /** A position in a document: a line and a character offset on that line. */
  datatype Position = Position(line: int, character: int)

  /** The plain form of a selection: `{start, end, isReversed}`. */
  datatype Selection = Selection(start: Position, end: Position, isReversed: bool)

  /**
   * Everything a context entry or a computed context property can evaluate to.
   * `Null` and `Undefined` are different answers: `Null` is a recognised
   * property that currently has no value, `Undefined` is no binding at all.
   * Numbers are modelled as integers.
   */
  datatype Value =
    | Undefined
    | Null
    | Bool(b: bool)
    | Num(n: int)
    | Str(s: string)
    | Pos(pos: Position)
    | Sel(sel: Selection)
    | SelList(sels: seq<Selection>)

  /** The flat key/value context map. A key that is absent reads as `Undefined`. */
  type Context = map<string, Value>

  /** Reading a key of a context, as an object property read does. */
  function Lookup(context: Context, key: string): (v: Value)
    ensures key !in context ==> v == Undefined
    ensures key in context ==> v == context[key]
  {
    if key in context then context[key] else Undefined
  }

  /** The document a view component shows (its text is not read by the helpers). */
  datatype TextDocument = TextDocument(uri: string, languageId: string)

  /** A visible view component: its type tag (such as "textEditor"), its document and its selections. */
  datatype ViewComponent = ViewComponent(kind: string, item: TextDocument, selections: seq<Selection>)

  /** The part of the client's model the helpers read: the visible view components, in order. */
  datatype Model = Model(visibleViewComponents: seq<ViewComponent>)

  /** A resolved settings cascade; only its merged `final` view is read. */
  datatype SettingsCascade = SettingsCascade(final: map<string, Value>)

  /** The primary component: the first visible view component, if there is one. */
  function PrimaryComponent(model: Model): (c: Option<ViewComponent>)
    ensures c.None? <==> |model.visibleViewComponents| == 0
    ensures c.Some? ==> c.value == model.visibleViewComponents[0]
  {
    if |model.visibleViewComponents| == 0 then None else Some(model.visibleViewComponents[0])
  }
}
