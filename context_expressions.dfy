/**
 * The dotted expressions that `getComputedContextProperty` understands,
 * parsed once into a closed set of tagged paths.
 *
 * An expression is routed by its prefix: `config.` takes the whole remainder
 * as one settings key; `resource.` and `component.` name a field of the
 * primary component's document or of the component itself; anything else is a
 * plain context key. Parsing loses nothing: rendering a parsed expression gives
 * back the original string.
 */
module ContextExpressions {
  import opened ContextTypes

  const ConfigPrefix: string := "config."
  const ResourcePrefix: string := "resource."
  const ComponentPrefix: string := "component."

  predicate HasPrefix(s: string, prefix: string) {
    |prefix| <= |s| && s[..|prefix|] == prefix
  }

  /** The fields of `resource.<field>`. */
  datatype ResourceField = Uri | BasenameField | DirnameField | ExtnameField | Language | DocumentType

  datatype Endpoint = Start | End
  datatype PositionField = Line | Character

  /** What of the primary selection is asked for: all of it, one endpoint, or one number of an endpoint. */
  datatype SelectionPath =
    | Whole
    | At(endpoint: Endpoint)
    | Leaf(endpoint: Endpoint, field: PositionField)

  /** The fields of `component.<field>`. */
  datatype ComponentField =
    | ComponentType
    | Selections
    | PrimarySelection(path: SelectionPath)

  /** A parsed expression. The `Unknown…` variants carry an unrecognised field name after a known prefix. */
  datatype Expr =
    | Config(key: string)
    | Resource(resourceField: ResourceField)
    | UnknownResource(resourceName: string)
    | Component(componentField: ComponentField)
    | UnknownComponent(componentName: string)
    | Plain(plainKey: string)

  function ResourceFieldName(f: ResourceField): string {
    match f
    case Uri => "uri"
    case BasenameField => "basename"
    case DirnameField => "dirname"
    case ExtnameField => "extname"
    case Language => "language"
    case DocumentType => "type"
  }

  /** The resource field a name denotes, if any: exactly the inverse of ResourceFieldName. */
  function ParseResourceField(name: string): (r: Option<ResourceField>)
    ensures r.Some? ==> ResourceFieldName(r.value) == name
    ensures r.None? ==> forall f :: ResourceFieldName(f) != name
  {
    if name == "uri" then Some(Uri)
    else if name == "basename" then Some(BasenameField)
    else if name == "dirname" then Some(DirnameField)
    else if name == "extname" then Some(ExtnameField)
    else if name == "language" then Some(Language)
    else if name == "type" then Some(DocumentType)
    else None
  }

  /** Every resource field's name parses back to that field. */
  lemma ResourceFieldNameParses(f: ResourceField)
    ensures ParseResourceField(ResourceFieldName(f)) == Some(f)
  {
  }

  function ComponentFieldName(f: ComponentField): string {
    match f
    case ComponentType => "type"
    case Selections => "selections"
    case PrimarySelection(Whole) => "selection"
    case PrimarySelection(At(Start)) => "selection.start"
    case PrimarySelection(At(End)) => "selection.end"
    case PrimarySelection(Leaf(Start, Line)) => "selection.start.line"
    case PrimarySelection(Leaf(Start, Character)) => "selection.start.character"
    case PrimarySelection(Leaf(End, Line)) => "selection.end.line"
    case PrimarySelection(Leaf(End, Character)) => "selection.end.character"
  }

  /** The component field a name denotes, if any: exactly the inverse of ComponentFieldName. */
  function ParseComponentField(name: string): (r: Option<ComponentField>)
    ensures r.Some? ==> ComponentFieldName(r.value) == name
    ensures r.None? ==> forall f :: ComponentFieldName(f) != name
  {
    if name == "type" then Some(ComponentType)
    else if name == "selections" then Some(Selections)
    else if name == "selection" then Some(PrimarySelection(Whole))
    else if name == "selection.start" then Some(PrimarySelection(At(Start)))
    else if name == "selection.end" then Some(PrimarySelection(At(End)))
    else if name == "selection.start.line" then Some(PrimarySelection(Leaf(Start, Line)))
    else if name == "selection.start.character" then Some(PrimarySelection(Leaf(Start, Character)))
    else if name == "selection.end.line" then Some(PrimarySelection(Leaf(End, Line)))
    else if name == "selection.end.character" then Some(PrimarySelection(Leaf(End, Character)))
    else None
  }

  /** Every component field's name parses back to that field. */
  lemma ComponentFieldNameParses(f: ComponentField)
    ensures ParseComponentField(ComponentFieldName(f)) == Some(f)
  {
  }

  /** The expression string a parsed expression stands for. */
  function Render(e: Expr): string {
    match e
    case Config(key) => ConfigPrefix + key
    case Resource(f) => ResourcePrefix + ResourceFieldName(f)
    case UnknownResource(name) => ResourcePrefix + name
    case Component(f) => ComponentPrefix + ComponentFieldName(f)
    case UnknownComponent(name) => ComponentPrefix + name
    case Plain(key) => key
  }

  /** The parsed expressions Parse can produce: unknown names really are unknown, plain keys carry no prefix. */
  predicate WellFormed(e: Expr) {
    match e
    case UnknownResource(name) => ParseResourceField(name).None?
    case UnknownComponent(name) => ParseComponentField(name).None?
    case Plain(key) =>
      !HasPrefix(key, ConfigPrefix) && !HasPrefix(key, ResourcePrefix) && !HasPrefix(key, ComponentPrefix)
    case _ => true
  }

  /** Prefix dispatch, in the order `config.`, `resource.`, `component.`, then plain key. */
  function Parse(expr: string): (e: Expr)
    ensures WellFormed(e)
    ensures Render(e) == expr
    ensures HasPrefix(expr, ConfigPrefix) <==> e.Config?
    ensures HasPrefix(expr, ResourcePrefix) <==> e.Resource? || e.UnknownResource?
    ensures HasPrefix(expr, ComponentPrefix) <==> e.Component? || e.UnknownComponent?
  {
    if HasPrefix(expr, ConfigPrefix) then
      PrefixSplit(expr, ConfigPrefix);
      PrefixesExclusive(expr);
      Config(expr[|ConfigPrefix|..])
    else if HasPrefix(expr, ResourcePrefix) then
      var name := expr[|ResourcePrefix|..];
      PrefixSplit(expr, ResourcePrefix);
      PrefixesExclusive(expr);
      match ParseResourceField(name)
      case Some(f) => Resource(f)
      case None => UnknownResource(name)
    else if HasPrefix(expr, ComponentPrefix) then
      var name := expr[|ComponentPrefix|..];
      PrefixSplit(expr, ComponentPrefix);
      match ParseComponentField(name)
      case Some(f) => Component(f)
      case None => UnknownComponent(name)
    else
      Plain(expr)
  }

  /** A string that starts with a prefix is that prefix followed by the rest. */
  lemma PrefixSplit(s: string, prefix: string)
    requires HasPrefix(s, prefix)
    ensures prefix + s[|prefix|..] == s
  {
    assert s == s[..|prefix|] + s[|prefix|..];
  }

  /** A prefix followed by anything starts with that prefix, and the rest is what followed. */
  lemma PrefixOfConcat(prefix: string, rest: string)
    ensures HasPrefix(prefix + rest, prefix)
    ensures (prefix + rest)[|prefix|..] == rest
  {
    assert (prefix + rest)[..|prefix|] == prefix;
  }

  /** No expression starts with two of the three prefixes. */
  lemma PrefixesExclusive(s: string)
    ensures !(HasPrefix(s, ConfigPrefix) && HasPrefix(s, ResourcePrefix))
    ensures !(HasPrefix(s, ConfigPrefix) && HasPrefix(s, ComponentPrefix))
    ensures !(HasPrefix(s, ResourcePrefix) && HasPrefix(s, ComponentPrefix))
  {
    if HasPrefix(s, ConfigPrefix) {
      assert s[0] == ConfigPrefix[0] && s[2] == ConfigPrefix[2];
    }
    if HasPrefix(s, ResourcePrefix) {
      assert s[0] == ResourcePrefix[0];
    }
  }

  /** Every well-formed parsed expression is what Parse makes of its rendering. */
  lemma ParseRender(e: Expr)
    requires WellFormed(e)
    ensures Parse(Render(e)) == e
  {
    match e
    case Config(key) =>
      PrefixOfConcat(ConfigPrefix, key);
    case Resource(f) =>
      PrefixOfConcat(ResourcePrefix, ResourceFieldName(f));
      ResourceFieldNameParses(f);
      PrefixesExclusive(Render(e));
    case UnknownResource(name) =>
      PrefixOfConcat(ResourcePrefix, name);
      PrefixesExclusive(Render(e));
    case Component(f) =>
      PrefixOfConcat(ComponentPrefix, ComponentFieldName(f));
      ComponentFieldNameParses(f);
      PrefixesExclusive(Render(e));
    case UnknownComponent(name) =>
      PrefixOfConcat(ComponentPrefix, name);
      PrefixesExclusive(Render(e));
    case Plain(key) =>
  }
}
