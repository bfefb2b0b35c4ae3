/**
 * Resolving a context expression (`getComputedContextProperty`).
 *
 * `config.<key>` reads the merged settings and is `null` when the key has no
 * value; `resource.<field>` and `component.<field>` read the primary (first
 * visible) view component and are `null` when there is none, and every
 * `component.selection…` field is `null` when that component has no
 * selection; everything else is read verbatim from the context map, where a
 * missing key is `undefined`. So `undefined` comes only from that last,
 * plain lookup.
 */
module ComputedProperty {
  import opened ContextTypes
  import opened ContextExpressions
  import UriPaths

  /** `config.<key>`: the settings value stored under the literal key, `null` when there is none. */
  function ConfigValue(settings: SettingsCascade, key: string): (r: Value)
    ensures r != Undefined
    ensures key in settings.final && settings.final[key] != Undefined ==> r == settings.final[key]
    ensures key !in settings.final || settings.final[key] == Undefined ==> r == Null
  {
    var v := Lookup(settings.final, key);
    if v == Undefined then Null else v
  }

  /** `resource.<field>` for the primary component's document: every field is a string. */
  function ResourceValue(doc: TextDocument, field: ResourceField): (r: Value)
    ensures r.Str?
  {
    match field
    case Uri => Str(doc.uri)
    case BasenameField => Str(UriPaths.Basename(doc.uri))
    case DirnameField => Str(UriPaths.Dirname(doc.uri))
    case ExtnameField => Str(UriPaths.Extname(doc.uri))
    case Language => Str(doc.languageId)
    case DocumentType => Str("textDocument")
  }

  function EndpointOf(sel: Selection, endpoint: Endpoint): Position {
    match endpoint
    case Start => sel.start
    case End => sel.end
  }

  /** A part of a present selection: never `null` or `undefined`. */
  function SelectionValue(sel: Selection, path: SelectionPath): (r: Value)
    ensures r != Null && r != Undefined
  {
    match path
    case Whole => Sel(sel)
    case At(endpoint) => Pos(EndpointOf(sel, endpoint))
    case Leaf(endpoint, Line) => Num(EndpointOf(sel, endpoint).line)
    case Leaf(endpoint, Character) => Num(EndpointOf(sel, endpoint).character)
  }

  /** `component.<field>` for a present component: `null` exactly for a selection field when it has no selection. */
  function ComponentValue(component: ViewComponent, field: ComponentField): (r: Value)
    ensures r != Undefined
    ensures r == Null <==> field.PrimarySelection? && |component.selections| == 0
  {
    match field
    case ComponentType => Str(component.kind)
    case Selections => SelList(component.selections)
    case PrimarySelection(path) =>
      if |component.selections| == 0 then Null else SelectionValue(component.selections[0], path)
  }

  /**
   * Whether an expression is answered by the plain context lookup: it has none
   * of the three prefixes, or it has the `resource.` or `component.` prefix
   * with an unknown field while there is a primary component.
   */
  predicate FallsBack(model: Model, expr: string) {
    match Parse(expr)
    case Plain(_) => true
    case UnknownResource(_) => PrimaryComponent(model).Some?
    case UnknownComponent(_) => PrimaryComponent(model).Some?
    case _ => false
  }

  /** The value of a context expression against the model, the settings and the context map. */
  function GetComputedContextProperty(model: Model, settings: SettingsCascade, context: Context, expr: string): (r: Value)
    ensures FallsBack(model, expr) ==> r == Lookup(context, expr)
    ensures r == Undefined <==> FallsBack(model, expr) && Lookup(context, expr) == Undefined
    ensures HasPrefix(expr, ConfigPrefix) ==> r != Undefined
    ensures PrimaryComponent(model).None? && (HasPrefix(expr, ResourcePrefix) || HasPrefix(expr, ComponentPrefix))
            ==> r == Null
  {
    var e := Parse(expr);
    match e
    case Config(key) => ConfigValue(settings, key)
    case Plain(_) => Lookup(context, expr)
    case _ =>
      match PrimaryComponent(model)
      case None => Null
      case Some(component) =>
        match e
        case Resource(field) => ResourceValue(component.item, field)
        case Component(field) => ComponentValue(component, field)
        case _ => Lookup(context, expr)
  }

  // Properties of the resolver, stated over expression strings. `Render(e)`
  // is the expression string of a parsed expression: for instance
  // `Render(Resource(BasenameField))` is "resource.basename" and
  // `Render(Component(PrimarySelection(Leaf(Start, Line))))` is
  // "component.selection.start.line".

  /** `config.<key>` looks up the whole remainder as one literal settings key; a missing key is `null`. */
  lemma ConfigUsesLiteralKey(model: Model, settings: SettingsCascade, context: Context, key: string)
    ensures key in settings.final && settings.final[key] != Undefined
            ==> GetComputedContextProperty(model, settings, context, ConfigPrefix + key) == settings.final[key]
    ensures key !in settings.final
            ==> GetComputedContextProperty(model, settings, context, ConfigPrefix + key) == Null
  {
    ParseRender(Config(key));
  }

  /** Without a visible component, every `resource.*` and `component.*` expression is `null`. */
  lemma NoComponentMeansNull(model: Model, settings: SettingsCascade, context: Context, name: string)
    requires model.visibleViewComponents == []
    ensures GetComputedContextProperty(model, settings, context, ResourcePrefix + name) == Null
    ensures GetComputedContextProperty(model, settings, context, ComponentPrefix + name) == Null
  {
    PrefixOfConcat(ResourcePrefix, name);
    PrefixOfConcat(ComponentPrefix, name);
  }

  /** Each known `resource.<field>` expression reads that field of the primary component's document. */
  lemma ResourceFieldValue(model: Model, settings: SettingsCascade, context: Context, field: ResourceField)
    requires model.visibleViewComponents != []
    ensures GetComputedContextProperty(model, settings, context, Render(Resource(field)))
         == ResourceValue(model.visibleViewComponents[0].item, field)
  {
    ParseRender(Resource(field));
  }

  /**
   * `resource.uri` and `resource.language` are the primary document's own;
   * `resource.type` is the constant "textDocument".
   */
  lemma ResourceUriLanguageType(model: Model, settings: SettingsCascade, context: Context)
    requires model.visibleViewComponents != []
    ensures var doc := model.visibleViewComponents[0].item;
      && GetComputedContextProperty(model, settings, context, Render(Resource(Uri))) == Str(doc.uri)
      && GetComputedContextProperty(model, settings, context, Render(Resource(Language))) == Str(doc.languageId)
      && GetComputedContextProperty(model, settings, context, Render(Resource(DocumentType))) == Str("textDocument")
  {
    ResourceFieldValue(model, settings, context, Uri);
    ResourceFieldValue(model, settings, context, Language);
    ResourceFieldValue(model, settings, context, DocumentType);
  }

  /**
   * `resource.basename`, `resource.dirname` and `resource.extname` are the
   * primary document uri's last segment, the part before it, and the last
   * segment's extension.
   */
  lemma ResourcePathFields(model: Model, settings: SettingsCascade, context: Context)
    requires model.visibleViewComponents != []
    ensures var uri := model.visibleViewComponents[0].item.uri;
      && GetComputedContextProperty(model, settings, context, Render(Resource(BasenameField))) == Str(UriPaths.Basename(uri))
      && GetComputedContextProperty(model, settings, context, Render(Resource(DirnameField))) == Str(UriPaths.Dirname(uri))
      && GetComputedContextProperty(model, settings, context, Render(Resource(ExtnameField))) == Str(UriPaths.Extname(uri))
  {
    ResourceFieldValue(model, settings, context, BasenameField);
    ResourceFieldValue(model, settings, context, DirnameField);
    ResourceFieldValue(model, settings, context, ExtnameField);
  }

  /** When the uri has a `/`, `resource.dirname`, a `/` and `resource.basename` put back `resource.uri`. */
  lemma DirnameAndBasenameRebuildUri(model: Model, settings: SettingsCascade, context: Context)
    requires model.visibleViewComponents != []
    requires '/' in model.visibleViewComponents[0].item.uri
    ensures GetComputedContextProperty(model, settings, context, Render(Resource(DirnameField))).s + "/"
          + GetComputedContextProperty(model, settings, context, Render(Resource(BasenameField))).s
         == GetComputedContextProperty(model, settings, context, Render(Resource(Uri))).s
  {
    ResourceUriLanguageType(model, settings, context);
    ResourcePathFields(model, settings, context);
  }

  /** `component.type` is the component's tag and `component.selections` its whole selection list. */
  lemma ComponentTypeAndSelections(model: Model, settings: SettingsCascade, context: Context)
    requires model.visibleViewComponents != []
    ensures var component := model.visibleViewComponents[0];
      && GetComputedContextProperty(model, settings, context, Render(Component(ComponentType))) == Str(component.kind)
      && GetComputedContextProperty(model, settings, context, Render(Component(Selections))) == SelList(component.selections)
  {
    ParseRender(Component(ComponentType));
    ParseRender(Component(Selections));
  }

  /** Every `component.selection…` expression reads the first selection of the primary component. */
  lemma PrimarySelectionFields(model: Model, settings: SettingsCascade, context: Context)
    requires model.visibleViewComponents != [] && model.visibleViewComponents[0].selections != []
    ensures var sel := model.visibleViewComponents[0].selections[0];
      && GetComputedContextProperty(model, settings, context, Render(Component(PrimarySelection(Whole)))) == Sel(sel)
      && GetComputedContextProperty(model, settings, context, Render(Component(PrimarySelection(At(Start))))) == Pos(sel.start)
      && GetComputedContextProperty(model, settings, context, Render(Component(PrimarySelection(At(End))))) == Pos(sel.end)
      && GetComputedContextProperty(model, settings, context, Render(Component(PrimarySelection(Leaf(Start, Line))))) == Num(sel.start.line)
      && GetComputedContextProperty(model, settings, context, Render(Component(PrimarySelection(Leaf(Start, Character))))) == Num(sel.start.character)
      && GetComputedContextProperty(model, settings, context, Render(Component(PrimarySelection(Leaf(End, Line))))) == Num(sel.end.line)
      && GetComputedContextProperty(model, settings, context, Render(Component(PrimarySelection(Leaf(End, Character))))) == Num(sel.end.character)
  {
    PrimarySelectionField(model, settings, context, Whole);
    PrimarySelectionField(model, settings, context, At(Start));
    PrimarySelectionField(model, settings, context, At(End));
    PrimarySelectionField(model, settings, context, Leaf(Start, Line));
    PrimarySelectionField(model, settings, context, Leaf(Start, Character));
    PrimarySelectionField(model, settings, context, Leaf(End, Line));
    PrimarySelectionField(model, settings, context, Leaf(End, Character));
  }

  /** Each `component.selection…` expression reads its part of the primary component's first selection. */
  lemma PrimarySelectionField(model: Model, settings: SettingsCascade, context: Context, path: SelectionPath)
    requires model.visibleViewComponents != [] && model.visibleViewComponents[0].selections != []
    ensures GetComputedContextProperty(model, settings, context, Render(Component(PrimarySelection(path))))
         == SelectionValue(model.visibleViewComponents[0].selections[0], path)
  {
    ParseRender(Component(PrimarySelection(path)));
  }

  /**
   * Without a primary selection (no component, or a component with no
   * selection) every `component.selection…` expression is `null`, never `undefined`.
   */
  lemma NoSelectionMeansNull(model: Model, settings: SettingsCascade, context: Context, path: SelectionPath)
    requires model.visibleViewComponents == [] || model.visibleViewComponents[0].selections == []
    ensures GetComputedContextProperty(model, settings, context, Render(Component(PrimarySelection(path)))) == Null
  {
    ParseRender(Component(PrimarySelection(path)));
  }

  /**
   * With a primary component, a `resource.` or `component.` expression whose
   * field is not one of the known ones is looked up verbatim in the context map.
   */
  lemma UnknownFieldIsLookup(model: Model, settings: SettingsCascade, context: Context, name: string)
    requires model.visibleViewComponents != []
    ensures ParseResourceField(name).None? ==>
      GetComputedContextProperty(model, settings, context, ResourcePrefix + name) == Lookup(context, ResourcePrefix + name)
    ensures ParseComponentField(name).None? ==>
      GetComputedContextProperty(model, settings, context, ComponentPrefix + name) == Lookup(context, ComponentPrefix + name)
  {
    PrefixOfConcat(ResourcePrefix, name);
    PrefixOfConcat(ComponentPrefix, name);
    PrefixesExclusive(ResourcePrefix + name);
    PrefixesExclusive(ComponentPrefix + name);
  }

  /** An expression with none of the three prefixes is looked up verbatim in the context map. */
  lemma PlainExpressionIsLookup(model: Model, settings: SettingsCascade, context: Context, expr: string)
    requires !HasPrefix(expr, ConfigPrefix) && !HasPrefix(expr, ResourcePrefix) && !HasPrefix(expr, ComponentPrefix)
    ensures GetComputedContextProperty(model, settings, context, expr) == Lookup(context, expr)
  {
  }
}
