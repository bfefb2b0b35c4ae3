/**
 * The concrete scenarios of the context helpers' test suite, each stated as a
 * lemma about the model: the merge example, the settings lookups, the resource
 * and component fields of a model with one text editor, the models without a
 * component or without a selection, and the plain-key fallback.
 */
module ContextExamples {
  import opened ContextTypes
  import opened ContextExpressions
  import opened ContextUpdate
  import opened ComputedProperty
  import UriPaths

  /** The selection (1,2)-(3,4), made forwards. */
  const TestSelection: Selection := Selection(Position(1, 2), Position(3, 4), false)

  const TestDocument: TextDocument := TextDocument("file:///a/b.c", "l")

  /** One text editor on `file:///a/b.c` with one selection. */
  const TestModel: Model := Model([ViewComponent("textEditor", TestDocument, [TestSelection])])

  /** The same editor with no selection. */
  const NoSelectionModel: Model := Model([ViewComponent("textEditor", TestDocument, [])])

  const EmptyModel: Model := Model([])

  const EmptySettings: SettingsCascade := SettingsCascade(map[])

  /** `null` deletes `a`, `b` (stored as `null`) and `c` are overwritten, `d` and `e: null` pass through. */
  lemma MergesProperties()
    ensures ApplyContextUpdate(
              map["a" := Num(1), "b" := Null, "c" := Num(2), "d" := Num(3), "e" := Null],
              map["a" := Null, "b" := Num(1), "c" := Num(3)])
         == map["b" := Num(1), "c" := Num(3), "d" := Num(3), "e" := Null]
  {
    var r := ApplyContextUpdate(
               map["a" := Num(1), "b" := Null, "c" := Num(2), "d" := Num(3), "e" := Null],
               map["a" := Null, "b" := Num(1), "c" := Num(3)]);
    assert r.Keys == {"b", "c", "d", "e"};
  }

  /** With both `a` and `a.b` stored, `config.a.b` reads the key `a.b`; `config.x` is `null`. */
  lemma ProvidesConfig()
    ensures var settings := SettingsCascade(map["a" := Num(1), "a.b" := Num(2), "c.d" := Num(3)]);
      && GetComputedContextProperty(EmptyModel, settings, map[], "config.a") == Num(1)
      && GetComputedContextProperty(EmptyModel, settings, map[], "config.a.b") == Num(2)
      && GetComputedContextProperty(EmptyModel, settings, map[], "config.c.d") == Num(3)
      && GetComputedContextProperty(EmptyModel, settings, map[], "config.x") == Null
  {
    var settings := SettingsCascade(map["a" := Num(1), "a.b" := Num(2), "c.d" := Num(3)]);
    ConfigUsesLiteralKey(EmptyModel, settings, map[], "a");
    ConfigUsesLiteralKey(EmptyModel, settings, map[], "a.b");
    ConfigUsesLiteralKey(EmptyModel, settings, map[], "c.d");
    ConfigUsesLiteralKey(EmptyModel, settings, map[], "x");
  }

  /** `file:///a/b.c` splits at its last `/` into the directory `file:///a` and the name `b.c`. */
  lemma TestUriSplits()
    ensures UriPaths.Basename("file:///a/b.c") == "b.c"
    ensures UriPaths.Dirname("file:///a/b.c") == "file:///a"
  {
    assert "file:///a" + "/" + "b.c" == "file:///a/b.c";
    UriPaths.SplitAtLastSlash("file:///a", "b.c");
  }

  /** The extension of `file:///a/b.c` is `.c`. */
  lemma TestUriExtension()
    ensures UriPaths.Extname("file:///a/b.c") == ".c"
  {
    TestUriSplits();
    assert "b.c"[1] == '.' && '.' !in "b.c"[2..];
  }

  /** `resource.uri`, `resource.language` and `resource.type` of the test editor. */
  lemma ProvidesResourceUriLanguageType()
    ensures GetComputedContextProperty(TestModel, EmptySettings, map[], "resource.uri") == Str("file:///a/b.c")
    ensures GetComputedContextProperty(TestModel, EmptySettings, map[], "resource.language") == Str("l")
    ensures GetComputedContextProperty(TestModel, EmptySettings, map[], "resource.type") == Str("textDocument")
  {
    assert Render(Resource(Uri)) == "resource.uri";
    assert Render(Resource(Language)) == "resource.language";
    assert Render(Resource(DocumentType)) == "resource.type";
    ResourceUriLanguageType(TestModel, EmptySettings, map[]);
  }

  /** `resource.basename`, `resource.dirname` and `resource.extname` of `file:///a/b.c`. */
  lemma ProvidesResourcePathFields()
    ensures GetComputedContextProperty(TestModel, EmptySettings, map[], "resource.basename") == Str("b.c")
    ensures GetComputedContextProperty(TestModel, EmptySettings, map[], "resource.dirname") == Str("file:///a")
    ensures GetComputedContextProperty(TestModel, EmptySettings, map[], "resource.extname") == Str(".c")
  {
    assert Render(Resource(BasenameField)) == "resource.basename";
    assert Render(Resource(DirnameField)) == "resource.dirname";
    assert Render(Resource(ExtnameField)) == "resource.extname";
    ResourcePathFields(TestModel, EmptySettings, map[]);
    TestUriSplits();
    TestUriExtension();
  }

  /** Without a component, `resource.uri` and `component.type` are `null`. */
  lemma NullWithoutComponent()
    ensures GetComputedContextProperty(EmptyModel, EmptySettings, map[], "resource.uri") == Null
    ensures GetComputedContextProperty(EmptyModel, EmptySettings, map[], "component.type") == Null
  {
    NoComponentMeansNull(EmptyModel, EmptySettings, map[], ResourceFieldName(Uri));
    NoComponentMeansNull(EmptyModel, EmptySettings, map[], ComponentFieldName(ComponentType));
  }

  /** `component.type` is "textEditor" and `component.selections` the one selection. */
  lemma ProvidesComponentTypeAndSelections()
    ensures GetComputedContextProperty(TestModel, EmptySettings, map[], "component.type") == Str("textEditor")
    ensures GetComputedContextProperty(TestModel, EmptySettings, map[], "component.selections") == SelList([TestSelection])
  {
    assert Render(Component(ComponentType)) == "component.type";
    assert Render(Component(Selections)) == "component.selections";
    ComponentTypeAndSelections(TestModel, EmptySettings, map[]);
  }

  /**
   * The primary selection (1,2)-(3,4), its endpoints and their numbers. The
   * expressions are written through `Render`: `ComponentFieldName` spells them
   * `component.selection`, `component.selection.start`, … ,
   * `component.selection.end.character`.
   */
  lemma ProvidesPrimarySelection()
    ensures GetComputedContextProperty(TestModel, EmptySettings, map[], Render(Component(PrimarySelection(Whole)))) == Sel(TestSelection)
    ensures GetComputedContextProperty(TestModel, EmptySettings, map[], Render(Component(PrimarySelection(At(Start))))) == Pos(Position(1, 2))
    ensures GetComputedContextProperty(TestModel, EmptySettings, map[], Render(Component(PrimarySelection(At(End))))) == Pos(Position(3, 4))
    ensures GetComputedContextProperty(TestModel, EmptySettings, map[], Render(Component(PrimarySelection(Leaf(Start, Line))))) == Num(1)
    ensures GetComputedContextProperty(TestModel, EmptySettings, map[], Render(Component(PrimarySelection(Leaf(Start, Character))))) == Num(2)
    ensures GetComputedContextProperty(TestModel, EmptySettings, map[], Render(Component(PrimarySelection(Leaf(End, Line))))) == Num(3)
    ensures GetComputedContextProperty(TestModel, EmptySettings, map[], Render(Component(PrimarySelection(Leaf(End, Character))))) == Num(4)
  {
    PrimarySelectionField(TestModel, EmptySettings, map[], Whole);
    PrimarySelectionField(TestModel, EmptySettings, map[], At(Start));
    PrimarySelectionField(TestModel, EmptySettings, map[], At(End));
    PrimarySelectionField(TestModel, EmptySettings, map[], Leaf(Start, Line));
    PrimarySelectionField(TestModel, EmptySettings, map[], Leaf(Start, Character));
    PrimarySelectionField(TestModel, EmptySettings, map[], Leaf(End, Line));
    PrimarySelectionField(TestModel, EmptySettings, map[], Leaf(End, Character));
  }

  /**
   * The seven selection expressions of the previous lemma are `null` for an
   * editor with no selection and for a model with no component.
   */
  lemma NullWithoutSelection(model: Model)
    requires model == NoSelectionModel || model == EmptyModel
    ensures GetComputedContextProperty(model, EmptySettings, map[], Render(Component(PrimarySelection(Whole)))) == Null
    ensures GetComputedContextProperty(model, EmptySettings, map[], Render(Component(PrimarySelection(At(Start))))) == Null
    ensures GetComputedContextProperty(model, EmptySettings, map[], Render(Component(PrimarySelection(At(End))))) == Null
    ensures GetComputedContextProperty(model, EmptySettings, map[], Render(Component(PrimarySelection(Leaf(Start, Line))))) == Null
    ensures GetComputedContextProperty(model, EmptySettings, map[], Render(Component(PrimarySelection(Leaf(Start, Character))))) == Null
    ensures GetComputedContextProperty(model, EmptySettings, map[], Render(Component(PrimarySelection(Leaf(End, Line))))) == Null
    ensures GetComputedContextProperty(model, EmptySettings, map[], Render(Component(PrimarySelection(Leaf(End, Character))))) == Null
  {
    NoSelectionMeansNull(model, EmptySettings, map[], Whole);
    NoSelectionMeansNull(model, EmptySettings, map[], At(Start));
    NoSelectionMeansNull(model, EmptySettings, map[], At(End));
    NoSelectionMeansNull(model, EmptySettings, map[], Leaf(Start, Line));
    NoSelectionMeansNull(model, EmptySettings, map[], Leaf(Start, Character));
    NoSelectionMeansNull(model, EmptySettings, map[], Leaf(End, Line));
    NoSelectionMeansNull(model, EmptySettings, map[], Leaf(End, Character));
  }

  /** `get(component.selections, 1)` is no property of its own: a plain key, missing, so `undefined`. */
  lemma OutOfBoundsSelectionIsUndefined()
    ensures GetComputedContextProperty(TestModel, EmptySettings, map[], "get(component.selections, 1)") == Undefined
  {
    var expr := "get(component.selections, 1)";
    assert expr[0] == 'g';
    PlainExpressionIsLookup(TestModel, EmptySettings, map[], expr);
  }

  /** Any other expression reads the context map: `x` is 1, the missing `y` is `undefined`. */
  lemma FallsBackToContext()
    ensures GetComputedContextProperty(EmptyModel, EmptySettings, map["x" := Num(1)], "x") == Num(1)
    ensures GetComputedContextProperty(EmptyModel, EmptySettings, map[], "y") == Undefined
  {
    PlainExpressionIsLookup(EmptyModel, EmptySettings, map["x" := Num(1)], "x");
    PlainExpressionIsLookup(EmptyModel, EmptySettings, map[], "y");
  }
}
