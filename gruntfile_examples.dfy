/**
 Concrete inputs taken from the project's own Gruntfile (the `assemble` and
 `assemble-regression` task blocks), run through the option normalisation.
 */
module GruntfileExamples {
  import opened JsValues
  import opened LodashUnion
  import opened AssembleTask

  /** Task-level options of `assemble-regression`. */
  function RegressionTaskOptions(): map<string, Value>
  {
    map[
      "assets" := Single(Str("test/assets")),
      "helpers" := List([Str("test/helpers/*.js")]),
      "layoutdir" := Single(Str("test/fixtures/layouts")),
      "layout" := Single(Str("default.hbs")),
      "flatten" := Single(Bool(true))
    ]
  }

  /** Target-level options of `assemble-regression:custom_helpers`. */
  function CustomHelpersTargetOptions(): map<string, Value>
  {
    map["helpers" := List([Str("test/helpers/*.js")])]
  }

  /** Target-level options of `assemble-regression:nested_layouts`. */
  function NestedLayoutsTargetOptions(): map<string, Value>
  {
    map[
      "partials" := Single(Str("test/fixtures/partials/*.hbs")),
      "data" := Single(Str("test/fixtures/data/*.{json,yml}")),
      "layout" := Single(Str("one.hbs"))
    ]
  }

  /** The same helpers glob at task and at target level is merged into one entry. */
  lemma CustomHelpersMergedOnce()
    ensures MergeOptions("helpers", RegressionTaskOptions(), CustomHelpersTargetOptions()) == [Str("test/helpers/*.js")]
  {
    MergeOptionsSameListBothLevels("helpers", RegressionTaskOptions(), CustomHelpersTargetOptions(), [Str("test/helpers/*.js")]);
  }

  /** Options of `assemble-regression:nested_layouts`: the target's options over the task's. */
  function NestedLayoutsOptions(): map<string, Value>
  {
    RegressionTaskOptions() + NestedLayoutsTargetOptions()
  }

  /** `nested_layouts`: `partials` given as one string becomes a one-element array. */
  lemma NestedLayoutsPartials()
    ensures NormalizeOptions(NestedLayoutsOptions(), RegressionTaskOptions(), NestedLayoutsTargetOptions())["partials"]
            == List([Str("test/fixtures/partials/*.hbs")])
  {
    var task := RegressionTaskOptions();
    var target := NestedLayoutsTargetOptions();
    assert "partials" in NestedLayoutsOptions();
    assert LevelElems(task, "partials") + LevelElems(target, "partials") == [Str("test/fixtures/partials/*.hbs")];
    DedupOfDistinct([Str("test/fixtures/partials/*.hbs")]);
  }

  /** `nested_layouts`: the helpers array given only at task level is kept. */
  lemma NestedLayoutsHelpers()
    ensures NormalizeOptions(NestedLayoutsOptions(), RegressionTaskOptions(), NestedLayoutsTargetOptions())["helpers"]
            == List([Str("test/helpers/*.js")])
  {
    var task := RegressionTaskOptions();
    var target := NestedLayoutsTargetOptions();
    assert NestedLayoutsOptions()["helpers"] == List([Str("test/helpers/*.js")]);
    assert LevelElems(task, "helpers") + LevelElems(target, "helpers") == [Str("test/helpers/*.js")];
    DedupOfDistinct([Str("test/helpers/*.js")]);
  }

  /**
   `nested_layouts`: the scalar `layout` and `flatten` of the merged options
   pass through. Which `layout` is merged in comes from `NestedLayoutsOptions`,
   built here with the target's options over the task's.
   */
  lemma NestedLayoutsPlainValues()
    ensures var r := NormalizeOptions(NestedLayoutsOptions(), RegressionTaskOptions(), NestedLayoutsTargetOptions());
            && r["layout"] == Single(Str("one.hbs"))
            && r["flatten"] == Single(Bool(true))
  {
    var options := NestedLayoutsOptions();
    assert options["layout"] == Single(Str("one.hbs"));
    assert options["flatten"] == Single(Bool(true));
  }

  /** `baz`: `partials` given as an array at target level only is kept as that array. */
  lemma BazPartialsKept()
    ensures var task := map["taskOpts" := Single(Str("something")), "layoutdir" := Single(Str("test/fixtures/layouts"))];
            var target := map["targetOpts" := Single(Str("baz")), "partials" := List([Str("test/fixtures/partials/**/*.hbs")])];
            NormalizeOptions(task + target, task, target)["partials"] == List([Str("test/fixtures/partials/**/*.hbs")])
  {
    var task := map["taskOpts" := Single(Str("something")), "layoutdir" := Single(Str("test/fixtures/layouts"))];
    var target := map["targetOpts" := Single(Str("baz")), "partials" := List([Str("test/fixtures/partials/**/*.hbs")])];
    var xs := [Str("test/fixtures/partials/**/*.hbs")];
    assert LevelElems(task, "partials") + LevelElems(target, "partials") == xs;
    DedupOfDistinct(xs);
  }

  /** `assets_blank_path`: an empty-string `assets` overrides the task's and passes through as it is. */
  lemma BlankAssetsPassThrough()
    ensures var target := map["assets" := Single(Str("")), "assets_blank_path" := Single(Bool(true))];
            NormalizeOptions(RegressionTaskOptions() + target, RegressionTaskOptions(), target)["assets"] == Single(Str(""))
  {
  }

  /**
   `collections_desc`: the three collection objects given at target level are
   all kept, in order. The Gruntfile sets `collections` at target level only;
   the task-level `pagesAgain`, with the same properties as `pages` and another
   identity, is added here to show that it is not a repeat of `pages`.
   */
  lemma CollectionsKeptByIdentity()
    ensures var pages := Obj(1, map["name" := Str("pages"), "inflection" := Str("page"), "sortorder" := Str("DESC")]);
            var tags := Obj(2, map["name" := Str("tags"), "inflection" := Str("tag"), "sortorder" := Str("DESC")]);
            var categories := Obj(3, map["name" := Str("categories"), "inflection" := Str("category"), "sortorder" := Str("DESC")]);
            var pagesAgain := Obj(4, pages.props);
            var task := map["collections" := List([pagesAgain])];
            var target := map["collections" := List([pages, tags, categories])];
            MergeOptions("collections", task, target) == [pagesAgain, pages, tags, categories]
  {
    var pages := Obj(1, map["name" := Str("pages"), "inflection" := Str("page"), "sortorder" := Str("DESC")]);
    var tags := Obj(2, map["name" := Str("tags"), "inflection" := Str("tag"), "sortorder" := Str("DESC")]);
    var categories := Obj(3, map["name" := Str("categories"), "inflection" := Str("category"), "sortorder" := Str("DESC")]);
    var pagesAgain := Obj(4, pages.props);
    var all := [pagesAgain, pages, tags, categories];
    var task := map["collections" := List([pagesAgain])];
    var target := map["collections" := List([pages, tags, categories])];
    assert LevelElems(task, "collections") + LevelElems(target, "collections") == all;
    DedupOfDistinct(all);
  }
}
