/**
 * The plugin entry point (src/plugin.ts): it merges the caller's options
 * over the defaults and rewrites the Payload configuration so that every
 * targeted collection gets the four endpoints, the list-view generator and
 * a generate button after its alt-text field. Everything is a value: the
 * source builds new records with spreads and `map` and mutates nothing.
 *
 * Record keys the plugin only copies (a field's type and validation, a
 * collection's hooks, the rest of the configuration) are folded into one
 * opaque `other` value per record.
 */
module Plugin {
  import opened Common

  /** `AltTextGeneratorPluginOptions`: every key may be left out. */
  datatype UserOptions = UserOptions(
    collections: Option<seq<string>>,
    prompt: Option<string>,
    maxLength: Option<nat>,
    batchSize: Option<nat>,
    model: Option<string>,
    altFieldName: Option<string>,
    language: Option<string>,
    provider: Option<ProviderConfig>)

  /** The call `altTextGeneratorPlugin()` with no options. */
  const NoOptions := UserOptions(None, None, None, None, None, None, None, None)

  /**
   * The default prompt's literal text, between its placeholders: it asks
   * for the language twice, quotes the filename, and gives the length limit
   * before the closing rules. Each rule line of the template is one
   * constant, written as a few phrases; a line holding a placeholder is cut
   * at the placeholder.
   */
  const PromptIntro: string := "Generate a short alt text " + "for this image IN "
  const PromptNameLead: string := ". The filename is \""
  const PromptRulesLead: string := "\".\n" + "\n" + "Rules:\n" + "- Write in "
  const PromptLengthLead: string := "\n" + "- Keep it short: aim for 5-10 words, max "
  const RuleLogos: string :=
    "- For logos: just use the " + "company/brand name followed by " + "\"logo\" (e.g. \"Rivas Zorggroep logo\")\n"
  const RuleIcons: string := "- For icons or decorative images: " + "say \"decorative\"\n"
  const RulePhotos: string := "- For photos: " + "briefly describe the key subject\n"
  const RuleOpening: string :=
    "- Don't start with " + "\"Image of\", \"Photo of\", \"Picture of\" " + "or translations thereof\n"
  const RuleFilename: string :=
    "- The filename often contains " + "the subject \U{2014} use it as a strong hint\n"
  const PromptClosing: string := "\n" + "Respond with ONLY the alt text, " + "nothing else."
  const PromptRules: string :=
    " characters\n" + RuleLogos + RuleIcons + RulePhotos + RuleOpening + RuleFilename + PromptClosing

  /** The default prompt, with its three placeholders. */
  const DefaultPrompt: string :=
    PromptIntro + "{language}" + PromptNameLead + "{filename}" + PromptRulesLead + "{language}"
    + PromptLengthLead + "{maxLength}" + PromptRules


  /** The literal text of the default prompt holds no '{', so only its three placeholders are filled. */
  lemma PromptPartsPlain()
    ensures '{' !in PromptIntro && '{' !in PromptNameLead && '{' !in PromptRulesLead
    ensures '{' !in PromptLengthLead && '{' !in PromptRules
  {
    PromptLeadsPlain();
    PromptRulesPlain();
  }

  lemma PromptLeadsPlain()
    ensures '{' !in PromptIntro && '{' !in PromptNameLead && '{' !in PromptRulesLead && '{' !in PromptLengthLead
  {
    PromptIntroPlain();
    PromptLengthLeadPlain();
  }

  lemma PromptIntroPlain() ensures '{' !in PromptIntro { }
  lemma PromptLengthLeadPlain() ensures '{' !in PromptLengthLead { }

  lemma PromptRulesPlain()
    ensures '{' !in PromptRules
  {
    RuleLogosPlain();
    RuleIconsPlain();
    RulePhotosPlain();
    RuleOpeningPlain();
    RuleFilenamePlain();
    PromptClosingPlain();
  }

  lemma RuleLogosPlain() ensures '{' !in RuleLogos { }
  lemma RuleIconsPlain() ensures '{' !in RuleIcons { }
  lemma RulePhotosPlain() ensures '{' !in RulePhotos { }
  lemma RuleOpeningPlain() ensures '{' !in RuleOpening { }
  lemma RuleFilenamePlain() ensures '{' !in RuleFilename { }
  lemma PromptClosingPlain() ensures '{' !in PromptClosing { }

  /** `defaultOptions`; the defaults name no provider. */
  const DefaultOptions := PluginOptions(
    ["media"], DefaultPrompt, 80, 5, "claude-sonnet-4-20250514", "alt", "English", None)

  /** `{ ...defaultOptions, ...pluginOptions }`: each key the caller gives wins. */
  function Merge(user: UserOptions): (o: PluginOptions)
    ensures user.collections.Some? ==> o.collections == user.collections.value
    ensures user.collections.None? ==> o.collections == ["media"]
    ensures user.prompt.Some? ==> o.prompt == user.prompt.value
    ensures user.prompt.None? ==> o.prompt == DefaultPrompt
    ensures user.maxLength.Some? ==> o.maxLength == user.maxLength.value
    ensures user.maxLength.None? ==> o.maxLength == 80
    ensures user.batchSize.Some? ==> o.batchSize == user.batchSize.value
    ensures user.batchSize.None? ==> o.batchSize == 5
    ensures user.model.Some? ==> o.model == user.model.value
    ensures user.model.None? ==> o.model == "claude-sonnet-4-20250514"
    ensures user.altFieldName.Some? ==> o.altFieldName == user.altFieldName.value
    ensures user.altFieldName.None? ==> o.altFieldName == "alt"
    ensures user.language.Some? ==> o.language == user.language.value
    ensures user.language.None? ==> o.language == "English"
    ensures o.provider == user.provider
  {
    PluginOptions(
      GetOr(user.collections, DefaultOptions.collections),
      GetOr(user.prompt, DefaultOptions.prompt),
      GetOr(user.maxLength, DefaultOptions.maxLength),
      GetOr(user.batchSize, DefaultOptions.batchSize),
      GetOr(user.model, DefaultOptions.model),
      GetOr(user.altFieldName, DefaultOptions.altFieldName),
      GetOr(user.language, DefaultOptions.language),
      user.provider)
  }

  /** Without options the plugin runs on the defaults, and a caller who repeats every default changes nothing. */
  lemma NoOptionsGiveDefaults()
    ensures Merge(NoOptions) == DefaultOptions
    ensures var d := DefaultOptions;
      Merge(UserOptions(Some(d.collections), Some(d.prompt), Some(d.maxLength), Some(d.batchSize),
                        Some(d.model), Some(d.altFieldName), Some(d.language), None)) == d
  {
  }

  /** An admin component reference: its import path and the props the client receives. */
  datatype Component =
    | GenerateAltButton(collectionSlug: string, altFieldName: string)
    | AltTextGenerator(collectionSlug: string, batchSize: nat, altFieldName: string)
    | OtherComponent(path: string)
  {
    function Path(): string
    {
      match this
      case GenerateAltButton(_, _) => "payload-alt-text-generator/components#GenerateAltButton"
      case AltTextGenerator(_, _, _) => "payload-alt-text-generator/components#AltTextGenerator"
      case OtherComponent(p) => p
    }
  }

  /** `admin.components.afterInput` of a field: left out, a list, or some other value. */
  datatype AfterInput = NoAfterInput | AfterList(items: seq<Component>) | NotAList(value: string)

  /** A field; layout fields (rows, tabs) carry no `name`. */
  datatype Field = Field(name: Option<string>, afterInput: AfterInput, other: string)

  /** What a collection endpoint's handler was built from. */
  datatype Handler =
    | GetMissingAlt(options: PluginOptions)
    | GenerateAlt(options: PluginOptions)
    | SaveAlt(options: PluginOptions)
    | SaveBulkAlt(options: PluginOptions)
    | OtherHandler(name: string)

  datatype HttpMethod = Get | Post

  datatype Endpoint = Endpoint(path: string, verb: HttpMethod, handler: Handler)

  datatype Collection = Collection(
    slug: string,
    fields: Option<seq<Field>>,
    endpoints: Option<seq<Endpoint>>,
    beforeListTable: Option<seq<Component>>,
    other: string)

  datatype Config = Config(collections: Option<seq<Collection>>, other: string)

  /** `xs || []` for an optional list. */
  function OrEmpty<T>(xs: Option<seq<T>>): seq<T>
  {
    GetOr(xs, [])
  }

  /** The list a field's new `afterInput` starts from: its own when that is an array, else none. */
  function ExistingAfterInput(a: AfterInput): (r: seq<Component>)
    ensures a.AfterList? ==> r == a.items
    ensures !a.AfterList? ==> r == []
  {
    if a.AfterList? then a.items else []
  }

  /** Whether the plugin rewrites this field: it must have a name, equal to `altFieldName`. */
  predicate IsAltField(f: Field, options: PluginOptions)
  {
    f.name == Some(options.altFieldName)
  }

  /** The field rewrite of src/plugin.ts: the alt field gains a generate button after its input. */
  function AddButton(f: Field, slug: string, options: PluginOptions): (r: Field)
    ensures r.name == f.name && r.other == f.other
    ensures !IsAltField(f, options) ==> r == f
    ensures IsAltField(f, options) ==>
      r.afterInput == AfterList(ExistingAfterInput(f.afterInput) + [GenerateAltButton(slug, options.altFieldName)])
  {
    if f.name.None? || f.name.value != options.altFieldName then f
    else f.(afterInput := AfterList(ExistingAfterInput(f.afterInput) + [GenerateAltButton(slug, options.altFieldName)]))
  }

  /** The endpoints appended to a targeted collection, each handler built from the merged options. */
  function PluginEndpoints(options: PluginOptions): (r: seq<Endpoint>)
    ensures |r| == 4
    ensures forall i :: 0 <= i < 4 ==> !r[i].handler.OtherHandler? && r[i].handler.options == options
    ensures r[0].path == "/missing-alt" && r[0].verb == Get && r[0].handler.GetMissingAlt?
    ensures r[1].path == "/generate-alt" && r[1].verb == Post && r[1].handler.GenerateAlt?
    ensures r[2].path == "/save-alt" && r[2].verb == Post && r[2].handler.SaveAlt?
    ensures r[3].path == "/save-bulk-alt" && r[3].verb == Post && r[3].handler.SaveBulkAlt?
  {
    [ Endpoint("/missing-alt", Get, GetMissingAlt(options)),
      Endpoint("/generate-alt", Post, GenerateAlt(options)),
      Endpoint("/save-alt", Post, SaveAlt(options)),
      Endpoint("/save-bulk-alt", Post, SaveBulkAlt(options)) ]
  }

  /** `(collection.fields || []).map(...)` */
  function AddButtons(fields: seq<Field>, slug: string, options: PluginOptions): (r: seq<Field>)
    ensures |r| == |fields|
    ensures forall i :: 0 <= i < |fields| ==> r[i] == AddButton(fields[i], slug, options)
  {
    seq(|fields|, i requires 0 <= i < |fields| => AddButton(fields[i], slug, options))
  }

  /** The collection rewrite: untargeted collections pass through, targeted ones gain the plugin's parts. */
  function Extend(c: Collection, options: PluginOptions): (r: Collection)
    ensures r.slug == c.slug && r.other == c.other
    ensures c.slug !in options.collections ==> r == c
    ensures c.slug in options.collections ==>
      && r.fields == Some(AddButtons(OrEmpty(c.fields), c.slug, options))
      && r.endpoints == Some(OrEmpty(c.endpoints) + PluginEndpoints(options))
      && r.beforeListTable == Some(OrEmpty(c.beforeListTable)
                                   + [AltTextGenerator(c.slug, options.batchSize, options.altFieldName)])
  {
    if c.slug !in options.collections then c
    else c.(fields := Some(AddButtons(OrEmpty(c.fields), c.slug, options)),
            endpoints := Some(OrEmpty(c.endpoints) + PluginEndpoints(options)),
            beforeListTable := Some(OrEmpty(c.beforeListTable)
                                    + [AltTextGenerator(c.slug, options.batchSize, options.altFieldName)]))
  }

  /** `altTextGeneratorPlugin(pluginOptions)(incomingConfig)` */
  function ApplyPlugin(user: UserOptions, config: Config): (r: Config)
    ensures r.other == config.other
    ensures r.collections.Some? && |r.collections.value| == |OrEmpty(config.collections)|
    ensures forall i :: 0 <= i < |r.collections.value| ==>
      r.collections.value[i] == Extend(OrEmpty(config.collections)[i], Merge(user))
  {
    var cs := OrEmpty(config.collections);
    var options := Merge(user);
    Config(Some(seq(|cs|, i requires 0 <= i < |cs| => Extend(cs[i], options))), config.other)
  }

  /** The output lists the same collections, in the same order; those not targeted are returned as they were. */
  lemma CollectionsKeptInOrder(user: UserOptions, config: Config, i: nat)
    requires i < |OrEmpty(config.collections)|
    ensures var c := OrEmpty(config.collections)[i];
      var r := ApplyPlugin(user, config).collections.value[i];
      && r.slug == c.slug
      && (c.slug !in Merge(user).collections ==> r == c)
  {
  }

  /** With no options, exactly the `media` collection is rewritten. */
  lemma DefaultTargetsMedia(config: Config, i: nat)
    requires i < |OrEmpty(config.collections)|
    ensures var c := OrEmpty(config.collections)[i];
      ApplyPlugin(NoOptions, config).collections.value[i] != c <==> c.slug == "media"
  {
    var c := OrEmpty(config.collections)[i];
    var r := ApplyPlugin(NoOptions, config).collections.value[i];
    if c.slug == "media" {
      assert |r.endpoints.value| == |OrEmpty(c.endpoints)| + 4;
      assert r.endpoints != c.endpoints;
    }
  }

  /**
   * In a targeted collection the fields keep their order and count, a field
   * changes exactly when its name is the alt field name, and that field's
   * afterInput keeps what it listed and ends with one generate button.
   */
  lemma OnlyAltFieldGetsButton(user: UserOptions, config: Config, i: nat, j: nat)
    requires i < |OrEmpty(config.collections)|
    requires OrEmpty(config.collections)[i].slug in Merge(user).collections
    requires j < |OrEmpty(OrEmpty(config.collections)[i].fields)|
    ensures var c := OrEmpty(config.collections)[i];
      var f := OrEmpty(c.fields)[j];
      var r := ApplyPlugin(user, config).collections.value[i];
      && |r.fields.value| == |OrEmpty(c.fields)|
      && (r.fields.value[j] != f <==> f.name == Some(Merge(user).altFieldName))
      && (f.name == Some(Merge(user).altFieldName) ==>
            var kept := ExistingAfterInput(f.afterInput);
            && r.fields.value[j].afterInput.AfterList?
            && |r.fields.value[j].afterInput.items| == |kept| + 1
            && r.fields.value[j].afterInput.items[..|kept|] == kept
            && r.fields.value[j].afterInput.items[|kept|] == GenerateAltButton(c.slug, Merge(user).altFieldName))
  {
    var c := OrEmpty(config.collections)[i];
    var f := OrEmpty(c.fields)[j];
    var o := Merge(user);
    var g := AddButton(f, c.slug, o);
    if IsAltField(f, o) {
      assert g.afterInput != f.afterInput by {
        if f.afterInput.AfterList? {
          assert |g.afterInput.items| == |f.afterInput.items| + 1;
        }
      }
    }
  }

  /**
   * A targeted collection keeps its endpoints and list components first and
   * ends with the four plugin endpoints and the generator, whose props carry
   * the merged batch size and alt field name.
   */
  lemma TargetedCollectionAppends(user: UserOptions, config: Config, i: nat)
    requires i < |OrEmpty(config.collections)|
    requires OrEmpty(config.collections)[i].slug in Merge(user).collections
    ensures var c := OrEmpty(config.collections)[i];
      var r := ApplyPlugin(user, config).collections.value[i];
      var n := |OrEmpty(c.endpoints)|;
      var m := |OrEmpty(c.beforeListTable)|;
      && |r.endpoints.value| == n + 4
      && r.endpoints.value[..n] == OrEmpty(c.endpoints)
      && r.endpoints.value[n..] == PluginEndpoints(Merge(user))
      && |r.beforeListTable.value| == m + 1
      && r.beforeListTable.value[..m] == OrEmpty(c.beforeListTable)
      && r.beforeListTable.value[m].batchSize == Merge(user).batchSize
      && r.beforeListTable.value[m].altFieldName == Merge(user).altFieldName
      && r.beforeListTable.value[m].collectionSlug == c.slug
  {
    var c := OrEmpty(config.collections)[i];
    var r := ApplyPlugin(user, config).collections.value[i];
    assert r == Extend(c, Merge(user));
  }
}
