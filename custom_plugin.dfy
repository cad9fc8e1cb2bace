/** org.mybatis.generator.plugins.custom.CustomPlugin: a generator plugin that
    puts Lombok and Swagger annotations on generated model classes, gives
    every model field a javadoc comment built from its column's metadata, and
    adds an insertBatch default method to dynamic-SQL client interfaces.

    The plugin's properties are Option<string> values (None for a property
    that is not set). The pure parts of the hooks are functions of those
    values; the hooks themselves are methods of the CustomPlugin class that
    change the host's objects. */
module PluginsCustom {
  import opened JavaLang
  import opened Dom
  import opened Registry
  import PluginsEnums
  import opened Directives

  // ---------------------------------------------------------------------
  // Toggles

  /** enableLombok: directives are configured unless customLombok is null or
      the empty string. */
  predicate EnableLombok(customLombok: Option<string>) {
    customLombok.Some? && |customLombok.value| != 0
  }

  /** enableSwagger: "true".equalsIgnoreCase(needSwagger), that is, some
      spelling of "true" in upper and lower case; off when unset. */
  predicate EnableSwagger(needSwagger: Option<string>): (r: bool)
    ensures r <==> IsTrueSpelling(needSwagger)
  {
    IsTrueIgnoreCaseIff(needSwagger);
    IsTrueIgnoreCase(needSwagger)
  }

  /** enableInsertBatch: "true".equalsIgnoreCase(needInsertBatch). */
  predicate EnableInsertBatch(needInsertBatch: Option<string>): (r: bool)
    ensures r <==> IsTrueSpelling(needInsertBatch)
  {
    IsTrueIgnoreCaseIff(needInsertBatch);
    IsTrueIgnoreCase(needInsertBatch)
  }

  /** enableInsertMulti: "true".equalsIgnoreCase(needInsertMulti). */
  predicate EnableInsertMulti(needInsertMulti: Option<string>): (r: bool)
    ensures r <==> IsTrueSpelling(needInsertMulti)
  {
    IsTrueIgnoreCaseIff(needInsertMulti);
    IsTrueIgnoreCase(needInsertMulti)
  }

  /** An unset boolean property is off. */
  lemma TogglesOffWhenUnset()
    ensures !EnableSwagger(None) && !EnableInsertBatch(None) && !EnableInsertMulti(None)
  {
  }

  // ---------------------------------------------------------------------
  // Accessor hooks

  /** modelGetterMethodGenerated: enableLombok() and the directive string
      mentions neither "@Data" nor "@Getter". The host keeps a field's getter
      exactly when directives are configured and no directive token
      mentions either word; with no directives it returns false. */
  predicate ModelGetterMethodGenerated(customLombok: Option<string>): (r: bool)
    ensures !EnableLombok(customLombok) ==> !r
    ensures EnableLombok(customLombok) ==>
              (r <==> forall t :: t in Split(customLombok.value, ',') ==> !Contains(t, "@Data") && !Contains(t, "@Getter"))
  {
    if !EnableLombok(customLombok) then false
    else
      ContainsIffSomeToken(customLombok.value, "@Data", ',');
      ContainsIffSomeToken(customLombok.value, "@Getter", ',');
      !(Contains(customLombok.value, "@Data") || Contains(customLombok.value, "@Getter"))
  }

  /** modelSetterMethodGenerated: the same test with "@Setter". */
  predicate ModelSetterMethodGenerated(customLombok: Option<string>): (r: bool)
    ensures !EnableLombok(customLombok) ==> !r
    ensures EnableLombok(customLombok) ==>
              (r <==> forall t :: t in Split(customLombok.value, ',') ==> !Contains(t, "@Data") && !Contains(t, "@Setter"))
  {
    if !EnableLombok(customLombok) then false
    else
      ContainsIffSomeToken(customLombok.value, "@Data", ',');
      ContainsIffSomeToken(customLombok.value, "@Setter", ',');
      !(Contains(customLombok.value, "@Data") || Contains(customLombok.value, "@Setter"))
  }

  // ---------------------------------------------------------------------
  // Lombok directives

  /** The import of a token in the registry path: its registry package on a
      hit, "lombok." + token.substring(1) on a miss. */
  function RegistryImport(token: string, registry: map<string, string>): string
    requires token in registry || token != []
  {
    if token in registry then registry[token] else FallbackImport(token)
  }

  /** One token of the registry path; a missing empty token makes
      substring(1) throw StringIndexOutOfBoundsException. */
  function RegistryResolution(token: string, registry: map<string, string>): Resolution {
    if token !in registry && token == [] then Throws(token, StringIndexOutOfBounds)
    else Resolved(token, RegistryImport(token, registry))
  }

  function ResolveByRegistry(tokens: seq<string>, registry: map<string, string>): (r: seq<Resolution>)
    ensures |r| == |tokens|
  {
    seq(|tokens|, i requires 0 <= i < |tokens| => RegistryResolution(tokens[i], registry))
  }

  /** The enum constants addAnnotation is given when nothing is configured. */
  const DefaultBundle: seq<Entry> :=
    [PluginsEnums.Data, PluginsEnums.NoArgsConstructor, PluginsEnums.AllArgsConstructor, PluginsEnums.Builder]

  /** Enum constants as already resolved directives. */
  function EntryResolutions(es: seq<Entry>): (r: seq<Resolution>)
    ensures |r| == |es|
  {
    seq(|es|, i requires 0 <= i < |es| => Resolved(es[i].annotation, es[i].pkg))
  }

  /** The directives addLombokToTopLevelClass applies, one per token, in the
      path the configuration selects. */
  function LombokResolutions(customLombok: Option<string>, lombokPackage: Option<string>,
                             registry: map<string, string>): seq<Resolution>
  {
    if !EnableLombok(customLombok) then EntryResolutions(DefaultBundle)
    else
      var tokens := Split(customLombok.value, ',');
      if lombokPackage.None? || |lombokPackage.value| == 0 then ResolveByRegistry(tokens, registry)
      else ResolveByPosition(tokens, Split(lombokPackage.value, ','))
  }

  /** What addLombokToTopLevelClass does to a class. */
  function LombokEffect(customLombok: Option<string>, lombokPackage: Option<string>,
                        registry: map<string, string>): Effect
  {
    Apply(LombokResolutions(customLombok, lombokPackage, registry))
  }

  /** addAnnotation over enum constants adds each annotation and its package
      and never throws. */
  lemma EntriesApply(es: seq<Entry>)
    ensures Apply(EntryResolutions(es)) == Effect(EntryAnnotations(es), EntryPackages(es), Normal)
  {
    var res := EntryResolutions(es);
    ApplyAllResolved(res);
    AnnotationsOfPointwise(res, EntryAnnotations(es));
    forall p | p in EntryPackages(es) ensures p in PackagesOf(res) {
      var e :| e in es && e.pkg == p;
      var i :| 0 <= i < |es| && es[i] == e;
      assert res[i].pkg == p;
    }
    assert PackagesOf(res) == EntryPackages(es);
  }

  /** Unconfigured, the class gains @Data, @NoArgsConstructor,
      @AllArgsConstructor and @Builder in that order, with their imports, and
      nothing else; lombokPackage and the registry play no part. */
  lemma UnconfiguredAddsDefaultBundle(customLombok: Option<string>, lombokPackage: Option<string>,
                                      registry: map<string, string>)
    requires !EnableLombok(customLombok)
    ensures LombokEffect(customLombok, lombokPackage, registry)
            == Effect(["@Data", "@NoArgsConstructor", "@AllArgsConstructor", "@Builder"],
                      {"lombok.Data", "lombok.NoArgsConstructor", "lombok.AllArgsConstructor", "lombok.Builder"},
                      Normal)
  {
    EntriesApply(DefaultBundle);
    DefaultBundleContents();
  }

  lemma DefaultBundleContents()
    ensures EntryAnnotations(DefaultBundle) == ["@Data", "@NoArgsConstructor", "@AllArgsConstructor", "@Builder"]
    ensures EntryPackages(DefaultBundle)
            == {"lombok.Data", "lombok.NoArgsConstructor", "lombok.AllArgsConstructor", "lombok.Builder"}
  {
    var b := DefaultBundle;
    PluginsEnums.DefaultBundleSpelling();
    assert forall e :: e in b <==> e == b[0] || e == b[1] || e == b[2] || e == b[3];
  }

  /** Registry resolution of non-empty tokens: every token is added in
      order with its registry package or its synthesised import. */
  lemma ResolveByRegistryNonEmpty(tokens: seq<string>, registry: map<string, string>)
    requires forall t :: t in tokens ==> t != []
    ensures Apply(ResolveByRegistry(tokens, registry))
            == Effect(tokens, (set t | t in tokens && t != [] :: RegistryImport(t, registry)), Normal)
  {
    var res := ResolveByRegistry(tokens, registry);
    var imports := set t | t in tokens && t != [] :: RegistryImport(t, registry);
    forall i | 0 <= i < |res| ensures tokens[i] != [] && res[i] == Resolved(tokens[i], RegistryImport(tokens[i], registry)) {
      assert tokens[i] in tokens;
    }
    ApplyAllResolved(res);
    AnnotationsOfPointwise(res, tokens);
    forall p | p in PackagesOf(res) ensures p in imports {
      var i :| 0 <= i < |res| && res[i].Resolved? && res[i].pkg == p;
      assert tokens[i] in tokens;
    }
    forall p | p in imports ensures p in PackagesOf(res) {
      var t :| t in tokens && t != [] && RegistryImport(t, registry) == p;
      var i :| 0 <= i < |tokens| && tokens[i] == t;
      assert res[i].pkg == p;
    }
    assert PackagesOf(res) == imports;
  }

  /** Registry path, every token non-empty: the annotation list grows by the
      tokens in token order, and each token brings its registry package or
      its synthesised import. */
  lemma RegistryPathAddsEveryToken(s: string, lombokPackage: Option<string>, registry: map<string, string>)
    requires s != []
    requires lombokPackage.None? || lombokPackage.value == []
    requires forall t :: t in Split(s, ',') ==> t != []
    ensures LombokEffect(Some(s), lombokPackage, registry)
            == Effect(Split(s, ','), (set t | t in Split(s, ',') && t != [] :: RegistryImport(t, registry)), Normal)
  {
    ResolveByRegistryNonEmpty(Split(s, ','), registry);
  }

  /** Registry path with an empty token that the registry does not know (as
      in ",@Data"): the tokens before it are applied, its own annotation is
      added without an import, and the hook throws
      StringIndexOutOfBoundsException. */
  lemma RegistryPathEmptyTokenThrows(s: string, lombokPackage: Option<string>, registry: map<string, string>, k: nat)
    requires s != []
    requires lombokPackage.None? || lombokPackage.value == []
    requires "" !in registry
    requires k < |Split(s, ',')| && Split(s, ',')[k] == []
    requires forall j :: 0 <= j < k ==> Split(s, ',')[j] != []
    ensures LombokEffect(Some(s), lombokPackage, registry)
            == Effect(Split(s, ',')[..k + 1],
                      (set t | t in Split(s, ',')[..k] && t != [] :: RegistryImport(t, registry)),
                      Thrown(StringIndexOutOfBounds))
  {
    ResolveByRegistryFirstEmpty(Split(s, ','), registry, k);
  }

  /** Registry resolution of tokens whose first empty one is token k. */
  lemma ResolveByRegistryFirstEmpty(tokens: seq<string>, registry: map<string, string>, k: nat)
    requires "" !in registry
    requires k < |tokens| && tokens[k] == [] && forall j :: 0 <= j < k ==> tokens[j] != []
    ensures Apply(ResolveByRegistry(tokens, registry))
            == Effect(tokens[..k + 1], (set t | t in tokens[..k] && t != [] :: RegistryImport(t, registry)),
                      Thrown(StringIndexOutOfBounds))
  {
    var res := ResolveByRegistry(tokens, registry);
    assert AllResolved(res[..k]);
    ApplyFirstThrow(res, k);
    AnnotationsOfPointwise(res[..k + 1], tokens[..k + 1]);
    var pre := tokens[..k];
    var imports := set t | t in pre && t != [] :: RegistryImport(t, registry);
    forall p | p in PackagesOf(res[..k]) ensures p in imports {
      var i :| 0 <= i < k && res[..k][i].Resolved? && res[..k][i].pkg == p;
      assert pre[i] == tokens[i];
    }
    forall p | p in imports ensures p in PackagesOf(res[..k]) {
      var t :| t in pre && t != [] && RegistryImport(t, registry) == p;
      var i :| 0 <= i < k && pre[i] == t;
      assert res[..k][i].pkg == p;
    }
    assert PackagesOf(res[..k]) == imports;
  }


  /** lombokPackage path: token i is paired with package i; extra packages
      are ignored; with too few packages the first token without one is
      still added and the hook throws ArrayIndexOutOfBoundsException. */
  lemma PackagePathPairsByPosition(s: string, p: string, registry: map<string, string>)
    requires s != [] && p != []
    ensures |Split(s, ',')| <= |Split(p, ',')| ==>
              LombokEffect(Some(s), Some(p), registry)
              == Effect(Split(s, ','), (set q | q in Split(p, ',')[..|Split(s, ',')|]), Normal)
    ensures |Split(p, ',')| < |Split(s, ',')| ==>
              LombokEffect(Some(s), Some(p), registry)
              == Effect(Split(s, ',')[..|Split(p, ',')| + 1], (set q | q in Split(p, ',')), Thrown(ArrayIndexOutOfBounds))
  {
    var tokens := Split(s, ',');
    var packages := Split(p, ',');
    if |tokens| <= |packages| {
      PositionalEnoughPackages(tokens, packages);
    } else {
      PositionalTooFewPackages(tokens, packages);
    }
  }

  /** Whenever addLombokToTopLevelClass completes, an accessor hook keeps the
      host's accessor exactly when none of the annotations the class received
      mentions "@Data" or the hook's own annotation w. */
  lemma SuppressionMatchesAnnotations(customLombok: Option<string>, lombokPackage: Option<string>,
                                      registry: map<string, string>, w: string)
    requires w == "@Getter" || w == "@Setter"
    ensures var e := LombokEffect(customLombok, lombokPackage, registry);
            e.outcome.Normal? ==>
              ((EnableLombok(customLombok) && !(Contains(customLombok.value, "@Data") || Contains(customLombok.value, w)))
               <==> forall a :: a in e.annotations ==> !Contains(a, "@Data") && !Contains(a, w))
  {
    var e := LombokEffect(customLombok, lombokPackage, registry);
    if !EnableLombok(customLombok) {
      UnconfiguredAddsDefaultBundle(customLombok, lombokPackage, registry);
      assert e.annotations[0] == "@Data";
      ContainsSelf("@Data");
      assert "@Data" in e.annotations && Contains("@Data", "@Data");
    } else if e.outcome.Normal? {
      var s := customLombok.value;
      CompletedRunAddsTokens(customLombok, lombokPackage, registry);
      ContainsIffSomeToken(s, "@Data", ',');
      ContainsIffSomeToken(s, w, ',');
    }
  }

  /** When directives are configured and the run completes, the class gains
      exactly the tokens, in order, whichever path resolved them. */
  lemma CompletedRunAddsTokens(customLombok: Option<string>, lombokPackage: Option<string>,
                               registry: map<string, string>)
    requires EnableLombok(customLombok) && LombokEffect(customLombok, lombokPackage, registry).outcome.Normal?
    ensures LombokEffect(customLombok, lombokPackage, registry).annotations == Split(customLombok.value, ',')
  {
    var tokens := Split(customLombok.value, ',');
    var res := LombokResolutions(customLombok, lombokPackage, registry);
    ApplyNormalIffAllResolved(res);
    ApplyAllResolved(res);
    AnnotationsOfPointwise(res, tokens);
  }

  /** The getter hook and the class agree: see SuppressionMatchesAnnotations. */
  lemma GetterHookMatchesClass(customLombok: Option<string>, lombokPackage: Option<string>, registry: map<string, string>)
    ensures var e := LombokEffect(customLombok, lombokPackage, registry);
            e.outcome.Normal? ==>
              (ModelGetterMethodGenerated(customLombok) <==>
                 forall a :: a in e.annotations ==> !Contains(a, "@Data") && !Contains(a, "@Getter"))
  {
    SuppressionMatchesAnnotations(customLombok, lombokPackage, registry, "@Getter");
  }

  /** The setter hook and the class agree: see SuppressionMatchesAnnotations. */
  lemma SetterHookMatchesClass(customLombok: Option<string>, lombokPackage: Option<string>, registry: map<string, string>)
    ensures var e := LombokEffect(customLombok, lombokPackage, registry);
            e.outcome.Normal? ==>
              (ModelSetterMethodGenerated(customLombok) <==>
                 forall a :: a in e.annotations ==> !Contains(a, "@Data") && !Contains(a, "@Setter"))
  {
    SuppressionMatchesAnnotations(customLombok, lombokPackage, registry, "@Setter");
  }

  // ---------------------------------------------------------------------
  // Swagger on classes

  function ApiModelAnnotation(domainObjectName: string): string {
    "@ApiModel(description = \"" + domainObjectName + "\")"
  }

  /** What addSwaggerToTopLevelClass does to a class. */
  function SwaggerEffect(needSwagger: Option<string>, domainObjectName: string): Effect {
    if EnableSwagger(needSwagger)
    then Effect([ApiModelAnnotation(domainObjectName)], {"io.swagger.annotations.ApiModel"}, Normal)
    else Effect([], {}, Normal)
  }

  /** What each of the three model class hooks does: the Lombok directives,
      then, unless those threw, the Swagger annotation. */
  function ClassHookEffect(customLombok: Option<string>, lombokPackage: Option<string>, needSwagger: Option<string>,
                           registry: map<string, string>, table: IntrospectedTable): Effect
  {
    Then(LombokEffect(customLombok, lombokPackage, registry), SwaggerEffect(needSwagger, table.domainObjectName))
  }

  /** With Swagger on and the directives applied, @ApiModel naming the domain
      object comes after every Lombok annotation and brings its import; with
      Swagger off the hook adds only the directives. */
  lemma SwaggerComesLast(customLombok: Option<string>, lombokPackage: Option<string>, needSwagger: Option<string>,
                         registry: map<string, string>, table: IntrospectedTable)
    ensures var l := LombokEffect(customLombok, lombokPackage, registry);
            var e := ClassHookEffect(customLombok, lombokPackage, needSwagger, registry, table);
            && (l.outcome.Normal? && EnableSwagger(needSwagger) ==>
                  && e.annotations == l.annotations + [ApiModelAnnotation(table.domainObjectName)]
                  && e.imports == l.imports + {"io.swagger.annotations.ApiModel"}
                  && e.outcome == Normal)
            && (!EnableSwagger(needSwagger) || l.outcome.Thrown? ==> e == l)
  {
  }

  // ---------------------------------------------------------------------
  // Field comments

  function NullabilityMarker(column: IntrospectedColumn): string {
    if column.isNullable then "(can be null)" else "(not be null)"
  }

  /** What one primary-key column adds to the remarks of column. */
  function Marker(column: IntrospectedColumn, pk: IntrospectedColumn): string {
    if column.actualColumnName == pk.actualColumnName then "Primary key" else NullabilityMarker(column)
  }

  /** The markers of the primary-key loop, one per key column in order. */
  function PkMarkers(column: IntrospectedColumn, primaryKey: seq<IntrospectedColumn>): string
    decreases |primaryKey|
  {
    if primaryKey == [] then ""
    else PkMarkers(column, primaryKey[..|primaryKey| - 1]) + Marker(column, primaryKey[|primaryKey| - 1])
  }

  function RemarksText(remarks: Option<string>): string {
    match remarks
    case None => "无描述"
    case Some(r) => ReplaceBreaksAndQuotes(r)
  }

  function DefaultValueClause(defaultValue: Option<string>): string {
    match defaultValue
    case None => " (no default value)"
    case Some(v) => "  (default value: " + v + ")"
  }

  /** The middle javadoc line addFieldComment writes for column. */
  function RemarksLine(column: IntrospectedColumn, primaryKey: seq<IntrospectedColumn>): string {
    " * 【" + RemarksText(column.remarks) + PkMarkers(column, primaryKey) + DefaultValueClause(column.defaultValue) + " 】"
  }

  function ApiModelPropertyAnnotation(fieldName: string, remarks: string): string {
    "@ApiModelProperty(name = \"" + fieldName + "\", value = \"" + remarks + "\")"
  }

  /** The StringBuilder part of addFieldComment. */
  method BuildRemarks(column: IntrospectedColumn, primaryKey: seq<IntrospectedColumn>) returns (remarks: string)
    ensures remarks == RemarksLine(column, primaryKey)
  {
    remarks := " * 【" + RemarksText(column.remarks);
    remarks := AppendPkMarkers(remarks, column, primaryKey);
    var defaultValue := column.defaultValue;
    if defaultValue.None? {
      remarks := remarks + " (no default value)";
    } else {
      ghost var body := remarks;
      remarks := remarks + "  (default value: ";
      remarks := remarks + defaultValue.value;
      remarks := remarks + ")";
      ConcatAssoc3(body, "  (default value: ", defaultValue.value, ")");
    }
    remarks := remarks + " 】";
  }

  /** The primary-key loop of addFieldComment. */
  method AppendPkMarkers(prefix: string, column: IntrospectedColumn, primaryKey: seq<IntrospectedColumn>)
    returns (remarks: string)
    ensures remarks == prefix + PkMarkers(column, primaryKey)
  {
    remarks := prefix;
    var columnName := column.actualColumnName;
    for i := 0 to |primaryKey|
      invariant remarks == prefix + PkMarkers(column, primaryKey[..i])
    {
      assert primaryKey[..i + 1][..i] == primaryKey[..i];
      var pk := primaryKey[i];
      ConcatAssoc(prefix, PkMarkers(column, primaryKey[..i]), Marker(column, pk));
      if columnName == pk.actualColumnName {
        remarks := remarks + "Primary key";
        continue;
      }
      remarks := remarks + (if column.isNullable then "(can be null)" else "(not be null)");
    }
    assert primaryKey[..|primaryKey|] == primaryKey;
  }

  /** The loop's markers for two runs of key columns are those of each run. */
  lemma {:induction false} PkMarkersAppend(column: IntrospectedColumn, a: seq<IntrospectedColumn>, b: seq<IntrospectedColumn>)
    ensures PkMarkers(column, a + b) == PkMarkers(column, a) + PkMarkers(column, b)
    decreases |b|
  {
    if b == [] {
      assert a + b == a;
    } else {
      var b' := b[..|b| - 1];
      assert (a + b)[..|a + b| - 1] == a + b';
      PkMarkersAppend(column, a, b');
      ConcatAssoc(PkMarkers(column, a), PkMarkers(column, b'), Marker(column, b[|b| - 1]));
    }
  }

  function Repeat(s: string, n: nat): string {
    if n == 0 then "" else Repeat(s, n - 1) + s
  }

  /** For a column that is not part of the key, every key column contributes
      the same nullability marker. */
  lemma {:induction false} NonKeyColumnMarkers(column: IntrospectedColumn, primaryKey: seq<IntrospectedColumn>)
    requires forall pk :: pk in primaryKey ==> pk.actualColumnName != column.actualColumnName
    ensures PkMarkers(column, primaryKey) == Repeat(NullabilityMarker(column), |primaryKey|)
    decreases |primaryKey|
  {
    if primaryKey != [] {
      var init := primaryKey[..|primaryKey| - 1];
      assert forall pk :: pk in init ==> pk in primaryKey;
      NonKeyColumnMarkers(column, init);
    }
  }

  /** For a column that is the k-th of the key columns (and matches no other),
      the markers are "Primary key" after k nullability markers and before
      the markers of the key columns that follow it. */
  lemma {:induction false} KeyColumnMarkers(column: IntrospectedColumn, primaryKey: seq<IntrospectedColumn>, k: nat)
    requires k < |primaryKey| && primaryKey[k].actualColumnName == column.actualColumnName
    requires forall j :: 0 <= j < |primaryKey| && j != k ==> primaryKey[j].actualColumnName != column.actualColumnName
    ensures PkMarkers(column, primaryKey)
            == Repeat(NullabilityMarker(column), k) + "Primary key"
               + Repeat(NullabilityMarker(column), |primaryKey| - k - 1)
  {
    var n := |primaryKey|;
    PkMarkersAround(column, primaryKey, k);
    NonKeyRun(column, primaryKey, 0, k);
    NonKeyRun(column, primaryKey, k + 1, n);
    assert PkMarkers(column, [primaryKey[k]]) == "Primary key" by {
      assert [primaryKey[k]][..0] == [];
    }
  }

  /** The markers of a key list split around its k-th column. */
  lemma PkMarkersAround(column: IntrospectedColumn, primaryKey: seq<IntrospectedColumn>, k: nat)
    requires k < |primaryKey|
    ensures PkMarkers(column, primaryKey)
            == PkMarkers(column, primaryKey[0..k]) + PkMarkers(column, [primaryKey[k]])
               + PkMarkers(column, primaryKey[k + 1..|primaryKey|])
  {
    var before, key, after := primaryKey[0..k], [primaryKey[k]], primaryKey[k + 1..|primaryKey|];
    assert primaryKey == before + key + after;
    PkMarkersAppend(column, before + key, after);
    PkMarkersAppend(column, before, key);
  }

  /** A run of key columns none of which is column contributes its
      nullability marker once per key column. */
  lemma {:induction false} NonKeyRun(column: IntrospectedColumn, primaryKey: seq<IntrospectedColumn>, lo: nat, hi: nat)
    requires lo <= hi <= |primaryKey|
    requires forall j :: lo <= j < hi ==> primaryKey[j].actualColumnName != column.actualColumnName
    ensures PkMarkers(column, primaryKey[lo..hi]) == Repeat(NullabilityMarker(column), hi - lo)
  {
    var run := primaryKey[lo..hi];
    forall pk | pk in run ensures pk.actualColumnName != column.actualColumnName {
      var j :| 0 <= j < |run| && run[j] == pk;
      assert primaryKey[lo + j] == pk;
    }
    NonKeyColumnMarkers(column, run);
  }

  lemma MarkerOneLine(column: IntrospectedColumn, pk: IntrospectedColumn)
    ensures OneLine(Marker(column, pk))
  {
    assert OneLine("Primary key");
    assert OneLine("(can be null)");
    assert OneLine("(not be null)");
  }

  lemma {:induction false} PkMarkersOneLine(column: IntrospectedColumn, primaryKey: seq<IntrospectedColumn>)
    ensures OneLine(PkMarkers(column, primaryKey))
    decreases |primaryKey|
  {
    if primaryKey != [] {
      PkMarkersOneLine(column, primaryKey[..|primaryKey| - 1]);
      MarkerOneLine(column, primaryKey[|primaryKey| - 1]);
      OneLineConcat(PkMarkers(column, primaryKey[..|primaryKey| - 1]), Marker(column, primaryKey[|primaryKey| - 1]));
    }
  }

  lemma RemarksTextOneLine(remarks: Option<string>)
    ensures OneLine(RemarksText(remarks))
  {
    if remarks.None? {
      assert OneLine("无描述");
    }
  }

  lemma DefaultValueClauseOneLine(defaultValue: Option<string>)
    requires defaultValue.Some? ==> OneLine(defaultValue.value)
    ensures OneLine(DefaultValueClause(defaultValue))
  {
    if defaultValue.None? {
      assert OneLine(" (no default value)");
    } else {
      assert OneLine("  (default value: ");
      assert OneLine(")");
      OneLineConcat("  (default value: ", defaultValue.value);
      OneLineConcat("  (default value: " + defaultValue.value, ")");
    }
  }

  /** The remarks line begins with " * 【" and the escaped remarks (or
      "无描述") and ends with the default-value clause and " 】". */
  lemma RemarksLineFrame(column: IntrospectedColumn, primaryKey: seq<IntrospectedColumn>)
    ensures StartsWith(RemarksLine(column, primaryKey), " * 【" + RemarksText(column.remarks))
    ensures EndsWith(RemarksLine(column, primaryKey), DefaultValueClause(column.defaultValue) + " 】")
  {
    var head := " * 【" + RemarksText(column.remarks);
    var markers := PkMarkers(column, primaryKey);
    var tail := DefaultValueClause(column.defaultValue) + " 】";
    var line := RemarksLine(column, primaryKey);
    assert line == head + markers + tail;
    assert line[..|head|] == head;
    assert line[|line| - |tail|..] == tail;
  }

  /** The remarks line holds no line break or double quote, so it fits on
      one javadoc line and in the @ApiModelProperty string literal, unless
      the column's default value (which is not escaped) brings one. */
  lemma RemarksLineIsOneLine(column: IntrospectedColumn, primaryKey: seq<IntrospectedColumn>)
    requires column.defaultValue.Some? ==> OneLine(column.defaultValue.value)
    ensures OneLine(RemarksLine(column, primaryKey))
  {
    var text := RemarksText(column.remarks);
    var markers := PkMarkers(column, primaryKey);
    var clause := DefaultValueClause(column.defaultValue);
    assert OneLine(" * 【") && OneLine(" 】");
    RemarksTextOneLine(column.remarks);
    PkMarkersOneLine(column, primaryKey);
    DefaultValueClauseOneLine(column.defaultValue);
    OneLineConcat(" * 【", text);
    OneLineConcat(" * 【" + text, markers);
    OneLineConcat(" * 【" + text + markers, clause);
    OneLineConcat(" * 【" + text + markers + clause, " 】");
  }

  /** A single-column key without remarks or default value. */
  lemma SoleKeyWithoutRemarks(column: IntrospectedColumn)
    requires column.remarks.None? && column.defaultValue.None?
    ensures RemarksLine(column, [column]) == " * 【" + "无描述" + "Primary key" + " (no default value)" + " 】"
  {
    assert [column][..0] == [];
    assert PkMarkers(column, [column]) == "" + "Primary key";
    assert PkMarkers(column, [column]) == "Primary key";
    assert RemarksText(column.remarks) == "无描述";
    assert DefaultValueClause(column.defaultValue) == " (no default value)";
  }

  /** A non-null column that is the first of a two-column key gets a marker
      from each key column: the code appends a nullability marker for the
      key column it does not match. */
  lemma FirstOfCompositeKey(column: IntrospectedColumn, other: IntrospectedColumn)
    requires other.actualColumnName != column.actualColumnName && !column.isNullable
    ensures PkMarkers(column, [column, other]) == "Primary key(not be null)"
  {
    KeyColumnMarkers(column, [column, other], 0);
  }

  // ---------------------------------------------------------------------
  // insertBatch

  function InsertBatchHeader(tableFieldName: string): string {
    "SqlBuilder.insert(new ArrayList<>(collection)).into(" + tableFieldName + ")"
  }

  /** The name a .map(...) line passes: qualified with the table field when
      the property would shadow it. */
  function MappedName(tableFieldName: string, column: IntrospectedColumn): string {
    if column.javaProperty == tableFieldName then tableFieldName + "." + column.javaProperty
    else column.javaProperty
  }

  function MapLine(tableFieldName: string, column: IntrospectedColumn): string {
    "        .map(" + MappedName(tableFieldName, column) + ").toProperty(\"" + column.javaProperty + "\")"
  }

  function MapLines(tableFieldName: string, columns: seq<IntrospectedColumn>): seq<string>
    decreases |columns|
  {
    if columns == [] then []
    else MapLines(tableFieldName, columns[..|columns| - 1]) + [MapLine(tableFieldName, columns[|columns| - 1])]
  }

  const InsertBatchTrailer: seq<string> := [
    "        .build().render(RenderingStrategy.MYBATIS3)",
    "        .insertStatements().forEach(this::insert);",
    "return collection.size();"
  ]

  /** The body of the generated insertBatch method. */
  function InsertBatchBody(table: IntrospectedTable): seq<string> {
    [InsertBatchHeader(table.propertyName)]
    + MapLines(table.propertyName, RemoveIdentityAndGeneratedAlwaysColumns(table.allColumns))
    + InsertBatchTrailer
  }

  /** default long insertBatch(java.util.Collection<AllFields> collection). */
  function InsertBatchMethod(table: IntrospectedTable): Method {
    Method("insertBatch", true, JavaType("long", []),
           [Parameter(JavaType("java.util.Collection", [table.allFieldsClass]), "collection")],
           InsertBatchBody(table))
  }

  /** addInsertBatch changes the interface only for MYBATIS3_DSQL with the
      toggle on. */
  predicate InsertBatchApplies(needInsertBatch: Option<string>, table: IntrospectedTable) {
    EnableInsertBatch(needInsertBatch) && table.targetRuntime == MyBatis3Dsql
  }

  /** The addBodyLine calls of addInsertBatch. */
  method BuildInsertBatchBody(table: IntrospectedTable) returns (bodyLines: seq<string>)
    ensures bodyLines == InsertBatchBody(table)
  {
    var tableFieldName := table.propertyName;
    bodyLines := ["SqlBuilder.insert(new ArrayList<>(collection)).into(" + tableFieldName + ")"];
    var columns := RemoveIdentityAndGeneratedAlwaysColumns(table.allColumns);
    for i := 0 to |columns|
      invariant bodyLines == [InsertBatchHeader(tableFieldName)] + MapLines(tableFieldName, columns[..i])
    {
      assert columns[..i + 1][..i] == columns[..i];
      var column := columns[i];
      var fieldName := column.javaProperty;
      if fieldName == tableFieldName {
        fieldName := tableFieldName + "." + fieldName;
      }
      bodyLines := bodyLines + ["        .map(" + fieldName + ").toProperty(\"" + column.javaProperty + "\")"];
    }
    assert columns[..|columns|] == columns;
    bodyLines := bodyLines + ["        .build().render(RenderingStrategy.MYBATIS3)"];
    bodyLines := bodyLines + ["        .insertStatements().forEach(this::insert);"];
    bodyLines := bodyLines + ["return collection.size();"];
  }

  lemma {:induction false} MapLinesAt(tableFieldName: string, columns: seq<IntrospectedColumn>)
    ensures |MapLines(tableFieldName, columns)| == |columns|
    ensures forall i :: 0 <= i < |columns| ==> MapLines(tableFieldName, columns)[i] == MapLine(tableFieldName, columns[i])
    decreases |columns|
  {
    if columns != [] {
      var init := columns[..|columns| - 1];
      MapLinesAt(tableFieldName, init);
      assert forall i :: 0 <= i < |init| ==> columns[i] == init[i];
    }
  }

  /** The body is the header, one .map(...) line per insertable column in
      column order, and the three trailer lines. */
  lemma InsertBatchBodyShape(table: IntrospectedTable)
    ensures var columns := RemoveIdentityAndGeneratedAlwaysColumns(table.allColumns);
            var body := InsertBatchBody(table);
            && |body| == 1 + |columns| + 3
            && body[0] == InsertBatchHeader(table.propertyName)
            && (forall i :: 0 <= i < |columns| ==> body[1 + i] == MapLine(table.propertyName, columns[i]))
            && body[1 + |columns|..] == InsertBatchTrailer
  {
    var columns := RemoveIdentityAndGeneratedAlwaysColumns(table.allColumns);
    MapLinesAt(table.propertyName, columns);
  }

  /** A .map(...) line passes the mapped name and ends with the column's
      property as a string literal. */
  lemma MapLineFrame(tableFieldName: string, column: IntrospectedColumn)
    ensures StartsWith(MapLine(tableFieldName, column), "        .map(" + MappedName(tableFieldName, column))
    ensures EndsWith(MapLine(tableFieldName, column), ").toProperty(\"" + column.javaProperty + "\")")
  {
    var line := MapLine(tableFieldName, column);
    var head := "        .map(" + MappedName(tableFieldName, column);
    var tail := ").toProperty(\"" + column.javaProperty + "\")";
    assert line == head + tail;
    assert line[..|head|] == head;
    assert line[|line| - |tail|..] == tail;
  }

  /** A table "user" with an identity id, a property that shadows the
      table field, and an ordinary property. */
  lemma InsertBatchShadowingExample(table: IntrospectedTable, id: IntrospectedColumn,
                                    user: IntrospectedColumn, age: IntrospectedColumn)
    requires table.propertyName == "user" && table.allColumns == [id, user, age]
    requires id.isIdentity && Insertable(user) && Insertable(age)
    requires user.javaProperty == "user" && age.javaProperty == "age"
    ensures InsertBatchBody(table)
            == [InsertBatchHeader("user"),
                "        .map(" + "user.user" + ").toProperty(\"" + "user" + "\")",
                "        .map(" + "age" + ").toProperty(\"" + "age" + "\")"]
               + InsertBatchTrailer
  {
    assert [id, user, age][1..] == [user, age];
    assert [user, age][1..] == [age];
    assert RemoveIdentityAndGeneratedAlwaysColumns(table.allColumns) == [user, age];
    assert [user, age][..1] == [user];
    assert [user][..0] == [];
    assert MappedName("user", user) == "user.user";
    assert MappedName("user", age) == "age";
    assert MapLines("user", [user]) == [MapLine("user", user)];
    assert MapLines("user", [user, age]) == [MapLine("user", user), MapLine("user", age)];
  }

  /** Proof step of MappedNameQualifiesClash: a prefix with a '.' cannot
      start a name without one. */
  lemma MissingCharRulesOutPrefix(s: string, prefix: string, c: char)
    requires c in prefix && c !in s
    ensures !StartsWith(s, prefix)
  {
  }

  /** The mapped name ends with the column's property, and carries the table
      field name in front exactly when the property equals it (properties are
      Java identifiers, so they hold no '.'). */
  lemma MappedNameQualifiesClash(tableFieldName: string, column: IntrospectedColumn)
    requires '.' !in column.javaProperty
    ensures EndsWith(MappedName(tableFieldName, column), column.javaProperty)
    ensures column.javaProperty == tableFieldName <==> StartsWith(MappedName(tableFieldName, column), tableFieldName + ".")
  {
    var name := MappedName(tableFieldName, column);
    var prefix := tableFieldName + ".";
    if column.javaProperty == tableFieldName {
      assert name == prefix + column.javaProperty;
      assert name[..|prefix|] == prefix;
      assert name[|name| - |column.javaProperty|..] == column.javaProperty;
    } else {
      assert name == column.javaProperty;
      MissingCharRulesOutPrefix(name, prefix, '.');
    }
  }

  // ---------------------------------------------------------------------
  // The plugin

  class CustomPlugin {
    var customLombok: Option<string>
    var lombokPackage: Option<string>
    var needSwagger: Option<string>
    var needInsertBatch: Option<string>
    var needInsertMulti: Option<string>
    const lombokEnumMap: map<string, string>

    /** Fills the registry from LombokEnum.values(); no property is set yet. */
    constructor ()
      ensures lombokEnumMap == ToMap(PluginsEnums.Values)
      ensures customLombok.None? && lombokPackage.None? && needSwagger.None?
      ensures needInsertBatch.None? && needInsertMulti.None?
    {
      var enums := PluginsEnums.Values;
      var m: map<string, string> := map[];
      for i := 0 to |enums|
        invariant m == ToMap(enums[..i])
      {
        assert enums[..i + 1][..i] == enums[..i];
        m := m[enums[i].annotation := enums[i].pkg];
      }
      assert enums[..|enums|] == enums;
      lombokEnumMap := m;
      customLombok := None;
      lombokPackage := None;
      needSwagger := None;
      needInsertBatch := None;
      needInsertMulti := None;
    }

    /** Captures the five properties the plugin reads. */
    method SetProperties(properties: map<string, string>)
      modifies this
      ensures customLombok == GetProperty(properties, "customLombok")
      ensures lombokPackage == GetProperty(properties, "lombokPackage")
      ensures needSwagger == GetProperty(properties, "enableSwagger")
      ensures needInsertBatch == GetProperty(properties, "needInsertBatch")
      ensures needInsertMulti == GetProperty(properties, "needInsertMulti")
    {
      customLombok := GetProperty(properties, "customLombok");
      lombokPackage := GetProperty(properties, "lombokPackage");
      needSwagger := GetProperty(properties, "enableSwagger");
      needInsertBatch := GetProperty(properties, "needInsertBatch");
      needInsertMulti := GetProperty(properties, "needInsertMulti");
    }

    /** clientGenerated: adds insertBatch where it applies; returns true. */
    method ClientGenerated(interfaze: Interface, table: IntrospectedTable) returns (r: bool)
      modifies interfaze
      ensures r
      ensures InsertBatchApplies(needInsertBatch, table) ==>
                && interfaze.methods == old(interfaze.methods) + [InsertBatchMethod(table)]
                && interfaze.importedTypes == old(interfaze.importedTypes) + {"java.util.ArrayList"}
      ensures !InsertBatchApplies(needInsertBatch, table) ==>
                interfaze.methods == old(interfaze.methods) && interfaze.importedTypes == old(interfaze.importedTypes)
    {
      AddInsertBatch(interfaze, table);
      r := true;
    }

    method AddInsertBatch(interfaze: Interface, table: IntrospectedTable)
      modifies interfaze
      ensures InsertBatchApplies(needInsertBatch, table) ==>
                && interfaze.methods == old(interfaze.methods) + [InsertBatchMethod(table)]
                && interfaze.importedTypes == old(interfaze.importedTypes) + {"java.util.ArrayList"}
      ensures !InsertBatchApplies(needInsertBatch, table) ==>
                interfaze.methods == old(interfaze.methods) && interfaze.importedTypes == old(interfaze.importedTypes)
    {
      if EnableInsertBatch(needInsertBatch) {
        match table.targetRuntime
        case MyBatis3 =>
        case MyBatis3Dsql =>
          var returnType := JavaType("long", []);
          var iterableType := JavaType("java.util.Collection", [table.allFieldsClass]);
          var parameters := [Parameter(iterableType, "collection")];
          interfaze.AddImportedType("java.util.ArrayList");
          var bodyLines := BuildInsertBatchBody(table);
          interfaze.AddMethod(Method("insertBatch", true, returnType, parameters, bodyLines));
        case OtherRuntime =>
      }
    }

    /** modelFieldGenerated: comments the field; returns true. */
    method ModelFieldGenerated(field: Field, topLevelClass: TopLevelClass, column: IntrospectedColumn,
                               table: IntrospectedTable) returns (r: bool)
      modifies field, topLevelClass
      ensures r
      ensures field.javaDocLines == old(field.javaDocLines) + ["/**", RemarksLine(column, table.primaryKeyColumns), " */"]
      ensures topLevelClass.annotations == old(topLevelClass.annotations)
      ensures EnableSwagger(needSwagger) ==>
                && field.annotations == old(field.annotations)
                                        + [ApiModelPropertyAnnotation(field.name, RemarksLine(column, table.primaryKeyColumns))]
                && topLevelClass.importedTypes == old(topLevelClass.importedTypes) + {"io.swagger.annotations.ApiModelProperty"}
      ensures !EnableSwagger(needSwagger) ==>
                field.annotations == old(field.annotations) && topLevelClass.importedTypes == old(topLevelClass.importedTypes)
    {
      AddFieldComment(field, topLevelClass, column, table);
      r := true;
    }

    method AddFieldComment(field: Field, topLevelClass: TopLevelClass, column: IntrospectedColumn,
                           table: IntrospectedTable)
      modifies field, topLevelClass
      ensures field.javaDocLines == old(field.javaDocLines) + ["/**", RemarksLine(column, table.primaryKeyColumns), " */"]
      ensures topLevelClass.annotations == old(topLevelClass.annotations)
      ensures EnableSwagger(needSwagger) ==>
                && field.annotations == old(field.annotations)
                                        + [ApiModelPropertyAnnotation(field.name, RemarksLine(column, table.primaryKeyColumns))]
                && topLevelClass.importedTypes == old(topLevelClass.importedTypes) + {"io.swagger.annotations.ApiModelProperty"}
      ensures !EnableSwagger(needSwagger) ==>
                field.annotations == old(field.annotations) && topLevelClass.importedTypes == old(topLevelClass.importedTypes)
    {
      field.AddJavaDocLine("/**");
      var remarks := BuildRemarks(column, table.primaryKeyColumns);
      field.AddJavaDocLine(remarks);
      field.AddJavaDocLine(" */");
      if EnableSwagger(needSwagger) {
        topLevelClass.AddImportedType("io.swagger.annotations.ApiModelProperty");
        field.AddAnnotation("@ApiModelProperty(name = \"" + field.name + "\", value = \"" + remarks + "\")");
      }
    }

    /** modelBaseRecordClassGenerated. */
    method ModelBaseRecordClassGenerated(topLevelClass: TopLevelClass, table: IntrospectedTable) returns (r: Completion<bool>)
      modifies topLevelClass
      ensures var e := ClassHookEffect(customLombok, lombokPackage, needSwagger, lombokEnumMap, table);
              && topLevelClass.annotations == old(topLevelClass.annotations) + e.annotations
              && topLevelClass.importedTypes == old(topLevelClass.importedTypes) + e.imports
              && r == Completes(e.outcome, true)
    {
      ghost var before := topLevelClass.annotations;
      var outcome := AddLombokToTopLevelClass(topLevelClass);
      if outcome.Thrown? {
        return Threw(outcome.exception);
      }
      AddSwaggerToTopLevelClass(topLevelClass, table);
      ConcatAssoc(before, LombokEffect(customLombok, lombokPackage, lombokEnumMap).annotations,
                  SwaggerEffect(needSwagger, table.domainObjectName).annotations);
      r := Returned(true);
    }

    /** modelPrimaryKeyClassGenerated. */
    method ModelPrimaryKeyClassGenerated(topLevelClass: TopLevelClass, table: IntrospectedTable) returns (r: Completion<bool>)
      modifies topLevelClass
      ensures var e := ClassHookEffect(customLombok, lombokPackage, needSwagger, lombokEnumMap, table);
              && topLevelClass.annotations == old(topLevelClass.annotations) + e.annotations
              && topLevelClass.importedTypes == old(topLevelClass.importedTypes) + e.imports
              && r == Completes(e.outcome, true)
    {
      ghost var before := topLevelClass.annotations;
      var outcome := AddLombokToTopLevelClass(topLevelClass);
      if outcome.Thrown? {
        return Threw(outcome.exception);
      }
      AddSwaggerToTopLevelClass(topLevelClass, table);
      ConcatAssoc(before, LombokEffect(customLombok, lombokPackage, lombokEnumMap).annotations,
                  SwaggerEffect(needSwagger, table.domainObjectName).annotations);
      r := Returned(true);
    }

    /** modelRecordWithBLOBsClassGenerated. */
    method ModelRecordWithBLOBsClassGenerated(topLevelClass: TopLevelClass, table: IntrospectedTable) returns (r: Completion<bool>)
      modifies topLevelClass
      ensures var e := ClassHookEffect(customLombok, lombokPackage, needSwagger, lombokEnumMap, table);
              && topLevelClass.annotations == old(topLevelClass.annotations) + e.annotations
              && topLevelClass.importedTypes == old(topLevelClass.importedTypes) + e.imports
              && r == Completes(e.outcome, true)
    {
      ghost var before := topLevelClass.annotations;
      var outcome := AddLombokToTopLevelClass(topLevelClass);
      if outcome.Thrown? {
        return Threw(outcome.exception);
      }
      AddSwaggerToTopLevelClass(topLevelClass, table);
      ConcatAssoc(before, LombokEffect(customLombok, lombokPackage, lombokEnumMap).annotations,
                  SwaggerEffect(needSwagger, table.domainObjectName).annotations);
      r := Returned(true);
    }

    method AddLombokToTopLevelClass(topLevelClass: TopLevelClass) returns (outcome: Outcome)
      modifies topLevelClass
      ensures var e := LombokEffect(customLombok, lombokPackage, lombokEnumMap);
              && topLevelClass.annotations == old(topLevelClass.annotations) + e.annotations
              && topLevelClass.importedTypes == old(topLevelClass.importedTypes) + e.imports
              && outcome == e.outcome
    {
      if EnableLombok(customLombok) {
        var customLombokAnnotations := Split(customLombok.value, ',');
        if lombokPackage.None? || |lombokPackage.value| == 0 {
          outcome := AppendAll(topLevelClass, ResolveByRegistry(customLombokAnnotations, lombokEnumMap));
        } else {
          var lombokPackages := Split(lombokPackage.value, ',');
          outcome := AppendAll(topLevelClass, ResolveByPosition(customLombokAnnotations, lombokPackages));
        }
      } else {
        AddAnnotation(topLevelClass, DefaultBundle);
        EntriesApply(DefaultBundle);
        outcome := Normal;
      }
    }

    method AddSwaggerToTopLevelClass(topLevelClass: TopLevelClass, table: IntrospectedTable)
      modifies topLevelClass
      ensures var e := SwaggerEffect(needSwagger, table.domainObjectName);
              && topLevelClass.annotations == old(topLevelClass.annotations) + e.annotations
              && topLevelClass.importedTypes == old(topLevelClass.importedTypes) + e.imports
    {
      if EnableSwagger(needSwagger) {
        topLevelClass.AddImportedType("io.swagger.annotations.ApiModel");
        topLevelClass.AddAnnotation("@ApiModel(description = \"" + table.domainObjectName + "\")");
      }
    }

    /** addAnnotation(topLevelClass, enumInterfaces...): each constant's
        annotation, then its package, in order. */
    method AddAnnotation(topLevelClass: TopLevelClass, enumInterfaces: seq<Entry>)
      modifies topLevelClass
      ensures topLevelClass.annotations == old(topLevelClass.annotations) + EntryAnnotations(enumInterfaces)
      ensures topLevelClass.importedTypes == old(topLevelClass.importedTypes) + EntryPackages(enumInterfaces)
    {
      for i := 0 to |enumInterfaces|
        invariant topLevelClass.annotations == old(topLevelClass.annotations) + EntryAnnotations(enumInterfaces[..i])
        invariant topLevelClass.importedTypes == old(topLevelClass.importedTypes) + EntryPackages(enumInterfaces[..i])
      {
        var enumInterface := enumInterfaces[i];
        topLevelClass.AddAnnotation(enumInterface.annotation);
        topLevelClass.AddImportedType(enumInterface.pkg);
        ghost var done := enumInterfaces[..i];
        assert enumInterfaces[..i + 1] == done + [enumInterface];
        assert EntryAnnotations(done + [enumInterface]) == EntryAnnotations(done) + [enumInterface.annotation];
        ConcatAssoc(old(topLevelClass.annotations), EntryAnnotations(done), [enumInterface.annotation]);
        assert EntryPackages(done + [enumInterface]) == EntryPackages(done) + {enumInterface.pkg} by {
          assert forall e :: e in done + [enumInterface] <==> e in done || e == enumInterface;
        }
      }
      assert enumInterfaces[..|enumInterfaces|] == enumInterfaces;
    }
  }
}
