# Lombok and Swagger plugins for MyBatis Generator, in Dafny

This project models the plugin part of a MyBatis Generator extension. The
plugins decorate the Java code the generator writes:

- **CustomPlugin** (`org.mybatis.generator.plugins.custom`) reads five
  properties. On every generated model class it puts Lombok annotations and
  their imports. The annotations come from a comma-separated `customLombok`
  directive list, and their packages are resolved in one of three ways:
  - through a registry built from `LombokEnum`;
  - through "lombok." followed by the token without its first character;
  - position by position through a `lombokPackage` list.

  When nothing is configured it adds a default bundle (`@Data`,
  `@NoArgsConstructor`, `@AllArgsConstructor`, `@Builder`). It can also:
  - add Swagger's `@ApiModel` to classes;
  - give each model field a javadoc remarks line built from its column's
    metadata, with `@ApiModelProperty` when Swagger is on;
  - tell the host whether to still generate getters and setters;
  - add a default `insertBatch` method to dynamic-SQL client interfaces.
- **PkyPlugin** (`org.mybatis.generator.plugins`) is the older revision of
  the class hooks. It has no registry, and its default bundle is written out
  by hand.
- **LombokEnum**, in two copies (`plugins.enums` and `custom.enums`), is the
  fixed table of eight (annotation, package) pairs. The `custom.enums` copy
  also holds a static annotation-to-package map.

## Layout

- `java_lang.dfy` (`JavaLang`) models the Java library behaviour the
  plugins rely on:
  - `String.split(",")` (trailing empty strings dropped), `contains`,
    `"true".equalsIgnoreCase`, and the `replaceAll` escaping of remarks;
  - `Properties.getProperty`;
  - the two runtime exceptions the plugins can raise.
- `dom.dfy` (`Dom`) holds the host's objects:
  - the introspected table and columns;
  - the generated `Method`, as a value;
  - `TopLevelClass`, `Field` and `Interface`, as classes whose annotation
    lists, import sets, javadoc lines and method lists grow in place.
- `registry.dfy` (`Registry`) has the (annotation, package) pair and the map
  a `HashMap` holds after one `put` per pair.
- `plugins_enums.dfy` (`PluginsEnums`) and `custom_enums.dfy`
  (`CustomEnums`) are the two `LombokEnum` tables.
- `directives.dfy` (`Directives`) covers resolved directives and the loop
  that appends them to a class. A run stops at the first token that throws,
  and that token's annotation is already on the class.
- `custom_plugin.dfy` (`PluginsCustom`) is CustomPlugin:
  - the pure parts are functions of the captured properties;
  - the hooks are methods of class `CustomPlugin`.
- `pky_plugin.dfy` (`Plugins`) is PkyPlugin. Its toggles, accessor hooks and
  Swagger annotation have the same text as CustomPlugin's, so it reuses the
  `PluginsCustom` predicates for them.
- `revisions.dfy` (`Revisions`) compares the two revisions. With
  `DATA = ("@Data", "lombok.Data")`, they have the same effect on classes
  unless the registry path sees the Accessors directive.

Java exceptions are not preconditions. A hook's result is a `Completion`:
`Returned(true)` or `Threw(e)`. The class is left in exactly the state Java
leaves it in, which means the annotation of the token that threw has already
been added.

Things about the code worth knowing:
- The getter and setter hooks return `false` when no directives are
  configured (`CustomPlugin.java:191`, `:200`). They return `true` only when
  directives are configured and mention neither `@Data` nor the accessor.
- Annotations are kept in a list, so a directive repeated in `customLombok`
  is added twice.
- The primary-key loop writes one marker per key column (`CustomPlugin.java:125-131`).
  A column of an n-column key therefore gets "Primary key" plus n-1
  nullability markers.
- There is no code that strips annotations or wires the plugin into the
  generator, so neither is modelled.

## Model

| member | source | states |
|---|---|---|
| JavaLang.IsTrueIgnoreCaseIff | src/main/java/org/mybatis/generator/plugins/custom/CustomPlugin.java:215-217 | `"true".equalsIgnoreCase(x)` holds exactly when x is set, has four characters, and each is "true"'s letter in upper or lower case; null is false |
| JavaLang.ContainsIffOccurs | src/main/java/org/mybatis/generator/plugins/custom/CustomPlugin.java:191 | `s.contains(w)` holds exactly when w occurs at some index of s |
| JavaLang.ContainsTransitive | src/main/java/org/mybatis/generator/plugins/custom/CustomPlugin.java:191 | a substring of a substring is a substring |
| JavaLang.JoinPieces | src/main/java/org/mybatis/generator/plugins/custom/CustomPlugin.java:271 | the separator-free pieces split produces, joined with the separator, give the string back |
| JavaLang.DropTrailingEmpty | src/main/java/org/mybatis/generator/plugins/custom/CustomPlugin.java:271 | split keeps a prefix of the pieces, drops only empty trailing ones, and leaves no empty last token |
| JavaLang.Split | src/main/java/org/mybatis/generator/plugins/custom/CustomPlugin.java:271 | no token holds the separator |
| JavaLang.TokenIsSubstring | src/main/java/org/mybatis/generator/plugins/custom/CustomPlugin.java:271 | every token split returns is a substring of the directive string |
| JavaLang.ContainsIffSomeToken | src/main/java/org/mybatis/generator/plugins/custom/CustomPlugin.java:191 | a non-empty comma-free word occurs in the directive string exactly when it occurs in one of its split tokens |
| JavaLang.ReplaceBreaksAndQuotes | src/main/java/org/mybatis/generator/plugins/custom/CustomPlugin.java:122 | the escaped remarks hold no CR, LF or double quote and are never longer |
| JavaLang.ReplaceBreaksAndQuotesKeepsClean | src/main/java/org/mybatis/generator/plugins/custom/CustomPlugin.java:122 | remarks without breaks or quotes are left unchanged |
| JavaLang.ReplaceBreaksAndQuotesIdempotent | src/main/java/org/mybatis/generator/plugins/custom/CustomPlugin.java:122 | escaping twice is escaping once |
| JavaLang.ReplaceBreaksAndQuotesLength | src/main/java/org/mybatis/generator/plugins/custom/CustomPlugin.java:122 | each CR LF pair becomes one space and every other match one space, so the length drops by the number of CR LF pairs |
| JavaLang.ReplaceBreaksAndQuotesChar | src/main/java/org/mybatis/generator/plugins/custom/CustomPlugin.java:122 | a lone CR, LF or double quote becomes one space, and any other character is copied unchanged |
| JavaLang.ReplaceBreaksAndQuotesCrLf | src/main/java/org/mybatis/generator/plugins/custom/CustomPlugin.java:122 | a CR LF pair is one match and becomes one space |
| JavaLang.ReplaceBreaksAndQuotesConcat | src/main/java/org/mybatis/generator/plugins/custom/CustomPlugin.java:122 | the replacement of a concatenation is the concatenation of the replacements, unless the cut splits a CR LF pair; with the two rows above this fixes the result completely |
| JavaLang.ReplaceBreaksAndQuotesPointwise | src/main/java/org/mybatis/generator/plugins/custom/CustomPlugin.java:122 | for remarks without CR the result has the same length, LF and double quote become a space at the same index, and every other character stays in place |
| Dom.RemoveIdentityAndGeneratedAlwaysColumns | src/main/java/org/mybatis/generator/plugins/custom/CustomPlugin.java:87 | the kept columns are exactly the input columns that are neither identity nor generated-always |
| Dom.RemoveIdentityAndGeneratedAlwaysColumnsSingle | src/main/java/org/mybatis/generator/plugins/custom/CustomPlugin.java:87 | a single column is kept exactly when it is neither identity nor generated-always |
| Dom.RemoveIdentityAndGeneratedAlwaysColumnsConcat | src/main/java/org/mybatis/generator/plugins/custom/CustomPlugin.java:87 | filtering a concatenation is concatenating the filtered parts, so kept columns stay in getAllColumns() order and keep their multiplicity |
| Dom.TopLevelClass.AddAnnotation | src/main/java/org/mybatis/generator/plugins/custom/CustomPlugin.java:276 | `getAnnotations().add` appends one annotation and leaves the imports unchanged |
| Dom.TopLevelClass.AddImportedType | src/main/java/org/mybatis/generator/plugins/custom/CustomPlugin.java:277 | `addImportedType` adds one type to the import set and leaves the annotations unchanged |
| Dom.Field.AddJavaDocLine | src/main/java/org/mybatis/generator/plugins/custom/CustomPlugin.java:120 | appends one javadoc line to the field |
| Dom.Field.AddAnnotation | src/main/java/org/mybatis/generator/plugins/custom/CustomPlugin.java:145 | appends one annotation to the field |
| Dom.Interface.AddImportedType | src/main/java/org/mybatis/generator/plugins/custom/CustomPlugin.java:83 | adds one import to the client interface |
| Dom.Interface.AddMethod | src/main/java/org/mybatis/generator/plugins/custom/CustomPlugin.java:100 | appends one method to the client interface |
| Registry.ToMap | src/main/java/org/mybatis/generator/plugins/custom/CustomPlugin.java:29-31 | the map filled by one put per constant has exactly the constants' annotations as keys |
| Registry.ToMapLookup | src/main/java/org/mybatis/generator/plugins/custom/CustomPlugin.java:29-31 | when no annotation repeats, every constant's annotation looks up that constant's package |
| Registry.ToMapSize | src/main/java/org/mybatis/generator/plugins/custom/CustomPlugin.java:29-31 | when no annotation repeats, the map has one key per constant |
| PluginsEnums.TableShape | src/main/java/org/mybatis/generator/plugins/enums/LombokEnum.java:15-22 | the table has eight constants and no annotation occurs twice |
| PluginsEnums.TablePrefixes | src/main/java/org/mybatis/generator/plugins/enums/LombokEnum.java:15-22 | every annotation starts with '@' and every package with "lombok." |
| PluginsEnums.NamedIsFallback | src/main/java/org/mybatis/generator/plugins/enums/LombokEnum.java:15-22 | a constant ("@" + X, "lombok." + X) has as its package the import synthesised from its annotation |
| PluginsEnums.FallbackAgreesExceptAccessors | src/main/java/org/mybatis/generator/plugins/enums/LombokEnum.java:15-22 | for every constant but ACCESSORS, the package is "lombok." + the annotation without its '@' |
| PluginsEnums.AccessorsIsTheException | src/main/java/org/mybatis/generator/plugins/enums/LombokEnum.java:19 | ACCESSORS carries "(chain = true)" in its annotation and lives in lombok.experimental, so the synthesised import differs from its package |
| PluginsEnums.DefaultBundleSpelling | src/main/java/org/mybatis/generator/plugins/enums/LombokEnum.java:15-21 | DATA, NO_ARGS_CONSTRUCTOR, ALL_ARGS_CONSTRUCTOR and BUILDER are the literal pairs the table declares |
| CustomEnums.StaticInit | src/main/java/org/mybatis/generator/custom/enums/LombokEnum.java:32-37 | the static block's loop leaves the map of one put per constant, in declaration order |
| CustomEnums.GetLombokEnumMap | src/main/java/org/mybatis/generator/custom/enums/LombokEnum.java:38-40 | the map has eight keys, exactly the eight annotations, and each maps to its constant's package |
| CustomEnums.LookupMisses | src/main/java/org/mybatis/generator/custom/enums/LombokEnum.java:38-40 | a string that is none of the annotations is not a key |
| CustomEnums.SameTableAsPluginsEnums | src/main/java/org/mybatis/generator/custom/enums/LombokEnum.java:18-25 | the two copies of the table agree constant by constant |
| Directives.Apply | src/main/java/org/mybatis/generator/plugins/custom/CustomPlugin.java:273-288 | a run adds at most one annotation per token and never more distinct imports than annotations |
| Directives.ApplyConcat | src/main/java/org/mybatis/generator/plugins/custom/CustomPlugin.java:158-164 | running two lists of directives in turn is running the first and then, unless it threw, the second: the class hooks' "Lombok step, then Swagger step" composition |
| Directives.ApplyAllResolved | src/main/java/org/mybatis/generator/plugins/custom/CustomPlugin.java:273-282 | when no token throws, every annotation is added in token order, every resolved import is recorded, and the run completes |
| Directives.ApplyThrownIsFinal | src/main/java/org/mybatis/generator/plugins/custom/CustomPlugin.java:273-288 | once a prefix of the tokens has thrown, later tokens change nothing |
| Directives.ApplyFirstThrow | src/main/java/org/mybatis/generator/plugins/custom/CustomPlugin.java:273-288 | the first throwing token's annotation is the last one added, only earlier tokens are imported, and its exception propagates |
| Directives.ImportsComeFromResolvedTokens | src/main/java/org/mybatis/generator/plugins/custom/CustomPlugin.java:273-288 | every recorded import belongs to a resolved token whose annotation was added |
| Directives.ApplyNormalIffAllResolved | src/main/java/org/mybatis/generator/plugins/custom/CustomPlugin.java:273-288 | a run completes exactly when no token throws |
| Directives.ApplyAnnotationsArePrefix | src/main/java/org/mybatis/generator/plugins/custom/CustomPlugin.java:273-288 | the annotations a run adds are a prefix of the tokens' annotations, in order |
| Directives.PositionalEnoughPackages | src/main/java/org/mybatis/generator/plugins/custom/CustomPlugin.java:284-288 | with at least as many packages as tokens, all tokens are added in order with the first packages, and extra packages are ignored |
| Directives.PositionalTooFewPackages | src/main/java/org/mybatis/generator/plugins/custom/CustomPlugin.java:284-288 | with fewer packages, every package is imported, the tokens up to and including the first one without a package are added, and ArrayIndexOutOfBoundsException is thrown |
| Directives.AppendAll | src/main/java/org/mybatis/generator/plugins/custom/CustomPlugin.java:273-288 | the loop leaves the class with the run's annotations appended and its imports added, and returns the run's outcome |
| PluginsCustom.EnableSwagger | src/main/java/org/mybatis/generator/plugins/custom/CustomPlugin.java:215-217 | on exactly when enableSwagger is "true" in some mix of upper and lower case; PkyPlugin's enableSwagger (src/main/java/org/mybatis/generator/plugins/PkyPlugin.java:86-88) is this predicate |
| PluginsCustom.EnableInsertBatch | src/main/java/org/mybatis/generator/plugins/custom/CustomPlugin.java:227-229 | on exactly when needInsertBatch is "true" in some mix of upper and lower case; PkyPlugin's enableInsertBatch (src/main/java/org/mybatis/generator/plugins/PkyPlugin.java:90-92) is this predicate |
| PluginsCustom.EnableInsertMulti | src/main/java/org/mybatis/generator/plugins/custom/CustomPlugin.java:237-239 | on exactly when needInsertMulti is "true" in some mix of upper and lower case |
| PluginsCustom.TogglesOffWhenUnset | src/main/java/org/mybatis/generator/plugins/custom/CustomPlugin.java:215-239 | an unset boolean property leaves its toggle off |
| PluginsCustom.ModelGetterMethodGenerated | src/main/java/org/mybatis/generator/plugins/custom/CustomPlugin.java:189-192 | false when no directives are configured; otherwise true exactly when no split directive token mentions "@Data" or "@Getter"; PkyPlugin's hook (src/main/java/org/mybatis/generator/plugins/PkyPlugin.java:68-71) is this predicate; "no directives configured" is enableLombok (src/main/java/org/mybatis/generator/plugins/custom/CustomPlugin.java:207-209, src/main/java/org/mybatis/generator/plugins/PkyPlugin.java:82-84): customLombok null or empty |
| PluginsCustom.ModelSetterMethodGenerated | src/main/java/org/mybatis/generator/plugins/custom/CustomPlugin.java:198-201 | false when no directives are configured; otherwise true exactly when no split directive token mentions "@Data" or "@Setter"; PkyPlugin's hook (src/main/java/org/mybatis/generator/plugins/PkyPlugin.java:76-79) is this predicate; "no directives configured" is enableLombok (src/main/java/org/mybatis/generator/plugins/custom/CustomPlugin.java:207-209, src/main/java/org/mybatis/generator/plugins/PkyPlugin.java:82-84): customLombok null or empty |
| PluginsCustom.EntriesApply | src/main/java/org/mybatis/generator/plugins/custom/CustomPlugin.java:311-316 | addAnnotation over constants adds their annotations in order and their packages, and never throws |
| PluginsCustom.UnconfiguredAddsDefaultBundle | src/main/java/org/mybatis/generator/plugins/custom/CustomPlugin.java:290-294 | without directives the class gains @Data, @NoArgsConstructor, @AllArgsConstructor and @Builder in order, with their four imports, whatever lombokPackage and the registry hold; "without directives" is enableLombok (src/main/java/org/mybatis/generator/plugins/custom/CustomPlugin.java:207-209) being false: customLombok null or empty |
| PluginsCustom.DefaultBundleContents | src/main/java/org/mybatis/generator/plugins/custom/CustomPlugin.java:291-293 | the four constants passed to addAnnotation spell out those annotations and packages |
| PluginsCustom.ResolveByRegistryNonEmpty | src/main/java/org/mybatis/generator/plugins/custom/CustomPlugin.java:273-282 | non-empty tokens are all added in order, each with its registry package or its synthesised import |
| PluginsCustom.RegistryPathAddsEveryToken | src/main/java/org/mybatis/generator/plugins/custom/CustomPlugin.java:271-282 | with no lombokPackage and no empty token, the class gains exactly the split tokens and their registry-or-synthesised imports, and the hook completes |
| PluginsCustom.ResolveByRegistryFirstEmpty | src/main/java/org/mybatis/generator/plugins/custom/CustomPlugin.java:275-277 | an empty token the registry lacks is added and then substring(1) throws; only the tokens before it are imported |
| PluginsCustom.RegistryPathEmptyTokenThrows | src/main/java/org/mybatis/generator/plugins/custom/CustomPlugin.java:271-282 | a directive string with an empty token (",@Data") throws StringIndexOutOfBoundsException after adding the tokens up to it |
| PluginsCustom.PackagePathPairsByPosition | src/main/java/org/mybatis/generator/plugins/custom/CustomPlugin.java:283-288 | with a lombokPackage list, token i is paired with package i; too few packages ends in ArrayIndexOutOfBoundsException after the first unpaired token |
| PluginsCustom.CompletedRunAddsTokens | src/main/java/org/mybatis/generator/plugins/custom/CustomPlugin.java:270-289 | when directives are configured and the run completes, the class gains exactly the split tokens, in order, on either path |
| PluginsCustom.SuppressionMatchesAnnotations | src/main/java/org/mybatis/generator/plugins/custom/CustomPlugin.java:189-201 | when the Lombok step completes, an accessor hook keeps the host's accessor exactly when no annotation put on the class mentions "@Data" or that accessor's annotation |
| PluginsCustom.GetterHookMatchesClass | src/main/java/org/mybatis/generator/plugins/custom/CustomPlugin.java:189-192 | when the Lombok step completes, the getter hook returns true exactly when no annotation put on the class mentions @Data or @Getter |
| PluginsCustom.SetterHookMatchesClass | src/main/java/org/mybatis/generator/plugins/custom/CustomPlugin.java:198-201 | when the Lombok step completes, the setter hook returns true exactly when no annotation put on the class mentions @Data or @Setter |
| PluginsCustom.SwaggerComesLast | src/main/java/org/mybatis/generator/plugins/custom/CustomPlugin.java:300-308 | with Swagger on, @ApiModel naming the domain object follows every Lombok annotation and brings its import; with Swagger off, or after a throw, the hook adds only the Lombok step |
| PluginsCustom.BuildRemarks | src/main/java/org/mybatis/generator/plugins/custom/CustomPlugin.java:121-140 | the StringBuilder code builds the remarks line: prefix, escaped remarks or "无描述", key markers, default-value clause, closing bracket |
| PluginsCustom.AppendPkMarkers | src/main/java/org/mybatis/generator/plugins/custom/CustomPlugin.java:124-131 | the primary-key loop appends one marker per key column, in key order |
| PluginsCustom.PkMarkersAppend | src/main/java/org/mybatis/generator/plugins/custom/CustomPlugin.java:125-131 | the markers of two consecutive runs of key columns are the markers of each run, concatenated |
| PluginsCustom.NonKeyColumnMarkers | src/main/java/org/mybatis/generator/plugins/custom/CustomPlugin.java:125-131 | a non-key column gets its nullability marker once per key column |
| PluginsCustom.KeyColumnMarkers | src/main/java/org/mybatis/generator/plugins/custom/CustomPlugin.java:125-131 | the k-th key column gets k nullability markers, then "Primary key", then one marker per later key column |
| PluginsCustom.FirstOfCompositeKey | src/main/java/org/mybatis/generator/plugins/custom/CustomPlugin.java:125-131 | the non-null first column of a two-column key gets "Primary key(not be null)" |
| PluginsCustom.SoleKeyWithoutRemarks | src/main/java/org/mybatis/generator/plugins/custom/CustomPlugin.java:121-140 | a sole key column with no remarks and no default gets " * 【无描述Primary key (no default value) 】" |
| PluginsCustom.MarkerOneLine | src/main/java/org/mybatis/generator/plugins/custom/CustomPlugin.java:127-130 | each key marker is free of line breaks and quotes |
| PluginsCustom.PkMarkersOneLine | src/main/java/org/mybatis/generator/plugins/custom/CustomPlugin.java:125-131 | all key markers together are free of line breaks and quotes |
| PluginsCustom.RemarksTextOneLine | src/main/java/org/mybatis/generator/plugins/custom/CustomPlugin.java:122 | the remarks part is free of line breaks and quotes, escaped or "无描述" |
| PluginsCustom.DefaultValueClauseOneLine | src/main/java/org/mybatis/generator/plugins/custom/CustomPlugin.java:132-139 | the default-value clause is free of breaks and quotes whenever the default value is |
| PluginsCustom.RemarksLineFrame | src/main/java/org/mybatis/generator/plugins/custom/CustomPlugin.java:121-140 | the remarks line starts with " * 【" and the remarks text, and ends with the default-value clause and " 】" |
| PluginsCustom.RemarksLineIsOneLine | src/main/java/org/mybatis/generator/plugins/custom/CustomPlugin.java:121-145 | the remarks line fits on one javadoc line and inside the @ApiModelProperty string unless the (unescaped) default value breaks it |
| PluginsCustom.BuildInsertBatchBody | src/main/java/org/mybatis/generator/plugins/custom/CustomPlugin.java:85-99 | the addBodyLine calls produce the header, one .map line per insertable column, and the three trailer lines |
| PluginsCustom.MapLinesAt | src/main/java/org/mybatis/generator/plugins/custom/CustomPlugin.java:88-96 | there is one .map line per column, and line i is the line of column i |
| PluginsCustom.InsertBatchBodyShape | src/main/java/org/mybatis/generator/plugins/custom/CustomPlugin.java:86-99 | the body has 1 + n + 3 lines: the insert header, the .map line of each insertable column in order, then the trailer |
| PluginsCustom.MapLineFrame | src/main/java/org/mybatis/generator/plugins/custom/CustomPlugin.java:93-95 | a .map line passes the mapped name and ends with the column's property as a string literal |
| PluginsCustom.MappedNameQualifiesClash | src/main/java/org/mybatis/generator/plugins/custom/CustomPlugin.java:89-92 | the mapped name ends with the property and is qualified with the table field name exactly when the property equals it |
| PluginsCustom.InsertBatchShadowingExample | src/main/java/org/mybatis/generator/plugins/custom/CustomPlugin.java:85-99 | for table "user" with an identity id and properties user and age, id is skipped and user is mapped as user.user |
| PluginsCustom.CustomPlugin.constructor | src/main/java/org/mybatis/generator/plugins/custom/CustomPlugin.java:27-32 | the registry is the map of LombokEnum.values(), and no property is set |
| PluginsCustom.CustomPlugin.SetProperties | src/main/java/org/mybatis/generator/plugins/custom/CustomPlugin.java:35-43 | the five fields take the values of customLombok, lombokPackage, enableSwagger, needInsertBatch and needInsertMulti (null when absent); the registry is a constant field, set once by the constructor |
| PluginsCustom.CustomPlugin.ClientGenerated | src/main/java/org/mybatis/generator/plugins/custom/CustomPlugin.java:55-61 | returns true; the interface gains insertBatch and the ArrayList import exactly when the toggle is on and the runtime is MYBATIS3_DSQL, and is unchanged otherwise |
| PluginsCustom.CustomPlugin.AddInsertBatch | src/main/java/org/mybatis/generator/plugins/custom/CustomPlugin.java:67-106 | for MYBATIS3_DSQL with the toggle on, it appends `default long insertBatch(Collection<AllFields> collection)` with the body above and imports ArrayList; otherwise it changes nothing |
| PluginsCustom.CustomPlugin.ModelFieldGenerated | src/main/java/org/mybatis/generator/plugins/custom/CustomPlugin.java:110-116 | returns true after commenting the field |
| PluginsCustom.CustomPlugin.AddFieldComment | src/main/java/org/mybatis/generator/plugins/custom/CustomPlugin.java:118-148 | the field gains "/**", the remarks line and " */"; with Swagger on it also gains @ApiModelProperty with the field name and that line, and the class imports ApiModelProperty |
| PluginsCustom.CustomPlugin.ModelBaseRecordClassGenerated | src/main/java/org/mybatis/generator/plugins/custom/CustomPlugin.java:157-164 | the class gains the Lombok step and then, unless it threw, the Swagger step; the hook returns true or rethrows |
| PluginsCustom.CustomPlugin.ModelPrimaryKeyClassGenerated | src/main/java/org/mybatis/generator/plugins/custom/CustomPlugin.java:167-174 | the same effect as the base-record hook |
| PluginsCustom.CustomPlugin.ModelRecordWithBLOBsClassGenerated | src/main/java/org/mybatis/generator/plugins/custom/CustomPlugin.java:176-183 | the same effect as the base-record hook |
| PluginsCustom.CustomPlugin.AddLombokToTopLevelClass | src/main/java/org/mybatis/generator/plugins/custom/CustomPlugin.java:269-295 | the class gains the annotations and imports of the path the properties select; the method returns how that path ended |
| PluginsCustom.CustomPlugin.AddSwaggerToTopLevelClass | src/main/java/org/mybatis/generator/plugins/custom/CustomPlugin.java:300-308 | with Swagger on, the class gains the ApiModel import and @ApiModel(description = "<domain object>"); otherwise it is unchanged |
| PluginsCustom.CustomPlugin.AddAnnotation | src/main/java/org/mybatis/generator/plugins/custom/CustomPlugin.java:311-316 | each constant's annotation is appended in order and its package imported |
| Plugins.PkyUnconfiguredAddsDefaultBundle | src/main/java/org/mybatis/generator/plugins/PkyPlugin.java:109-119 | without directives the class gains DATA's annotation, then @NoArgsConstructor, @AllArgsConstructor, @Builder, and exactly the imports DATA's package, lombok.NoArgsConstructor, lombok.AllArgsConstructor and lombok.Builder; "without directives" is enableLombok (src/main/java/org/mybatis/generator/plugins/PkyPlugin.java:82-84) being false: customLombok null or empty |
| Plugins.DefaultBundleEffect | src/main/java/org/mybatis/generator/plugins/PkyPlugin.java:109-119 | the hand-written default bundle has the effect of addAnnotation over DATA and the table's NO_ARGS_CONSTRUCTOR, ALL_ARGS_CONSTRUCTOR and BUILDER constants |
| Plugins.DefaultBundleAsEntries | src/main/java/org/mybatis/generator/plugins/PkyPlugin.java:113-118 | addAnnotation over those four constants adds exactly the hand-written annotations, in order, and the hand-written imports |
| Plugins.ResolveByFallbackNonEmpty | src/main/java/org/mybatis/generator/plugins/PkyPlugin.java:98-101 | non-empty tokens are all added in order, each with "lombok." + token.substring(1) |
| Plugins.FallbackPathAddsEveryToken | src/main/java/org/mybatis/generator/plugins/PkyPlugin.java:96-101 | with no lombokPackage and no empty token, the class gains exactly the split tokens and their synthesised imports; each token imports "lombok." + token.substring(1) (src/main/java/org/mybatis/generator/plugins/PkyPlugin.java:99-100) |
| Plugins.ResolveByFallbackFirstEmpty | src/main/java/org/mybatis/generator/plugins/PkyPlugin.java:98-101 | the first empty token is added and then substring(1) throws; only earlier tokens are imported |
| Plugins.FallbackPathEmptyTokenThrows | src/main/java/org/mybatis/generator/plugins/PkyPlugin.java:96-101 | an empty directive token makes the hook throw StringIndexOutOfBoundsException after adding the tokens up to it; the throw is token.substring(1) on the empty token (src/main/java/org/mybatis/generator/plugins/PkyPlugin.java:99-100) |
| Plugins.PkyPlugin.constructor | src/main/java/org/mybatis/generator/plugins/PkyPlugin.java:14-19 | no property is set; the plugin holds the given DATA pair |
| Plugins.PkyPlugin.SetProperties | src/main/java/org/mybatis/generator/plugins/PkyPlugin.java:23-30 | the four fields take the values of customLombok, lombokPackage, enableSwagger and needInsertBatch |
| Plugins.PkyPlugin.ModelBaseRecordClassGenerated | src/main/java/org/mybatis/generator/plugins/PkyPlugin.java:37-44 | the class gains the Lombok step and then, unless it threw, the Swagger step; the hook returns true or rethrows |
| Plugins.PkyPlugin.ModelPrimaryKeyClassGenerated | src/main/java/org/mybatis/generator/plugins/PkyPlugin.java:47-54 | the same effect as the base-record hook |
| Plugins.PkyPlugin.ModelRecordWithBLOBsClassGenerated | src/main/java/org/mybatis/generator/plugins/PkyPlugin.java:56-63 | the same effect as the base-record hook |
| Plugins.PkyPlugin.AddLombokToTopLevelClass | src/main/java/org/mybatis/generator/plugins/PkyPlugin.java:94-121 | the class gains the annotations and imports of the registry-free, positional or hand-written default path; the method returns how it ended |
| Plugins.PkyPlugin.AddSwaggerToTopLevelClass | src/main/java/org/mybatis/generator/plugins/PkyPlugin.java:123-129 | with Swagger on, the class gains @ApiModel and its import (annotation first, the resulting state is the same); otherwise it is unchanged |
| Revisions.RegistryAgreesWithFallback | src/main/java/org/mybatis/generator/plugins/custom/CustomPlugin.java:273-282 | every token but the Accessors directive, the empty token included, resolves through CustomPlugin's registry as it does without one in PkyPlugin; the fallback side is PkyPlugin's token.substring(1) (src/main/java/org/mybatis/generator/plugins/PkyPlugin.java:99-100), which throws on the empty token |
| Revisions.ResolutionsAgree | src/main/java/org/mybatis/generator/plugins/custom/CustomPlugin.java:273-282 | a token list without the Accessors directive resolves identically in both revisions |
| Revisions.ClassHooksAgree | src/main/java/org/mybatis/generator/plugins/custom/CustomPlugin.java:157-164 | with DATA = ("@Data", "lombok.Data"), CustomPlugin's and PkyPlugin's class hooks have the same effect for every configuration whose registry path holds no Accessors directive |
| Revisions.SingleDirectiveInRegistry | src/main/java/org/mybatis/generator/plugins/custom/CustomPlugin.java:273-282 | a single comma-free directive the registry knows adds itself and its registry package |
| Revisions.SingleDirectiveWithoutRegistry | src/main/java/org/mybatis/generator/plugins/PkyPlugin.java:98-101 | a single comma-free directive adds itself and "lombok." + its text after '@' |
| Revisions.AccessorsInRegistry | src/main/java/org/mybatis/generator/plugins/custom/CustomPlugin.java:27-32 | CustomPlugin's registry maps the Accessors directive to lombok.experimental.Accessors |
| Revisions.AccessorsHasNoComma | src/main/java/org/mybatis/generator/plugins/enums/LombokEnum.java:19 | the Accessors directive is non-empty and holds no comma, so split keeps it whole |
| Revisions.AccessorsDirectiveInRegistry | src/main/java/org/mybatis/generator/plugins/custom/CustomPlugin.java:275-280 | in CustomPlugin, customLombok = "@Accessors(chain = true)" imports lombok.experimental.Accessors |
| Revisions.AccessorsDirectiveWithoutRegistry | src/main/java/org/mybatis/generator/plugins/PkyPlugin.java:100 | in PkyPlugin the same directive imports "lombok.Accessors(chain = true)", which is not a type name |

## Left out

- `org.mybatis.generator.enums.LombokEnum` is not part of this model. It is
  the table PkyPlugin takes its DATA constant from, so `PkyPlugin` is given
  DATA's (annotation, package) pair when it is built.
- `MethodGenerator` (`utils/MethodGenerator.java`) is not modelled, because
  none of the plugins' hooks calls it.
- `validate` always returns true, and the host never depends on more than
  that, so it is not modelled.
- `addInsertMulti`, `addInsertMultiXMLMapper` and `sqlMapDocumentGenerated`:
  the first two have empty effects (`addInsertMultiXMLMapper` only reads the
  context and does nothing in every branch), so they are not modelled.
  `needInsertMulti` is captured and `enableInsertMulti` is modelled, but
  nothing uses them.
- `PkyPlugin.addAnnotation()`: its body is empty and nothing calls it.
- In PkyPlugin, `needInsertBatch` is captured but no hook reads it.
  `enableInsertBatch`, `enableLombok` and `enableSwagger` are the
  `PluginsCustom` predicates over `PkyPlugin`'s fields. PkyPlugin's
  `validate` always returns true and is not modelled.
- The `super.*` calls into `PluginAdapter`:
  - `super.setProperties` is left out;
  - `super.clientGenerated` and the `super.model*ClassGenerated` calls are
    modelled by their default result, true.
- JavaBeansUtil.getValidPropertyName and the host's calculateAllFieldsClass
  are foreign calls. Their results are fields of the introspected table.
- `FullyQualifiedJavaType` parsing, and the host's filtering of imports
  (java.lang, same package):
  - imports are stored as plain fully qualified names;
  - the import set of `addImportedTypes` is added like a single import.
- Rendering the generated Java, and the XML mapper, are not modelled.
- `Method` is built as one value at the end, not by a sequence of setter
  calls. Nothing reads it before it is handed to the interface, so the end
  state is the same.
- `ClientGenerated` does not take the `topLevelClass` parameter, because
  nothing in the hook reads it.
- `EqualsIgnoreCase` folds ASCII letters only. For the one word the plugins
  compare, "true", this is exact: in Java no non-ASCII character
  upper-cases to T, R, U or E or lower-cases to t, r, u or e, so
  `IsTrueIgnoreCaseIff` describes Java's `equalsIgnoreCase` completely.
- Strings are sequences of Unicode scalar values, while Java strings are
  UTF-16. For a directive token that starts with a supplementary character
  (outside the Basic Multilingual Plane), Java's `annotation.substring(1)`
  (`CustomPlugin.java:277`, `PkyPlugin.java:100`) keeps a lone low surrogate,
  while the model's `token[1..]` drops the whole character. The synthesised
  import differs for such tokens only.
- Exceptions other than the two the plugins raise themselves are not
  modelled, such as a null `introspectedColumn.getActualColumnName()` or a
  null `getJavaProperty()`. Strings in the model are never null.
- Revisions.ClassHooksAgree: holds only when DATA is ("@Data",
  "lombok.Data"), because PkyPlugin's DATA comes from the enum that is not
  part of this model.
