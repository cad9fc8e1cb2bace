/** org.mybatis.generator.plugins.PkyPlugin: the older revision of the class
    hooks. It has no registry: a directive token always imports "lombok."
    followed by the token without its first character. Its default bundle is
    written out by hand, and its DATA constant comes from an enum that is
    not part of this model, so the plugin is given that constant's
    (annotation, package) pair when it is built.

    PkyPlugin's toggles and accessor hooks have the same text as
    CustomPlugin's and are the predicates of PluginsCustom; so is the
    Swagger annotation it adds to classes. */
module Plugins {
  import opened JavaLang
  import opened Dom
  import opened Registry
  import opened Directives
  import opened PluginsCustom
  import PluginsEnums

  /** One token of the registry-free path: substring(1) of an empty token
      throws StringIndexOutOfBoundsException. */
  function FallbackResolution(token: string): Resolution {
    if token == [] then Throws(token, StringIndexOutOfBounds) else Resolved(token, FallbackImport(token))
  }

  function ResolveByFallback(tokens: seq<string>): (r: seq<Resolution>)
    ensures |r| == |tokens|
  {
    seq(|tokens|, i requires 0 <= i < |tokens| => FallbackResolution(tokens[i]))
  }

  /** What the hand-written default bundle adds: DATA, then three literal
      annotations, with DATA's package and three literal imports. */
  function DefaultBundleEffect(data: Entry): (e: Effect)
    ensures e == Apply(EntryResolutions([data, PluginsEnums.NoArgsConstructor,
                                         PluginsEnums.AllArgsConstructor, PluginsEnums.Builder]))
  {
    DefaultBundleAsEntries(data);
    Effect([data.annotation, "@NoArgsConstructor", "@AllArgsConstructor", "@Builder"],
           {data.pkg, "lombok.NoArgsConstructor", "lombok.AllArgsConstructor", "lombok.Builder"},
           Normal)
  }

  /** The hand-written literals are the table's NO_ARGS_CONSTRUCTOR,
      ALL_ARGS_CONSTRUCTOR and BUILDER pairs. */
  lemma DefaultBundleAsEntries(data: Entry)
    ensures Apply(EntryResolutions([data, PluginsEnums.NoArgsConstructor,
                                    PluginsEnums.AllArgsConstructor, PluginsEnums.Builder]))
            == Effect([data.annotation, "@NoArgsConstructor", "@AllArgsConstructor", "@Builder"],
                      {data.pkg, "lombok.NoArgsConstructor", "lombok.AllArgsConstructor", "lombok.Builder"},
                      Normal)
  {
    var es := [data, PluginsEnums.NoArgsConstructor, PluginsEnums.AllArgsConstructor, PluginsEnums.Builder];
    EntriesApply(es);
    PluginsEnums.DefaultBundleSpelling();
    BundleAnnotations(es);
    BundlePackages(es);
  }

  lemma BundleAnnotations(es: seq<Entry>)
    requires |es| == 4
    requires es[1] == Entry("@NoArgsConstructor", "lombok.NoArgsConstructor")
    requires es[2] == Entry("@AllArgsConstructor", "lombok.AllArgsConstructor")
    requires es[3] == Entry("@Builder", "lombok.Builder")
    ensures EntryAnnotations(es) == [es[0].annotation, "@NoArgsConstructor", "@AllArgsConstructor", "@Builder"]
  {
  }

  lemma BundlePackages(es: seq<Entry>)
    requires |es| == 4
    requires es[1] == Entry("@NoArgsConstructor", "lombok.NoArgsConstructor")
    requires es[2] == Entry("@AllArgsConstructor", "lombok.AllArgsConstructor")
    requires es[3] == Entry("@Builder", "lombok.Builder")
    ensures EntryPackages(es) == {es[0].pkg, "lombok.NoArgsConstructor", "lombok.AllArgsConstructor", "lombok.Builder"}
  {
    assert forall x :: x in es <==> x == es[0] || x == es[1] || x == es[2] || x == es[3];
  }

  /** What addLombokToTopLevelClass does to a class. */
  function PkyLombokEffect(data: Entry, customLombok: Option<string>, lombokPackage: Option<string>): Effect {
    if !EnableLombok(customLombok) then DefaultBundleEffect(data)
    else
      var tokens := Split(customLombok.value, ',');
      if lombokPackage.None? || |lombokPackage.value| == 0 then Apply(ResolveByFallback(tokens))
      else Apply(ResolveByPosition(tokens, Split(lombokPackage.value, ',')))
  }

  /** What each of the three model class hooks does. */
  function PkyClassHookEffect(data: Entry, customLombok: Option<string>, lombokPackage: Option<string>,
                              needSwagger: Option<string>, table: IntrospectedTable): Effect
  {
    Then(PkyLombokEffect(data, customLombok, lombokPackage), SwaggerEffect(needSwagger, table.domainObjectName))
  }

  /** Unconfigured, the class gains DATA's annotation and the three literal
      ones, with DATA's package and the three literal imports, whatever
      lombokPackage says. */
  lemma PkyUnconfiguredAddsDefaultBundle(data: Entry, customLombok: Option<string>, lombokPackage: Option<string>)
    requires !EnableLombok(customLombok)
    ensures var e := PkyLombokEffect(data, customLombok, lombokPackage);
            && e.outcome == Normal
            && |e.annotations| == 4 && e.annotations[0] == data.annotation
            && e.annotations[1..] == ["@NoArgsConstructor", "@AllArgsConstructor", "@Builder"]
            && e.imports == {data.pkg, "lombok.NoArgsConstructor", "lombok.AllArgsConstructor", "lombok.Builder"}
  {
  }

  /** Registry-free path, every token non-empty: the tokens are added in
      order, each with "lombok." + token.substring(1). */
  lemma FallbackPathAddsEveryToken(data: Entry, s: string, lombokPackage: Option<string>)
    requires s != []
    requires lombokPackage.None? || lombokPackage.value == []
    requires forall t :: t in Split(s, ',') ==> t != []
    ensures PkyLombokEffect(data, Some(s), lombokPackage)
            == Effect(Split(s, ','), (set t | t in Split(s, ',') && t != [] :: FallbackImport(t)), Normal)
  {
    ResolveByFallbackNonEmpty(Split(s, ','));
  }

  /** Registry-free resolution of non-empty tokens. */
  lemma ResolveByFallbackNonEmpty(tokens: seq<string>)
    requires forall t :: t in tokens ==> t != []
    ensures Apply(ResolveByFallback(tokens))
            == Effect(tokens, (set t | t in tokens && t != [] :: FallbackImport(t)), Normal)
  {
    var res := ResolveByFallback(tokens);
    var imports := set t | t in tokens && t != [] :: FallbackImport(t);
    forall i | 0 <= i < |res| ensures tokens[i] != [] && res[i] == Resolved(tokens[i], FallbackImport(tokens[i])) {
      assert tokens[i] in tokens;
    }
    ApplyAllResolved(res);
    AnnotationsOfPointwise(res, tokens);
    forall p | p in PackagesOf(res) ensures p in imports {
      var i :| 0 <= i < |res| && res[i].Resolved? && res[i].pkg == p;
      assert tokens[i] in tokens;
    }
    forall p | p in imports ensures p in PackagesOf(res) {
      var t :| t in tokens && t != [] && FallbackImport(t) == p;
      var i :| 0 <= i < |tokens| && tokens[i] == t;
      assert res[i].pkg == p;
    }
    assert PackagesOf(res) == imports;
  }

  /** Registry-free path with an empty token (as in ",@Data"): the tokens
      before it are applied, its own annotation is added without an import,
      and the hook throws StringIndexOutOfBoundsException. */
  lemma FallbackPathEmptyTokenThrows(data: Entry, s: string, lombokPackage: Option<string>, k: nat)
    requires s != []
    requires lombokPackage.None? || lombokPackage.value == []
    requires k < |Split(s, ',')| && Split(s, ',')[k] == []
    requires forall j :: 0 <= j < k ==> Split(s, ',')[j] != []
    ensures PkyLombokEffect(data, Some(s), lombokPackage)
            == Effect(Split(s, ',')[..k + 1],
                      (set t | t in Split(s, ',')[..k] && t != [] :: FallbackImport(t)),
                      Thrown(StringIndexOutOfBounds))
  {
    ResolveByFallbackFirstEmpty(Split(s, ','), k);
  }

  /** Fallback resolution of tokens whose first empty one is token k. */
  lemma ResolveByFallbackFirstEmpty(tokens: seq<string>, k: nat)
    requires k < |tokens| && tokens[k] == [] && forall j :: 0 <= j < k ==> tokens[j] != []
    ensures Apply(ResolveByFallback(tokens))
            == Effect(tokens[..k + 1], (set t | t in tokens[..k] && t != [] :: FallbackImport(t)),
                      Thrown(StringIndexOutOfBounds))
  {
    var res := ResolveByFallback(tokens);
    assert AllResolved(res[..k]);
    ApplyFirstThrow(res, k);
    AnnotationsOfPointwise(res[..k + 1], tokens[..k + 1]);
    var pre := tokens[..k];
    var imports := set t | t in pre && t != [] :: FallbackImport(t);
    forall p | p in PackagesOf(res[..k]) ensures p in imports {
      var i :| 0 <= i < k && res[..k][i].Resolved? && res[..k][i].pkg == p;
      assert pre[i] == tokens[i];
    }
    forall p | p in imports ensures p in PackagesOf(res[..k]) {
      var t :| t in pre && t != [] && FallbackImport(t) == p;
      var i :| 0 <= i < k && pre[i] == t;
      assert res[..k][i].pkg == p;
    }
    assert PackagesOf(res[..k]) == imports;
  }


  class PkyPlugin {
    var customLombok: Option<string>
    var lombokPackage: Option<string>
    var needSwagger: Option<string>
    var needInsertBatch: Option<string>
    /** org.mybatis.generator.enums.LombokEnum.DATA. */
    const data: Entry

    constructor (data: Entry)
      ensures this.data == data
      ensures customLombok.None? && lombokPackage.None? && needSwagger.None? && needInsertBatch.None?
    {
      this.data := data;
      customLombok := None;
      lombokPackage := None;
      needSwagger := None;
      needInsertBatch := None;
    }

    /** Captures the four properties the plugin reads. */
    method SetProperties(properties: map<string, string>)
      modifies this
      ensures customLombok == GetProperty(properties, "customLombok")
      ensures lombokPackage == GetProperty(properties, "lombokPackage")
      ensures needSwagger == GetProperty(properties, "enableSwagger")
      ensures needInsertBatch == GetProperty(properties, "needInsertBatch")
    {
      customLombok := GetProperty(properties, "customLombok");
      lombokPackage := GetProperty(properties, "lombokPackage");
      needSwagger := GetProperty(properties, "enableSwagger");
      needInsertBatch := GetProperty(properties, "needInsertBatch");
    }

    /** modelBaseRecordClassGenerated. */
    method ModelBaseRecordClassGenerated(topLevelClass: TopLevelClass, table: IntrospectedTable) returns (r: Completion<bool>)
      modifies topLevelClass
      ensures var e := PkyClassHookEffect(data, customLombok, lombokPackage, needSwagger, table);
              && topLevelClass.annotations == old(topLevelClass.annotations) + e.annotations
              && topLevelClass.importedTypes == old(topLevelClass.importedTypes) + e.imports
              && r == Completes(e.outcome, true)
    {
      ghost var before := topLevelClass.annotations;
      var outcome := AddLombokToTopLevelClass(topLevelClass);
      if outcome.Thrown? {
        return Threw(outcome.exception);
      }
      AddSwaggerToTopLevelClass(topLevelClass, table);
      ConcatAssoc(before, PkyLombokEffect(data, customLombok, lombokPackage).annotations,
                  SwaggerEffect(needSwagger, table.domainObjectName).annotations);
      r := Returned(true);
    }

    /** modelPrimaryKeyClassGenerated. */
    method ModelPrimaryKeyClassGenerated(topLevelClass: TopLevelClass, table: IntrospectedTable) returns (r: Completion<bool>)
      modifies topLevelClass
      ensures var e := PkyClassHookEffect(data, customLombok, lombokPackage, needSwagger, table);
              && topLevelClass.annotations == old(topLevelClass.annotations) + e.annotations
              && topLevelClass.importedTypes == old(topLevelClass.importedTypes) + e.imports
              && r == Completes(e.outcome, true)
    {
      ghost var before := topLevelClass.annotations;
      var outcome := AddLombokToTopLevelClass(topLevelClass);
      if outcome.Thrown? {
        return Threw(outcome.exception);
      }
      AddSwaggerToTopLevelClass(topLevelClass, table);
      ConcatAssoc(before, PkyLombokEffect(data, customLombok, lombokPackage).annotations,
                  SwaggerEffect(needSwagger, table.domainObjectName).annotations);
      r := Returned(true);
    }

    /** modelRecordWithBLOBsClassGenerated. */
    method ModelRecordWithBLOBsClassGenerated(topLevelClass: TopLevelClass, table: IntrospectedTable) returns (r: Completion<bool>)
      modifies topLevelClass
      ensures var e := PkyClassHookEffect(data, customLombok, lombokPackage, needSwagger, table);
              && topLevelClass.annotations == old(topLevelClass.annotations) + e.annotations
              && topLevelClass.importedTypes == old(topLevelClass.importedTypes) + e.imports
              && r == Completes(e.outcome, true)
    {
      ghost var before := topLevelClass.annotations;
      var outcome := AddLombokToTopLevelClass(topLevelClass);
      if outcome.Thrown? {
        return Threw(outcome.exception);
      }
      AddSwaggerToTopLevelClass(topLevelClass, table);
      ConcatAssoc(before, PkyLombokEffect(data, customLombok, lombokPackage).annotations,
                  SwaggerEffect(needSwagger, table.domainObjectName).annotations);
      r := Returned(true);
    }

    method AddLombokToTopLevelClass(topLevelClass: TopLevelClass) returns (outcome: Outcome)
      modifies topLevelClass
      ensures var e := PkyLombokEffect(data, customLombok, lombokPackage);
              && topLevelClass.annotations == old(topLevelClass.annotations) + e.annotations
              && topLevelClass.importedTypes == old(topLevelClass.importedTypes) + e.imports
              && outcome == e.outcome
    {
      if EnableLombok(customLombok) {
        var customLombokAnnotations := Split(customLombok.value, ',');
        if lombokPackage.None? || |lombokPackage.value| == 0 {
          outcome := AppendAll(topLevelClass, ResolveByFallback(customLombokAnnotations));
        } else {
          var lombokPackages := Split(lombokPackage.value, ',');
          outcome := AppendAll(topLevelClass, ResolveByPosition(customLombokAnnotations, lombokPackages));
        }
      } else {
        topLevelClass.AddAnnotation(data.annotation);
        topLevelClass.AddImportedType(data.pkg);

        topLevelClass.AddAnnotation("@NoArgsConstructor");
        topLevelClass.AddAnnotation("@AllArgsConstructor");
        topLevelClass.AddAnnotation("@Builder");
        topLevelClass.AddImportedType("lombok.NoArgsConstructor");
        topLevelClass.AddImportedType("lombok.AllArgsConstructor");
        topLevelClass.AddImportedType("lombok.Builder");
        outcome := Normal;
      }
    }

    method AddSwaggerToTopLevelClass(topLevelClass: TopLevelClass, table: IntrospectedTable)
      modifies topLevelClass
      ensures var e := SwaggerEffect(needSwagger, table.domainObjectName);
              && topLevelClass.annotations == old(topLevelClass.annotations) + e.annotations
              && topLevelClass.importedTypes == old(topLevelClass.importedTypes) + e.imports
    {
      if EnableSwagger(needSwagger) {
        topLevelClass.AddAnnotation("@ApiModel(description = \"" + table.domainObjectName + "\")");
        topLevelClass.AddImportedType("io.swagger.annotations.ApiModel");
      }
    }
  }
}
