/** CustomPlugin against its older revision PkyPlugin: with the table's DATA
    constant, both revisions put the same annotations and imports on every
    model class, except that CustomPlugin's registry imports the Accessors
    directive from lombok.experimental where PkyPlugin synthesises an
    import from the whole token. */
module Revisions {
  import opened JavaLang
  import opened Dom
  import opened Registry
  import PluginsEnums
  import opened Directives
  import PluginsCustom
  import Plugins

  /** Every token but the Accessors directive resolves in CustomPlugin's
      registry exactly as in the registry-free revision, the empty token
      included. */
  lemma RegistryAgreesWithFallback(token: string)
    requires token != PluginsEnums.Accessors.annotation
    ensures PluginsCustom.RegistryResolution(token, ToMap(PluginsEnums.Values)) == Plugins.FallbackResolution(token)
  {
    var m := ToMap(PluginsEnums.Values);
    if token in m {
      var e :| e in PluginsEnums.Values && e.annotation == token;
      var i :| 0 <= i < |PluginsEnums.Values| && PluginsEnums.Values[i] == e;
      PluginsEnums.TableShape();
      ToMapLookup(PluginsEnums.Values, i);
      PluginsEnums.FallbackAgreesExceptAccessors();
      assert PluginsEnums.PkgIsFallback(e);
    }
  }

  lemma ResolutionsAgree(tokens: seq<string>)
    requires forall t :: t in tokens ==> t != PluginsEnums.Accessors.annotation
    ensures PluginsCustom.ResolveByRegistry(tokens, ToMap(PluginsEnums.Values)) == Plugins.ResolveByFallback(tokens)
  {
    forall i | 0 <= i < |tokens|
      ensures PluginsCustom.RegistryResolution(tokens[i], ToMap(PluginsEnums.Values)) == Plugins.FallbackResolution(tokens[i])
    {
      assert tokens[i] in tokens;
      RegistryAgreesWithFallback(tokens[i]);
    }
  }

  /** With DATA = ("@Data", "lombok.Data"), the three class hooks of the two
      revisions have the same effect, provided that no directive in the
      registry path is the Accessors directive. */
  lemma ClassHooksAgree(customLombok: Option<string>, lombokPackage: Option<string>, needSwagger: Option<string>,
                        table: IntrospectedTable)
    requires PluginsCustom.EnableLombok(customLombok) && (lombokPackage.None? || lombokPackage.value == []) ==>
               forall t :: t in Split(customLombok.value, ',') ==> t != PluginsEnums.Accessors.annotation
    ensures PluginsCustom.ClassHookEffect(customLombok, lombokPackage, needSwagger, ToMap(PluginsEnums.Values), table)
            == Plugins.PkyClassHookEffect(PluginsEnums.Data, customLombok, lombokPackage, needSwagger, table)
  {
    if !PluginsCustom.EnableLombok(customLombok) {
      PluginsCustom.UnconfiguredAddsDefaultBundle(customLombok, lombokPackage, ToMap(PluginsEnums.Values));
      assert PluginsEnums.Data == Entry("@Data", "lombok.Data");
    } else if lombokPackage.None? || lombokPackage.value == [] {
      ResolutionsAgree(Split(customLombok.value, ','));
    }
  }

  /** A single directive without a comma, in the registry path. */
  lemma SingleDirectiveInRegistry(token: string, lombokPackage: Option<string>, registry: map<string, string>)
    requires token in registry && token != [] && ',' !in token
    requires lombokPackage.None? || lombokPackage.value == []
    ensures PluginsCustom.LombokEffect(Some(token), lombokPackage, registry) == Effect([token], {registry[token]}, Normal)
  {
    assert Split(token, ',') == [token];
    PluginsCustom.RegistryPathAddsEveryToken(token, lombokPackage, registry);
    assert (set t | t in [token] && t != [] :: PluginsCustom.RegistryImport(t, registry)) == {registry[token]};
  }

  /** A single directive without a comma, in the registry-free path. */
  lemma SingleDirectiveWithoutRegistry(data: Entry, token: string, lombokPackage: Option<string>)
    requires token != [] && ',' !in token
    requires lombokPackage.None? || lombokPackage.value == []
    ensures Plugins.PkyLombokEffect(data, Some(token), lombokPackage) == Effect([token], {FallbackImport(token)}, Normal)
  {
    assert Split(token, ',') == [token];
    Plugins.FallbackPathAddsEveryToken(data, token, lombokPackage);
    assert (set t | t in [token] && t != [] :: FallbackImport(t)) == {FallbackImport(token)};
  }

  /** The one directive where the revisions part. CustomPlugin's registry
      imports lombok.experimental.Accessors for it ... */
  lemma AccessorsDirectiveInRegistry(lombokPackage: Option<string>)
    requires lombokPackage.None? || lombokPackage.value == []
    ensures PluginsCustom.LombokEffect(Some(PluginsEnums.Accessors.annotation), lombokPackage, ToMap(PluginsEnums.Values))
            == Effect([PluginsEnums.Accessors.annotation], {"lombok.experimental.Accessors"}, Normal)
  {
    var m := ToMap(PluginsEnums.Values);
    AccessorsInRegistry(m);
    AccessorsHasNoComma();
    SingleDirectiveInRegistry(PluginsEnums.Accessors.annotation, lombokPackage, m);
  }

  lemma AccessorsInRegistry(m: map<string, string>)
    requires m == ToMap(PluginsEnums.Values)
    ensures PluginsEnums.Accessors.annotation in m && m[PluginsEnums.Accessors.annotation] == "lombok.experimental.Accessors"
  {
    PluginsEnums.TableShape();
    ToMapLookup(PluginsEnums.Values, 4);
  }

  lemma AccessorsHasNoComma()
    ensures PluginsEnums.Accessors.annotation != [] && ',' !in PluginsEnums.Accessors.annotation
  {
  }

  /** ... while PkyPlugin imports "lombok." followed by the token's text after
      '@', argument list included. */
  lemma AccessorsDirectiveWithoutRegistry(data: Entry, lombokPackage: Option<string>)
    requires lombokPackage.None? || lombokPackage.value == []
    ensures Plugins.PkyLombokEffect(data, Some(PluginsEnums.Accessors.annotation), lombokPackage)
            == Effect([PluginsEnums.Accessors.annotation], {"lombok." + "Accessors(chain = true)"}, Normal)
  {
    SingleDirectiveWithoutRegistry(data, PluginsEnums.Accessors.annotation, lombokPackage);
    assert PluginsEnums.Accessors.annotation[1..] == "Accessors(chain = true)";
  }
}
