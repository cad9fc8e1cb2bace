/** org.mybatis.generator.custom.enums.LombokEnum: the same eight-entry table
    as the plugins package's, plus a static map from annotation to package
    that the class's static initialiser fills once. */
module CustomEnums {
  import opened JavaLang
  import opened Registry
  import PluginsEnums

  /** Every constant but ACCESSORS is "@" + name imported from
      "lombok." + name, as in the plugins package's table. */
  const Data := PluginsEnums.Named("Data")
  const Setter := PluginsEnums.Named("Setter")
  const Getter := PluginsEnums.Named("Getter")
  const Builder := PluginsEnums.Named("Builder")
  const Accessors := Entry("@" + "Accessors(chain = true)", "lombok.experimental.Accessors")
  const NoArgsConstructor := PluginsEnums.Named("NoArgsConstructor")
  const AllArgsConstructor := PluginsEnums.Named("AllArgsConstructor")
  const RequiredArgsConstructor := PluginsEnums.Named("RequiredArgsConstructor")

  /** LombokEnum.values(), in declaration order. */
  const Values: seq<Entry> :=
    [Data, Setter, Getter, Builder, Accessors, NoArgsConstructor, AllArgsConstructor, RequiredArgsConstructor]

  /** The static block: a HashMap filled by one put per constant, in order. */
  method StaticInit() returns (lombokEnumMap: map<string, string>)
    ensures lombokEnumMap == ToMap(Values)
  {
    var enums := Values;
    lombokEnumMap := map[];
    for i := 0 to |enums|
      invariant lombokEnumMap == ToMap(enums[..i])
    {
      assert enums[..i + 1][..i] == enums[..i];
      lombokEnumMap := lombokEnumMap[enums[i].annotation := enums[i].pkg];
    }
    assert enums[..|enums|] == enums;
  }

  /** getLombokEnumMap(): the map the static block built. It has exactly the
      eight annotations as keys, and each looks up its constant's package. */
  function GetLombokEnumMap(): (m: map<string, string>)
    ensures |m| == 8
    ensures forall k :: k in m <==> exists e :: e in Values && e.annotation == k
    ensures forall e :: e in Values ==> e.annotation in m && m[e.annotation] == e.pkg
  {
    SameTableAsPluginsEnums();
    PluginsEnums.TableShape();
    ToMapSize(Values);
    forall e | e in Values ensures e.annotation in ToMap(Values) && ToMap(Values)[e.annotation] == e.pkg {
      var i :| 0 <= i < |Values| && Values[i] == e;
      ToMapLookup(Values, i);
    }
    ToMap(Values)
  }

  /** A string that is none of the eight annotations misses. */
  lemma LookupMisses(k: string)
    requires forall e :: e in Values ==> e.annotation != k
    ensures k !in GetLombokEnumMap()
  {
  }

  /** The table agrees entry by entry with the plugins package's table. */
  lemma SameTableAsPluginsEnums()
    ensures Values == PluginsEnums.Values
  {
  }
}
