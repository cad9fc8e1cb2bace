/** org.mybatis.generator.plugins.enums.LombokEnum: the fixed table of Lombok
    annotations CustomPlugin knows, each with the type it must import. */
module PluginsEnums {
  import opened JavaLang
  import opened Registry

  /** The shape of every constant but ACCESSORS: the annotation "@" + name,
      imported from "lombok." + name (DATA is ("@Data", "lombok.Data")). */
  function Named(name: string): (e: Entry)
    ensures e.annotation == "@" + name && e.pkg == "lombok." + name
  {
    Entry("@" + name, "lombok." + name)
  }

  const Data := Named("Data")
  const Setter := Named("Setter")
  const Getter := Named("Getter")
  const Builder := Named("Builder")
  const Accessors := Entry("@" + "Accessors(chain = true)", "lombok.experimental.Accessors")
  const NoArgsConstructor := Named("NoArgsConstructor")
  const AllArgsConstructor := Named("AllArgsConstructor")
  const RequiredArgsConstructor := Named("RequiredArgsConstructor")

  /** LombokEnum.values(), in declaration order. */
  const Values: seq<Entry> :=
    [Data, Setter, Getter, Builder, Accessors, NoArgsConstructor, AllArgsConstructor, RequiredArgsConstructor]

  /** The table has eight entries and no annotation occurs twice. */
  lemma TableShape()
    ensures |Values| == 8 && DistinctAnnotations(Values)
  {
    var names := ["Data", "Setter", "Getter", "Builder", "Accessors(chain = true)",
                  "NoArgsConstructor", "AllArgsConstructor", "RequiredArgsConstructor"];
    assert forall i :: 0 <= i < 8 ==> Values[i].annotation == "@" + names[i];
    forall i, j | 0 <= i < j < 8 ensures Values[i].annotation != Values[j].annotation {
      assert names[i] != names[j];
      assert ("@" + names[i])[1..] == names[i] && ("@" + names[j])[1..] == names[j];
    }
  }

  /** Every annotation is written with its '@' and every package lies under
      lombok. */
  lemma TablePrefixes()
    ensures forall e :: e in Values ==> StartsWith(e.annotation, "@") && StartsWith(e.pkg, "lombok.")
  {
  }

  /** e's package is the import synthesised from its annotation. */
  predicate PkgIsFallback(e: Entry) {
    e.annotation != [] && e.pkg == FallbackImport(e.annotation)
  }

  /** A named constant's package is the import synthesised from its
      annotation. */
  lemma NamedIsFallback(name: string)
    ensures PkgIsFallback(Named(name))
  {
    assert Named(name).annotation[1..] == name;
  }

  /** The four constants CustomPlugin adds when no directives are
      configured, spelled out. */
  lemma DefaultBundleSpelling()
    ensures Data == Entry("@Data", "lombok.Data")
    ensures NoArgsConstructor == Entry("@NoArgsConstructor", "lombok.NoArgsConstructor")
    ensures AllArgsConstructor == Entry("@AllArgsConstructor", "lombok.AllArgsConstructor")
    ensures Builder == Entry("@Builder", "lombok.Builder")
  {
    NoArgsConstructorSpelling();
    AllArgsConstructorSpelling();
  }

  // Proof step of DefaultBundleSpelling: one string at a time keeps each proof small.
  lemma NoArgsConstructorSpelling()
    ensures NoArgsConstructor == Entry("@NoArgsConstructor", "lombok.NoArgsConstructor")
  {
    NoArgsConstructorAnnotationSpelling();
    NoArgsConstructorPkgSpelling();
  }

  // Proof step of NoArgsConstructorSpelling: one string at a time keeps each proof small.
  lemma NoArgsConstructorAnnotationSpelling()
    ensures NoArgsConstructor.annotation == "@NoArgsConstructor"
  {
  }

  // Proof step of NoArgsConstructorSpelling: one string at a time keeps each proof small.
  lemma NoArgsConstructorPkgSpelling()
    ensures NoArgsConstructor.pkg == "lombok.NoArgsConstructor"
  {
  }

  // Proof step of DefaultBundleSpelling: one string at a time keeps each proof small.
  lemma AllArgsConstructorSpelling()
    ensures AllArgsConstructor == Entry("@AllArgsConstructor", "lombok.AllArgsConstructor")
  {
    AllArgsConstructorAnnotationSpelling();
    AllArgsConstructorPkgSpelling();
  }

  // Proof step of AllArgsConstructorSpelling: one string at a time keeps each proof small.
  lemma AllArgsConstructorAnnotationSpelling()
    ensures AllArgsConstructor.annotation == "@AllArgsConstructor"
  {
  }

  // Proof step of AllArgsConstructorSpelling: one string at a time keeps each proof small.
  lemma AllArgsConstructorPkgSpelling()
    ensures AllArgsConstructor.pkg == "lombok.AllArgsConstructor"
  {
  }

  /** For every entry but Accessors the package is "lombok." followed by the
      annotation without its '@', which is the import CustomPlugin
      synthesises for a token the table does not know. */
  lemma FallbackAgreesExceptAccessors()
    ensures forall e :: e in Values && e != Accessors ==> PkgIsFallback(e)
  {
    var names := ["Data", "Setter", "Getter", "Builder", "",
                  "NoArgsConstructor", "AllArgsConstructor", "RequiredArgsConstructor"];
    forall i | 0 <= i < 8 && i != 4 ensures PkgIsFallback(Values[i]) {
      assert Values[i] == Named(names[i]);
      NamedIsFallback(names[i]);
    }
  }

  /** Accessors carries the argument list "(chain = true)" in its token and
      lives in lombok.experimental, so the synthesised import would differ. */
  lemma AccessorsIsTheException()
    ensures Accessors.annotation == "@Accessors" + "(chain = true)"
    ensures Accessors.pkg == "lombok.experimental.Accessors"
    ensures !PkgIsFallback(Accessors)
  {
  }
}
