/** The (annotation, package) pair every LombokEnum constant carries, and the
    map a HashMap holds after the pairs of a table are put into it one after
    the other. */
module Registry {

  /** What EnumInterface exposes of a constant: getAnnotation() and getPkg(). */
  datatype Entry = Entry(annotation: string, pkg: string)

  /** The map after put(e.annotation, e.pkg) for each e of es in order; a
      later put of the same key replaces the earlier value. */
  function ToMap(es: seq<Entry>): (m: map<string, string>)
    ensures m.Keys == set e | e in es :: e.annotation
    decreases |es|
  {
    if es == [] then map[]
    else
      var init := es[..|es| - 1];
      var last := es[|es| - 1];
      assert forall e :: e in es <==> e in init || e == last;
      ToMap(init)[last.annotation := last.pkg]
  }

  /** The import synthesised for a token no table knows: "lombok." followed
      by the token without its first character (token.substring(1)). */
  function FallbackImport(token: string): string
    requires token != []
  {
    "lombok." + token[1..]
  }

  /** The annotations of es, in order. */
  function EntryAnnotations(es: seq<Entry>): (r: seq<string>)
    ensures |r| == |es| && forall i :: 0 <= i < |es| ==> r[i] == es[i].annotation
  {
    seq(|es|, i requires 0 <= i < |es| => es[i].annotation)
  }

  /** The packages of es. */
  function EntryPackages(es: seq<Entry>): set<string> {
    set e | e in es :: e.pkg
  }

  predicate DistinctAnnotations(es: seq<Entry>) {
    forall i, j :: 0 <= i < j < |es| ==> es[i].annotation != es[j].annotation
  }

  /** When no annotation repeats, every entry's annotation looks up its own
      package. */
  lemma {:induction false} ToMapLookup(es: seq<Entry>, i: nat)
    requires DistinctAnnotations(es) && i < |es|
    ensures es[i].annotation in ToMap(es) && ToMap(es)[es[i].annotation] == es[i].pkg
    decreases |es|
  {
    if i < |es| - 1 {
      var init := es[..|es| - 1];
      assert init[i] == es[i];
      ToMapLookup(init, i);
    }
  }

  /** When no annotation repeats, the map has one key per entry. */
  lemma {:induction false} ToMapSize(es: seq<Entry>)
    requires DistinctAnnotations(es)
    ensures |ToMap(es)| == |es|
    decreases |es|
  {
    if es != [] {
      var init := es[..|es| - 1];
      var last := es[|es| - 1];
      ToMapSize(init);
      assert last.annotation !in ToMap(init);
    }
  }
}
