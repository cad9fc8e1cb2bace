/** Applying resolved Lombok directives to a generated class. Each directive
    token is resolved to the import it needs, or to the exception the plugin
    raises while it computes that import. The annotation is always added
    first, so a throwing token leaves its annotation on the class without
    its import, and nothing after it is applied. */
module Directives {
  import opened JavaLang
  import opened Dom

  datatype Resolution =
    | Resolved(annotation: string, pkg: string)
    | Throws(annotation: string, exception: JavaException)

  /** What a run of hook code adds to a class: the annotations in the order
      they are appended, the imported types, and how the run ends. */
  datatype Effect = Effect(annotations: seq<string>, imports: set<string>, outcome: Outcome)

  /** The effect of appending res in order, stopping at the first throw. */
  function Apply(res: seq<Resolution>): (e: Effect)
    ensures |e.annotations| <= |res|
    ensures |e.imports| <= |e.annotations|
    decreases |res|
  {
    if res == [] then Effect([], {}, Normal)
    else
      var e := Apply(res[..|res| - 1]);
      if e.outcome.Thrown? then e
      else match res[|res| - 1]
        case Resolved(a, p) => Effect(e.annotations + [a], e.imports + {p}, Normal)
        case Throws(a, x) => Effect(e.annotations + [a], e.imports, Thrown(x))
  }

  /** One effect followed by another, unless the first one threw. */
  function Then(e1: Effect, e2: Effect): (e: Effect)
    ensures e1.outcome.Thrown? ==> e == e1
    ensures e1.outcome.Normal? ==> e.annotations == e1.annotations + e2.annotations
    ensures e1.outcome.Normal? ==> e.imports == e1.imports + e2.imports && e.outcome == e2.outcome
  {
    if e1.outcome.Thrown? then e1
    else Effect(e1.annotations + e2.annotations, e1.imports + e2.imports, e2.outcome)
  }

  /** Running two lists of directives one after the other is running the
      first and then, unless it threw, the second: Then is how the steps of
      a hook compose. */
  lemma {:induction false} ApplyConcat(a: seq<Resolution>, b: seq<Resolution>)
    ensures Apply(a + b) == Then(Apply(a), Apply(b))
    decreases |b|
  {
    if b == [] {
      assert a + b == a;
    } else {
      var b' := b[..|b| - 1];
      assert (a + b)[..|a + b| - 1] == a + b';
      assert (a + b)[|a + b| - 1] == b[|b| - 1];
      ApplyConcat(a, b');
      var ea := Apply(a);
      var eb' := Apply(b');
      if ea.outcome.Normal? && eb'.outcome.Normal? {
        ConcatAssoc(ea.annotations, eb'.annotations, [b[|b| - 1].annotation]);
      }
    }
  }

  predicate AllResolved(res: seq<Resolution>) {
    forall i :: 0 <= i < |res| ==> res[i].Resolved?
  }

  function AnnotationsOf(res: seq<Resolution>): seq<string> {
    seq(|res|, i requires 0 <= i < |res| => res[i].annotation)
  }

  function PackagesOf(res: seq<Resolution>): set<string> {
    set i | 0 <= i < |res| && res[i].Resolved? :: res[i].pkg
  }

  /** Resolutions whose annotations are xs, one by one. */
  lemma AnnotationsOfPointwise(res: seq<Resolution>, xs: seq<string>)
    requires |res| == |xs| && forall i :: 0 <= i < |res| ==> res[i].annotation == xs[i]
    ensures AnnotationsOf(res) == xs
  {
  }

  lemma AnnotationsOfSnoc(res: seq<Resolution>)
    requires res != []
    ensures AnnotationsOf(res) == AnnotationsOf(res[..|res| - 1]) + [res[|res| - 1].annotation]
  {
    var init := res[..|res| - 1];
    assert forall i :: 0 <= i < |init| ==> AnnotationsOf(res)[i] == AnnotationsOf(init)[i];
  }

  lemma PackagesOfSnoc(res: seq<Resolution>)
    requires res != [] && res[|res| - 1].Resolved?
    ensures PackagesOf(res) == PackagesOf(res[..|res| - 1]) + {res[|res| - 1].pkg}
  {
    var init := res[..|res| - 1];
    forall p ensures p in PackagesOf(res) <==> p in PackagesOf(init) + {res[|res| - 1].pkg} {
      if p in PackagesOf(res) {
        var i :| 0 <= i < |res| && res[i].Resolved? && res[i].pkg == p;
        if i < |res| - 1 { assert init[i] == res[i]; }
      }
      if p in PackagesOf(init) {
        var i :| 0 <= i < |init| && init[i].Resolved? && init[i].pkg == p;
        assert res[i] == init[i];
      }
    }
  }

  /** When nothing throws, every annotation is added in order, every import
      is recorded, and the run ends normally. */
  lemma {:induction false} ApplyAllResolved(res: seq<Resolution>)
    requires AllResolved(res)
    ensures Apply(res) == Effect(AnnotationsOf(res), PackagesOf(res), Normal)
    decreases |res|
  {
    if res != [] {
      var init := res[..|res| - 1];
      assert AllResolved(init) by {
        forall i | 0 <= i < |init| ensures init[i].Resolved? {
          assert init[i] == res[i];
        }
      }
      ApplyAllResolved(init);
      AnnotationsOfSnoc(res);
      PackagesOfSnoc(res);
    }
  }

  /** Once a prefix has thrown, the rest of the tokens change nothing. */
  lemma {:induction false} ApplyThrownIsFinal(res: seq<Resolution>, k: nat)
    requires k <= |res| && Apply(res[..k]).outcome.Thrown?
    ensures Apply(res) == Apply(res[..k])
    decreases |res| - k
  {
    if k < |res| {
      var init := res[..|res| - 1];
      assert init[..k] == res[..k];
      ApplyThrownIsFinal(init, k);
    } else {
      assert res[..k] == res;
    }
  }

  /** The first token that throws ends the run: its annotation is the last
      one added, the tokens before it are imported, and the hook raises its
      exception. */
  lemma ApplyFirstThrow(res: seq<Resolution>, k: nat)
    requires k < |res| && res[k].Throws? && AllResolved(res[..k])
    ensures Apply(res) == Effect(AnnotationsOf(res[..k + 1]), PackagesOf(res[..k]), Thrown(res[k].exception))
  {
    var pre := res[..k + 1];
    assert pre[..|pre| - 1] == res[..k];
    ApplyAllResolved(res[..k]);
    var e := Apply(res[..k]);
    assert Apply(pre) == Effect(e.annotations + [res[k].annotation], e.imports, Thrown(res[k].exception));
    AnnotationsOfSnoc(pre);
    ApplyThrownIsFinal(res, k + 1);
  }

  /** Every import the run records belongs to an annotation it added: import
      identities never outnumber annotations, and each comes from a token
      that was resolved before any throw. */
  lemma {:induction false} ImportsComeFromResolvedTokens(res: seq<Resolution>, p: string)
    requires p in Apply(res).imports
    ensures exists i :: && 0 <= i < |res|
                        && res[i] == Resolved(res[i].annotation, p)
                        && res[i].annotation in Apply(res).annotations
    decreases |res|
  {
    var init := res[..|res| - 1];
    var e := Apply(init);
    if p in e.imports {
      ImportsComeFromResolvedTokens(init, p);
      var i :| 0 <= i < |init| && init[i] == Resolved(init[i].annotation, p)
             && init[i].annotation in e.annotations;
      assert res[i] == init[i];
    } else {
      assert res[|res| - 1] == Resolved(res[|res| - 1].annotation, p);
    }
  }

  /** A run ends normally exactly when every token resolves. */
  lemma {:induction false} ApplyNormalIffAllResolved(res: seq<Resolution>)
    ensures Apply(res).outcome.Normal? <==> AllResolved(res)
    decreases |res|
  {
    if AllResolved(res) {
      ApplyAllResolved(res);
    } else if res != [] {
      var init := res[..|res| - 1];
      ApplyNormalIffAllResolved(init);
      if AllResolved(init) {
        assert res[|res| - 1].Throws? by {
          forall i | 0 <= i < |res| - 1 ensures res[i].Resolved? {
            assert res[i] == init[i];
          }
        }
      }
    }
  }

  /** The annotations a run adds are the first ones of its tokens, in order. */
  lemma {:induction false} ApplyAnnotationsArePrefix(res: seq<Resolution>)
    ensures Apply(res).annotations <= AnnotationsOf(res)
    decreases |res|
  {
    if res != [] {
      var init := res[..|res| - 1];
      var whole := AnnotationsOf(res);
      assert whole == AnnotationsOf(init) + [res[|res| - 1].annotation];
      if Apply(init).outcome.Thrown? {
        ApplyAnnotationsArePrefix(init);
        var a := Apply(init).annotations;
        assert a == AnnotationsOf(init)[..|a|];
        assert a == whole[..|a|];
      } else {
        ApplyNormalIffAllResolved(init);
        ApplyAllResolved(init);
        assert Apply(res).annotations == whole;
      }
    }
  }

  /** Positional pairing with a lombokPackage list: token i is imported from
      package i; reading lombokPackages[i] past the end of the package list
      throws ArrayIndexOutOfBoundsException. */
  function ResolveByPosition(tokens: seq<string>, packages: seq<string>): (r: seq<Resolution>)
    ensures |r| == |tokens|
  {
    seq(|tokens|, i requires 0 <= i < |tokens| =>
      if i < |packages| then Resolved(tokens[i], packages[i]) else Throws(tokens[i], ArrayIndexOutOfBounds))
  }

  /** With at least as many packages as tokens, the class gains the tokens
      in order and the first |tokens| packages; extra packages are ignored. */
  lemma PositionalEnoughPackages(tokens: seq<string>, packages: seq<string>)
    requires |tokens| <= |packages|
    ensures Apply(ResolveByPosition(tokens, packages))
            == Effect(tokens, (set p | p in packages[..|tokens|]), Normal)
  {
    var res := ResolveByPosition(tokens, packages);
    ApplyAllResolved(res);
    AnnotationsOfPointwise(res, tokens);
    assert PackagesOf(res) == set p | p in packages[..|tokens|] by {
      forall p ensures p in PackagesOf(res) <==> p in packages[..|tokens|] {
        if p in packages[..|tokens|] {
          var i :| 0 <= i < |tokens| && packages[..|tokens|][i] == p;
          assert res[i].pkg == p;
        }
      }
    }
  }

  /** With fewer packages than tokens, the class gains every package, the
      tokens up to and including the first one without a package, and the
      hook throws ArrayIndexOutOfBoundsException. */
  lemma PositionalTooFewPackages(tokens: seq<string>, packages: seq<string>)
    requires |packages| < |tokens|
    ensures Apply(ResolveByPosition(tokens, packages))
            == Effect(tokens[..|packages| + 1], (set p | p in packages), Thrown(ArrayIndexOutOfBounds))
  {
    var res := ResolveByPosition(tokens, packages);
    var k := |packages|;
    ApplyFirstThrow(res, k);
    AnnotationsOfPointwise(res[..k + 1], tokens[..k + 1]);
    assert PackagesOf(res[..k]) == set p | p in packages by {
      forall p ensures p in PackagesOf(res[..k]) <==> p in packages {
        if p in packages {
          var i :| 0 <= i < k && packages[i] == p;
          assert res[..k][i].pkg == p;
        }
      }
    }
  }

  /** Appends each resolution's annotation and then its import to the class,
      in order; a throwing resolution ends the loop after its annotation. */
  method AppendAll(topLevelClass: TopLevelClass, res: seq<Resolution>) returns (outcome: Outcome)
    modifies topLevelClass
    ensures topLevelClass.annotations == old(topLevelClass.annotations) + Apply(res).annotations
    ensures topLevelClass.importedTypes == old(topLevelClass.importedTypes) + Apply(res).imports
    ensures outcome == Apply(res).outcome
  {
    var i := 0;
    while i < |res|
      invariant 0 <= i <= |res|
      invariant Apply(res[..i]).outcome == Normal
      invariant topLevelClass.annotations == old(topLevelClass.annotations) + Apply(res[..i]).annotations
      invariant topLevelClass.importedTypes == old(topLevelClass.importedTypes) + Apply(res[..i]).imports
    {
      assert res[..i + 1][..i] == res[..i];
      topLevelClass.AddAnnotation(res[i].annotation);
      match res[i]
      case Throws(_, x) =>
        ApplyThrownIsFinal(res, i + 1);
        return Thrown(x);
      case Resolved(_, p) =>
        topLevelClass.AddImportedType(p);
      i := i + 1;
    }
    assert res[..|res|] == res;
    outcome := Normal;
  }
}
