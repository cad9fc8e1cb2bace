/** The parts of the Java runtime the plugins lean on: null as an Option, the
    two unchecked exceptions a malformed configuration raises, and the
    String operations the hooks call (split, contains, startsWith,
    equalsIgnoreCase and the one replaceAll pattern), written out so that
    their edge cases are explicit. */
module JavaLang {

  datatype Option<+T> = None | Some(value: T)

  /** The unchecked exceptions the hooks can raise. */
  datatype JavaException =
    | StringIndexOutOfBounds   // "".substring(1)
    | ArrayIndexOutOfBounds    // an array read past its length

  /** How a call of a void Java method ends. */
  datatype Outcome = Normal | Thrown(exception: JavaException)

  /** How a call of a Java method with a result ends. */
  datatype Completion<+T> = Returned(value: T) | Threw(exception: JavaException)

  /** s holds no line break and no double quote. */
  predicate OneLine(s: string) {
    forall c :: c in s ==> !IsBreakOrQuote(c)
  }

  lemma OneLineConcat(a: string, b: string)
    requires OneLine(a) && OneLine(b)
    ensures OneLine(a + b)
  {
  }

  /** Appending two sequences one after the other appends their
      concatenation. Proof step of ApplyConcat, PkMarkersAppend,
      AppendPkMarkers and the other builders that append piece by piece. */
  lemma ConcatAssoc<T>(s: seq<T>, a: seq<T>, b: seq<T>)
    ensures s + a + b == s + (a + b)
  {
  }

  /** Appending three strings one after the other appends their
      concatenation. Proof step of BuildRemarks. */
  lemma ConcatAssoc3(s: string, a: string, b: string, c: string)
    ensures s + a + b + c == s + (a + b + c)
  {
  }

  /** Properties.getProperty(key): null when the key is absent. */
  function GetProperty(properties: map<string, string>, key: string): Option<string> {
    if key in properties then Some(properties[key]) else None
  }

  /** A method that returns v once its body has ended with outcome o. */
  function Completes<T>(o: Outcome, v: T): Completion<T> {
    match o
    case Normal => Returned(v)
    case Thrown(x) => Threw(x)
  }

  // ---------------------------------------------------------------------
  // String.startsWith and String.contains

  predicate StartsWith(s: string, prefix: string) {
    |prefix| <= |s| && s[..|prefix|] == prefix
  }

  predicate EndsWith(s: string, suffix: string) {
    |suffix| <= |s| && s[|s| - |suffix|..] == suffix
  }

  /** s.contains(w): w occurs somewhere in s. */
  predicate Contains(s: string, w: string)
    decreases |s|
  {
    StartsWith(s, w) || (s != [] && Contains(s[1..], w))
  }

  /** w occurs in s starting at index i. */
  predicate OccursAt(s: string, w: string, i: int) {
    0 <= i <= |s| - |w| && s[i..i + |w|] == w
  }

  /** Contains agrees with the positional definition of a substring. */
  lemma {:induction false} ContainsIffOccurs(s: string, w: string)
    ensures Contains(s, w) <==> exists i :: OccursAt(s, w, i)
    decreases |s|
  {
    if Contains(s, w) {
      if StartsWith(s, w) {
        assert OccursAt(s, w, 0);
      } else {
        ContainsIffOccurs(s[1..], w);
        var i :| OccursAt(s[1..], w, i);
        assert s[i + 1..i + 1 + |w|] == s[1..][i..i + |w|];
        assert OccursAt(s, w, i + 1);
      }
    }
    if exists i :: OccursAt(s, w, i) {
      var i :| OccursAt(s, w, i);
      if i == 0 {
        assert StartsWith(s, w);
      } else {
        assert s[1..][i - 1..i - 1 + |w|] == s[i..i + |w|];
        assert OccursAt(s[1..], w, i - 1);
        ContainsIffOccurs(s[1..], w);
      }
    }
  }

  /** Every string contains itself. */
  lemma ContainsSelf(s: string)
    ensures Contains(s, s)
  {
    assert StartsWith(s, s);
  }

  /** A substring of a substring of s is a substring of s. */
  lemma ContainsTransitive(s: string, t: string, w: string)
    requires Contains(s, t) && Contains(t, w)
    ensures Contains(s, w)
  {
    ContainsIffOccurs(s, t);
    ContainsIffOccurs(t, w);
    var i :| OccursAt(s, t, i);
    var j :| OccursAt(t, w, j);
    assert s[i + j..i + j + |w|] == w by {
      forall k | 0 <= k < |w| ensures s[i + j..i + j + |w|][k] == w[k] {
        assert w[k] == t[j + k] == s[i + j + k];
      }
    }
    assert OccursAt(s, w, i + j);
    ContainsIffOccurs(s, w);
  }

  // ---------------------------------------------------------------------
  // String.split(",")

  /** All the pieces of s between occurrences of sep, empty ones included;
      there is always one more piece than there are separators. */
  function Pieces(s: string, sep: char): (r: seq<string>)
    ensures |r| >= 1
    ensures forall p :: p in r ==> sep !in p
    decreases |s|
  {
    if s == [] then [""]
    else
      var rest := Pieces(s[1..], sep);
      if s[0] == sep then [""] + rest
      else [[s[0]] + rest[0]] + rest[1..]
  }

  /** The pieces glued back together with sep. */
  function Join(ps: seq<string>, sep: char): string
    decreases |ps|
  {
    if ps == [] then ""
    else if |ps| == 1 then ps[0]
    else ps[0] + [sep] + Join(ps[1..], sep)
  }

  /** Cutting s at sep and gluing the pieces back gives s again. */
  lemma {:induction false} JoinPieces(s: string, sep: char)
    ensures Join(Pieces(s, sep), sep) == s
    decreases |s|
  {
    if s != [] {
      var rest := Pieces(s[1..], sep);
      JoinPieces(s[1..], sep);
      if s[0] == sep {
        assert Pieces(s, sep)[1..] == rest;
      } else {
        var ps := Pieces(s, sep);
        if |rest| == 1 {
          assert ps == [[s[0]] + rest[0]];
        } else {
          assert ps[1..] == rest[1..];
          assert Join(rest, sep) == rest[0] + [sep] + Join(rest[1..], sep);
        }
      }
    }
  }

  /** The trailing empty strings of ps removed, as String.split does. */
  function DropTrailingEmpty(ps: seq<string>): (r: seq<string>)
    ensures |r| <= |ps| && r == ps[..|r|]
    ensures r != [] ==> r[|r| - 1] != ""
    ensures forall i :: |r| <= i < |ps| ==> ps[i] == ""
    decreases |ps|
  {
    if ps == [] || ps[|ps| - 1] != "" then ps else DropTrailingEmpty(ps[..|ps| - 1])
  }

  /** s.split(String.valueOf(sep)) with Java's default limit 0: when sep does
      not occur the result is the string itself (even the empty string),
      otherwise the pieces without the trailing empty ones. Leading and inner
      empty pieces are kept. */
  function Split(s: string, sep: char): (r: seq<string>)
    ensures forall p :: p in r ==> sep !in p
  {
    if sep !in s then [s]
    else
      var ps := Pieces(s, sep);
      var r := DropTrailingEmpty(ps);
      assert forall p :: p in r ==> p in ps;
      r
  }

  /** A piece that begins where s does runs up to the first separator, so
      a separator-free prefix of s is a prefix of the first piece. */
  lemma {:induction false} PrefixInFirstPiece(s: string, w: string, sep: char)
    requires StartsWith(s, w) && sep !in w
    ensures StartsWith(Pieces(s, sep)[0], w)
    decreases |s|
  {
    if w != [] {
      assert s[0] == w[0];
      var rest := Pieces(s[1..], sep);
      assert StartsWith(s[1..], w[1..]) by {
        assert s[1..][..|w| - 1] == s[..|w|][1..];
      }
      PrefixInFirstPiece(s[1..], w[1..], sep);
      var p := [s[0]] + rest[0];
      assert Pieces(s, sep)[0] == p;
      assert p[..|w|] == [s[0]] + rest[0][..|w| - 1];
    }
  }

  /** The first piece is where s begins. */
  lemma {:induction false} FirstPieceIsPrefix(s: string, sep: char)
    ensures StartsWith(s, Pieces(s, sep)[0])
    decreases |s|
  {
    if s != [] && s[0] != sep {
      FirstPieceIsPrefix(s[1..], sep);
      var p := Pieces(s[1..], sep)[0];
      assert s[..1 + |p|] == [s[0]] + s[1..][..|p|];
    }
  }

  /** Every piece of s is a substring of s. */
  lemma {:induction false} PieceIsSubstring(s: string, sep: char, p: string)
    requires p in Pieces(s, sep)
    ensures Contains(s, p)
    decreases |s|
  {
    if s == [] {
      assert StartsWith(s, p);
    } else {
      var rest := Pieces(s[1..], sep);
      if s[0] == sep {
        if p == "" {
          assert StartsWith(s, p);
        } else {
          PieceIsSubstring(s[1..], sep, p);
        }
      } else if p == [s[0]] + rest[0] {
        FirstPieceIsPrefix(s[1..], sep);
        assert s[..|p|] == [s[0]] + s[1..][..|rest[0]|];
        assert StartsWith(s, p);
      } else {
        var k :| 0 <= k < |Pieces(s, sep)| && Pieces(s, sep)[k] == p;
        assert k > 0 && rest[k] == p;
        PieceIsSubstring(s[1..], sep, p);
      }
    }
  }

  /** Every token String.split returns is a substring of s. */
  lemma TokenIsSubstring(s: string, sep: char, t: string)
    requires t in Split(s, sep)
    ensures Contains(s, t)
  {
    if sep !in s {
      ContainsSelf(s);
    } else {
      var r := DropTrailingEmpty(Pieces(s, sep));
      assert t in Pieces(s, sep);
      PieceIsSubstring(s, sep, t);
    }
  }

  /** Contains(t, w) survives putting a character in front of t. */
  lemma ContainsCons(c: char, t: string, w: string)
    requires Contains(t, w)
    ensures Contains([c] + t, w)
  {
    assert ([c] + t)[1..] == t;
  }

  /** A non-empty, separator-free substring of s lies wholly inside one piece. */
  lemma {:induction false} ContainsInSomePiece(s: string, w: string, sep: char)
    requires Contains(s, w) && w != [] && sep !in w
    ensures exists p :: p in Pieces(s, sep) && Contains(p, w)
    decreases |s|
  {
    var rest := Pieces(s[1..], sep);
    if StartsWith(s, w) {
      PrefixInFirstPiece(s, w, sep);
      var p := Pieces(s, sep)[0];
      assert Contains(p, w);
    } else {
      ContainsInSomePiece(s[1..], w, sep);
      var p :| p in rest && Contains(p, w);
      if s[0] == sep {
        assert p in Pieces(s, sep);
      } else if p == rest[0] {
        ContainsCons(s[0], p, w);
        assert Pieces(s, sep)[0] == [s[0]] + p;
      } else {
        var k :| 0 <= k < |rest| && rest[k] == p;
        assert Pieces(s, sep)[k] == p;
      }
    }
  }

  /** The same holds of the tokens String.split returns: the piece holding w
      is not empty, so it is not among the dropped trailing ones. */
  lemma ContainsInSomeToken(s: string, w: string, sep: char)
    requires Contains(s, w) && w != [] && sep !in w
    ensures exists t :: t in Split(s, sep) && Contains(t, w)
  {
    if sep !in s {
      assert s in Split(s, sep);
    } else {
      ContainsInSomePiece(s, w, sep);
      var ps := Pieces(s, sep);
      var p :| p in ps && Contains(p, w);
      var k :| 0 <= k < |ps| && ps[k] == p;
      ContainsIffOccurs(p, w);
      var r := DropTrailingEmpty(ps);
      assert k < |r| && r[k] == p;
    }
  }

  /** A word without the separator occurs in s exactly when it occurs in one
      of the tokens String.split returns for s. */
  lemma ContainsIffSomeToken(s: string, w: string, sep: char)
    requires w != [] && sep !in w
    ensures Contains(s, w) <==> exists t :: t in Split(s, sep) && Contains(t, w)
  {
    if Contains(s, w) {
      ContainsInSomeToken(s, w, sep);
    }
    forall t | t in Split(s, sep) && Contains(t, w)
      ensures Contains(s, w)
    {
      TokenIsSubstring(s, sep, t);
      ContainsTransitive(s, t, w);
    }
  }

  // ---------------------------------------------------------------------
  // String.equalsIgnoreCase, as java.lang.String compares character pairs

  function ToUpperAscii(c: char): char {
    if 'a' <= c <= 'z' then (c as int - 32) as char else c
  }

  function ToLowerAscii(c: char): char {
    if 'A' <= c <= 'Z' then (c as int + 32) as char else c
  }

  /** Two characters are equal ignoring case: equal as they are, equal in
      upper case, or equal in the lower case of their upper case. */
  predicate CharEqualsIgnoreCase(c1: char, c2: char) {
    c1 == c2
    || ToUpperAscii(c1) == ToUpperAscii(c2)
    || ToLowerAscii(ToUpperAscii(c1)) == ToLowerAscii(ToUpperAscii(c2))
  }

  /** a.equalsIgnoreCase(b), where a null b is never equal. */
  predicate EqualsIgnoreCase(a: string, b: Option<string>) {
    b.Some? && |a| == |b.value|
    && forall i :: 0 <= i < |a| ==> CharEqualsIgnoreCase(a[i], b.value[i])
  }

  /** Boolean.TRUE.toString().equalsIgnoreCase(b): how every toggle of the
      plugins is read. */
  predicate IsTrueIgnoreCase(b: Option<string>) {
    EqualsIgnoreCase("true", b)
  }

  /** b is "true" in some mix of upper and lower case. */
  predicate IsTrueSpelling(b: Option<string>) {
    && b.Some? && |b.value| == 4
    && b.value[0] in "tT" && b.value[1] in "rR"
    && b.value[2] in "uU" && b.value[3] in "eE"
  }

  /** A toggle is on exactly for the sixteen spellings of "true" in any mix
      of upper and lower case, and never for null. */
  lemma IsTrueIgnoreCaseIff(b: Option<string>)
    ensures IsTrueIgnoreCase(b) <==> IsTrueSpelling(b)
  {
    if b.Some? && |b.value| == 4 {
      var s := b.value;
      assert CharEqualsIgnoreCase('t', s[0]) <==> s[0] in "tT";
      assert CharEqualsIgnoreCase('r', s[1]) <==> s[1] in "rR";
      assert CharEqualsIgnoreCase('u', s[2]) <==> s[2] in "uU";
      assert CharEqualsIgnoreCase('e', s[3]) <==> s[3] in "eE";
    }
  }

  // ---------------------------------------------------------------------
  // replaceAll("(\r\n|\n|\r|\")", " ")

  predicate IsBreakOrQuote(c: char) {
    c == '\r' || c == '\n' || c == '"'
  }

  /** The regular-expression replacement the field comment applies to column
      remarks: the alternatives are tried left to right, so a CRLF pair is
      one match and becomes a single space, and each lone CR, LF or double
      quote becomes a space. */
  function ReplaceBreaksAndQuotes(s: string): (r: string)
    ensures forall c :: c in r ==> !IsBreakOrQuote(c)
    ensures |r| <= |s|
    decreases |s|
  {
    if s == [] then []
    else if |s| >= 2 && s[0] == '\r' && s[1] == '\n' then " " + ReplaceBreaksAndQuotes(s[2..])
    else if IsBreakOrQuote(s[0]) then " " + ReplaceBreaksAndQuotes(s[1..])
    else [s[0]] + ReplaceBreaksAndQuotes(s[1..])
  }

  /** Text without line breaks or quotes is left as it is. */
  lemma {:induction false} ReplaceBreaksAndQuotesKeepsClean(s: string)
    requires forall c :: c in s ==> !IsBreakOrQuote(c)
    ensures ReplaceBreaksAndQuotes(s) == s
    decreases |s|
  {
    if s != [] {
      assert s[0] in s;
      assert forall c :: c in s[1..] ==> c in s;
      ReplaceBreaksAndQuotesKeepsClean(s[1..]);
    }
  }

  /** A single CR, LF or double quote becomes one space; any other character
      stays as it is. */
  lemma ReplaceBreaksAndQuotesChar(c: char)
    ensures ReplaceBreaksAndQuotes([c]) == if IsBreakOrQuote(c) then " " else [c]
  {
  }

  /** A CRLF pair is one match and becomes one space. */
  lemma ReplaceBreaksAndQuotesCrLf()
    ensures ReplaceBreaksAndQuotes("\r\n") == " "
  {
    assert "\r\n"[2..] == [];
  }

  /** The replacement works piece by piece, unless the cut falls inside a
      CRLF pair. With the two lemmas above this is the whole meaning of the
      pattern: every match becomes one space and everything else is copied
      in place. */
  lemma {:induction false} ReplaceBreaksAndQuotesConcat(a: string, b: string)
    requires a == [] || b == [] || a[|a| - 1] != '\r' || b[0] != '\n'
    ensures ReplaceBreaksAndQuotes(a + b) == ReplaceBreaksAndQuotes(a) + ReplaceBreaksAndQuotes(b)
    decreases |a|
  {
    var ab := a + b;
    if a == [] {
      assert ab == b;
    } else if |a| >= 2 && a[0] == '\r' && a[1] == '\n' {
      assert ab[0] == '\r' && ab[1] == '\n' && ab[2..] == a[2..] + b;
      ReplaceBreaksAndQuotesConcat(a[2..], b);
      ConcatAssoc(" ", ReplaceBreaksAndQuotes(a[2..]), ReplaceBreaksAndQuotes(b));
    } else {
      var head := if IsBreakOrQuote(a[0]) then " " else [a[0]];
      assert ab[0] == a[0] && ab[1..] == a[1..] + b;
      assert !(|ab| >= 2 && ab[0] == '\r' && ab[1] == '\n') by {
        if |ab| >= 2 {
          if |a| == 1 { assert ab[1] == b[0]; } else { assert ab[1] == a[1]; }
        }
      }
      assert ReplaceBreaksAndQuotes(ab) == head + ReplaceBreaksAndQuotes(ab[1..]);
      assert ReplaceBreaksAndQuotes(a) == head + ReplaceBreaksAndQuotes(a[1..]);
      ReplaceBreaksAndQuotesConcat(a[1..], b);
      ConcatAssoc(head, ReplaceBreaksAndQuotes(a[1..]), ReplaceBreaksAndQuotes(b));
    }
  }

  /** Without carriage returns, the replacement maps each character on its
      own: a line feed or double quote becomes a space, every other character
      stays at its index. */
  lemma {:induction false} ReplaceBreaksAndQuotesPointwise(s: string)
    requires '\r' !in s
    ensures |ReplaceBreaksAndQuotes(s)| == |s|
    ensures forall i :: 0 <= i < |s| ==>
              ReplaceBreaksAndQuotes(s)[i] == if IsBreakOrQuote(s[i]) then ' ' else s[i]
    decreases |s|
  {
    if s != [] {
      assert s[0] != '\r';
      assert forall c :: c in s[1..] ==> c in s;
      ReplaceBreaksAndQuotesPointwise(s[1..]);
      var r := ReplaceBreaksAndQuotes(s);
      var rest := ReplaceBreaksAndQuotes(s[1..]);
      assert r == (if IsBreakOrQuote(s[0]) then " " else [s[0]]) + rest;
      assert forall i :: 1 <= i < |s| ==> r[i] == rest[i - 1] && s[i] == s[1..][i - 1];
    }
  }

  /** Applying the replacement twice is the same as applying it once. */
  lemma ReplaceBreaksAndQuotesIdempotent(s: string)
    ensures ReplaceBreaksAndQuotes(ReplaceBreaksAndQuotes(s)) == ReplaceBreaksAndQuotes(s)
  {
    ReplaceBreaksAndQuotesKeepsClean(ReplaceBreaksAndQuotes(s));
  }

  /** The replacement shortens the text by exactly one character per CRLF
      pair; every other character maps to one character. */
  function CrLfCount(s: string): nat
    decreases |s|
  {
    if s == [] then 0
    else if |s| >= 2 && s[0] == '\r' && s[1] == '\n' then 1 + CrLfCount(s[2..])
    else CrLfCount(s[1..])
  }

  lemma {:induction false} ReplaceBreaksAndQuotesLength(s: string)
    ensures |ReplaceBreaksAndQuotes(s)| == |s| - CrLfCount(s)
    decreases |s|
  {
    if s != [] {
      if |s| >= 2 && s[0] == '\r' && s[1] == '\n' {
        ReplaceBreaksAndQuotesLength(s[2..]);
      } else {
        ReplaceBreaksAndQuotesLength(s[1..]);
      }
    }
  }
}
