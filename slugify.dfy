/** `slugify` from src/app/actions/content-actions.ts: the URL key of a new post or class. */
module Slugify {
  import opened JsString

  /** `\w`: ASCII letters, digits and underscore. */
  predicate IsWordChar(c: char) {
    'a' <= c <= 'z' || 'A' <= c <= 'Z' || '0' <= c <= '9' || c == '_'
  }

  /** The characters a slug can contain. */
  predicate IsSlugChar(c: char) {
    'a' <= c <= 'z' || '0' <= c <= '9' || c == '_' || c == '-'
  }

  predicate AllSlugChars(s: string) {
    forall i :: 0 <= i < |s| ==> IsSlugChar(s[i])
  }

  predicate NoSpace(s: string) {
    forall i :: 0 <= i < |s| ==> !IsSpace(s[i])
  }

  predicate NoDoubleHyphen(s: string) {
    forall i, j {:trigger s[i], s[j]} :: 0 <= i < |s| && 0 <= j < |s| && j == i + 1 ==> !(s[i] == '-' && s[j] == '-')
  }

  /** `.replace(/\s+/g, '-')`: every run of whitespace becomes one hyphen. */
  function ReplaceSpaceRuns(s: string): string
    decreases |s|
  {
    if s == [] then []
    else if IsSpace(s[0]) then "-" + ReplaceSpaceRuns(TrimStart(s[1..]))
    else [s[0]] + ReplaceSpaceRuns(s[1..])
  }

  /** `.replace(/[^\w-]+/g, '')`: drops every character that is neither `\w` nor a hyphen. */
  function StripNonWord(s: string): string {
    if s == [] then []
    else (if IsWordChar(s[0]) || s[0] == '-' then [s[0]] else []) + StripNonWord(s[1..])
  }

  /** `.replace(/--+/g, '-')`: every run of two or more hyphens becomes one hyphen. */
  function CollapseHyphens(s: string): string {
    if |s| < 2 then s
    else if s[0] == '-' && s[1] == '-' then CollapseHyphens(s[1..])
    else [s[0]] + CollapseHyphens(s[1..])
  }

  /** `slugify`: lower-case, trim, whitespace runs to '-', drop other non-word characters,
      collapse repeated hyphens. The result holds only a-z, 0-9, '_' and '-', never "--". */
  function Slugify(text: string): (r: string)
    ensures AllSlugChars(r)
    ensures NoDoubleHyphen(r)
  {
    SlugCharsOnly(text);
    CollapseHyphens(StripNonWord(ReplaceSpaceRuns(Trim(Lower(text)))))
  }

  lemma {:induction false} ReplaceChars(s: string)
    ensures forall c :: c in ReplaceSpaceRuns(s) ==> c == '-' || c in s
    decreases |s|
  {
    if s != [] {
      if IsSpace(s[0]) {
        var rest := TrimStart(s[1..]);
        ReplaceChars(rest);
        TrimStartChars(s[1..]);
        assert forall c :: c in s[1..] ==> c in s;
      } else {
        ReplaceChars(s[1..]);
      }
    }
  }

  lemma {:induction false} TrimStartChars(s: string)
    ensures forall c :: c in TrimStart(s) ==> c in s
  {
    if s != [] && IsSpace(s[0]) {
      TrimStartChars(s[1..]);
      assert forall c :: c in s[1..] ==> c in s;
    }
  }

  lemma {:induction false} StripChars(s: string)
    ensures forall c :: c in StripNonWord(s) ==> (IsWordChar(c) || c == '-') && c in s
  {
    if s != [] {
      StripChars(s[1..]);
    }
  }

  lemma {:induction false} CollapseFacts(s: string)
    ensures |s| > 0 ==> |CollapseHyphens(s)| > 0 && CollapseHyphens(s)[0] == s[0]
    ensures forall c :: c in CollapseHyphens(s) ==> c in s
    ensures NoDoubleHyphen(CollapseHyphens(s))
  {
    if |s| >= 2 {
      CollapseFacts(s[1..]);
    }
  }

  /** `toLowerCase` leaves no ASCII capital behind. */
  lemma LowerHasNoUpper(s: string)
    ensures forall c :: c in Lower(s) ==> !IsUpperAscii(c)
  {
    forall c | c in Lower(s)
      ensures !IsUpperAscii(c)
    {
      var k :| 0 <= k < |Lower(s)| && Lower(s)[k] == c;
    }
  }

  lemma SlugCharsOnly(text: string)
    ensures AllSlugChars(CollapseHyphens(StripNonWord(ReplaceSpaceRuns(Trim(Lower(text))))))
    ensures NoDoubleHyphen(CollapseHyphens(StripNonWord(ReplaceSpaceRuns(Trim(Lower(text))))))
  {
    var lowered := Lower(text);
    var trimmed := Trim(lowered);
    var replaced := ReplaceSpaceRuns(trimmed);
    var stripped := StripNonWord(replaced);
    var r := CollapseHyphens(stripped);
    CollapseFacts(stripped);
    StripChars(replaced);
    ReplaceChars(trimmed);
    TrimResult(lowered);
    LowerHasNoUpper(text);
    assert forall c :: c in replaced ==> c == '-' || !IsUpperAscii(c);
    assert forall c :: c in r ==> (IsWordChar(c) || c == '-') && c in replaced;
    forall i | 0 <= i < |r|
      ensures IsSlugChar(r[i])
    {
      assert r[i] in r;
    }
  }

  // ---- idempotence ----

  lemma {:induction false} LowerClean(s: string)
    requires AllSlugChars(s)
    ensures Lower(s) == s
  {
    assert forall i :: 0 <= i < |s| ==> LowerChar(s[i]) == s[i];
  }

  lemma TrimClean(s: string)
    requires AllSlugChars(s)
    ensures Trim(s) == s
  {
    assert s != [] ==> !IsSpace(s[0]);
    assert TrimStart(s) == s;
    assert s != [] ==> !IsSpace(s[|s| - 1]);
  }

  lemma {:induction false} ReplaceNoSpacePrefix(a: string, b: string)
    requires NoSpace(a)
    ensures ReplaceSpaceRuns(a + b) == a + ReplaceSpaceRuns(b)
  {
    if a != [] {
      assert (a + b)[0] == a[0] && (a + b)[1..] == a[1..] + b;
      ReplaceNoSpacePrefix(a[1..], b);
      assert a + ReplaceSpaceRuns(b) == [a[0]] + (a[1..] + ReplaceSpaceRuns(b));
    } else {
      assert a + b == b;
    }
  }

  lemma ReplaceNoSpace(s: string)
    requires NoSpace(s)
    ensures ReplaceSpaceRuns(s) == s
  {
    ReplaceNoSpacePrefix(s, []);
    assert s + [] == s;
  }

  lemma {:induction false} StripConcat(a: string, b: string)
    ensures StripNonWord(a + b) == StripNonWord(a) + StripNonWord(b)
  {
    if a != [] {
      assert (a + b)[1..] == a[1..] + b;
      StripConcat(a[1..], b);
    } else {
      assert a + b == b;
    }
  }

  lemma {:induction false} StripWordChars(s: string)
    requires forall i :: 0 <= i < |s| ==> IsWordChar(s[i]) || s[i] == '-'
    ensures StripNonWord(s) == s
  {
    if s != [] {
      StripWordChars(s[1..]);
      assert s == [s[0]] + s[1..];
    }
  }

  lemma {:induction false} StripNone(s: string)
    requires forall i :: 0 <= i < |s| ==> !IsWordChar(s[i]) && s[i] != '-'
    ensures StripNonWord(s) == ""
  {
    if s != [] {
      StripNone(s[1..]);
    }
  }

  lemma {:induction false} CollapseSingle(s: string)
    requires NoDoubleHyphen(s)
    ensures CollapseHyphens(s) == s
  {
    if |s| >= 2 {
      CollapseSingle(s[1..]);
      assert s == [s[0]] + s[1..];
    }
  }

  /** A slug is its own slug: applying `slugify` twice changes nothing more. */
  lemma SlugifyIdempotent(text: string)
    ensures Slugify(Slugify(text)) == Slugify(text)
  {
    var t := Slugify(text);
    LowerClean(t);
    TrimClean(t);
    ReplaceNoSpace(t);
    StripWordChars(t);
    CollapseSingle(t);
  }

  // ---- worked examples ----

  /** A character `slugify` removes outright: not `\w`, not a hyphen, not whitespace. */
  predicate IsSymbol(c: char) {
    !IsWordChar(c) && c != '-' && !IsSpace(c)
  }

  lemma {:induction false} LowerNoUpper(s: string)
    requires forall i :: 0 <= i < |s| ==> !IsUpperAscii(s[i])
    ensures Lower(s) == s
  {
    assert forall i :: 0 <= i < |s| ==> LowerChar(s[i]) == s[i];
  }

  lemma TrimNoEdgeSpace(s: string)
    requires s != [] ==> !IsSpace(s[0]) && !IsSpace(s[|s| - 1])
    ensures Trim(s) == s
  {
    assert TrimStart(s) == s;
  }

  /** A single space in front of a space-free word becomes a hyphen. */
  lemma ReplaceLeadingSpace(b: string)
    requires NoSpace(b) && b != []
    ensures ReplaceSpaceRuns(" " + b) == "-" + b
  {
    assert (" " + b)[0] == ' ' && (" " + b)[1..] == b;
    assert TrimStart(b) == b;
    ReplaceNoSpace(b);
  }

  lemma ReplaceOneSpace(a: string, b: string)
    requires NoSpace(a) && NoSpace(b) && b != []
    ensures ReplaceSpaceRuns(a + " " + b) == a + "-" + b
  {
    assert a + " " + b == a + (" " + b);
    assert ReplaceSpaceRuns(a + (" " + b)) == a + ReplaceSpaceRuns(" " + b) by {
      ReplaceNoSpacePrefix(a, " " + b);
    }
    ReplaceLeadingSpace(b);
    assert a + ("-" + b) == a + "-" + b;
  }

  lemma StripWordThenSymbols(a: string, b: string)
    requires forall i :: 0 <= i < |a| ==> IsWordChar(a[i]) || a[i] == '-'
    requires forall i :: 0 <= i < |b| ==> !IsWordChar(b[i]) && b[i] != '-'
    ensures StripNonWord(a + b) == a
  {
    StripConcat(a, b);
    StripWordChars(a);
    StripNone(b);
  }

  lemma StripDropsSymbols(a: string, b: string, c: string, d: string)
    requires forall i :: 0 <= i < |a| ==> IsWordChar(a[i]) || a[i] == '-'
    requires forall i :: 0 <= i < |c| ==> IsWordChar(c[i]) || c[i] == '-'
    requires forall i :: 0 <= i < |b| ==> !IsWordChar(b[i]) && b[i] != '-'
    requires forall i :: 0 <= i < |d| ==> !IsWordChar(d[i]) && d[i] != '-'
    ensures StripNonWord(a + b + c + d) == a + c
  {
    assert a + b + c + d == (a + b) + (c + d);
    StripConcat(a + b, c + d);
    StripWordThenSymbols(a, b);
    StripWordThenSymbols(c, d);
  }

  lemma LowerConcat(a: string, b: string)
    ensures Lower(a + b) == Lower(a) + Lower(b)
  {
    assert forall i :: 0 <= i < |a + b| ==> Lower(a + b)[i] == (Lower(a) + Lower(b))[i];
  }

  /** A capitalised word lowers to the word with its first letter lowered. */
  lemma LowerCapitalised(c: char, rest: string)
    requires forall i :: 0 <= i < |rest| ==> !IsUpperAscii(rest[i])
    ensures Lower([c] + rest) == [LowerChar(c)] + rest
  {
    LowerNoUpper(rest);
    assert ([c] + rest)[1..] == rest;
  }

  lemma ExampleLowerHello()
    ensures Lower("Hello, ") == "hello, "
  {
    LowerCapitalised('H', "ello, ");
    assert "Hello, " == ['H'] + "ello, ";
  }

  lemma ExampleLowerWorld()
    ensures Lower("World!") == "world!"
  {
    LowerCapitalised('W', "orld!");
    assert "World!" == ['W'] + "orld!";
  }

  lemma ExampleLower(s: string)
    requires s == "Hello, " + "World!"
    ensures Lower(s) == "hello, " + "world!"
  {
    LowerConcat("Hello, ", "World!");
    ExampleLowerHello();
    ExampleLowerWorld();
  }

  lemma ExampleLowerTrim(s: string)
    requires s == "Hello, World!"
    ensures Trim(Lower(s)) == "hello, world!"
  {
    var l := "hello, world!";
    assert Lower(s) == l by {
      assert s == "Hello, " + "World!";
      ExampleLower(s);
      assert "hello, " + "world!" == l;
    }
    assert Trim(l) == l by {
      TrimNoEdgeSpace(l);
    }
  }

  lemma ExampleReplace(t: string)
    requires t == "hello, world!"
    ensures ReplaceSpaceRuns(t) == "hello,-world!"
  {
    assert t == "hello," + " " + "world!";
    ReplaceOneSpace("hello,", "world!");
  }

  lemma ExampleStrip(t: string)
    requires t == "hello,-world!"
    ensures StripNonWord(t) == "hello-world"
  {
    assert t == "hello" + "," + "-world" + "!";
    StripDropsSymbols("hello", ",", "-world", "!");
  }

  lemma ExampleCollapse(t: string)
    requires t == "hello-world"
    ensures CollapseHyphens(t) == t
  {
    CollapseSingle(t);
  }

  /** "Hello, World!" becomes "hello-world". */
  lemma SlugifyHelloWorld(s: string)
    requires s == "Hello, World!"
    ensures Slugify(s) == "hello-world"
  {
    ExampleLowerTrim(s);
    ExampleReplace("hello, world!");
    ExampleStrip("hello,-world!");
    ExampleCollapse("hello-world");
  }

  /** A title made only of symbols has the empty slug, which `createPost` and `createClass`
      accept because they test the raw title, not the slug. */
  lemma SymbolsSlugifyToEmpty(s: string)
    requires forall i :: 0 <= i < |s| ==> IsSymbol(s[i])
    ensures Slugify(s) == ""
  {
    LowerNoUpper(s);
    TrimNoEdgeSpace(s);
    ReplaceNoSpace(s);
    StripNone(s);
  }

  /** Only characters `slugify` removes outright. */
  predicate AllSymbols(s: string) {
    forall i :: 0 <= i < |s| ==> IsSymbol(s[i])
  }

  /** Only lower-case ASCII letters and digits. */
  predicate LowerAlnum(s: string) {
    forall i :: 0 <= i < |s| ==> 'a' <= s[i] <= 'z' || '0' <= s[i] <= '9'
  }

  /** Symbols, a space, then a word: the symbols vanish but the hyphen the space became stays
      in front, as in "! a" becoming "-a". */
  lemma SlugifyKeepsLeadingHyphen(a: string, b: string)
    requires a != [] && AllSymbols(a)
    requires b != [] && LowerAlnum(b)
    ensures Slugify(a + " " + b) == "-" + b
  {
    LeadingHyphenLowerTrim(a, b);
    LeadingHyphenReplace(a, b);
    LeadingHyphenStrip(a, b);
    LeadingHyphenCollapse(b);
    SlugifyStages(a + " " + b, a + " " + b, a + "-" + b, "-" + b);
  }

  /** `slugify` as its stages: what each one makes of the previous one's result. */
  lemma SlugifyStages(text: string, trimmed: string, replaced: string, slug: string)
    requires Trim(Lower(text)) == trimmed && ReplaceSpaceRuns(trimmed) == replaced
    requires StripNonWord(replaced) == slug && CollapseHyphens(slug) == slug
    ensures Slugify(text) == slug
  {
  }

  lemma LeadingHyphenLowerTrim(a: string, b: string)
    requires a != [] && AllSymbols(a)
    requires b != [] && LowerAlnum(b)
    ensures Trim(Lower(a + " " + b)) == a + " " + b
  {
    assert forall i :: 0 <= i < |a| ==> !IsUpperAscii(a[i]);
    LeadingHyphenLower(a, b);
    LeadingHyphenTrim(a, b);
  }

  lemma LeadingHyphenLower(a: string, b: string)
    requires forall i :: 0 <= i < |a| ==> !IsUpperAscii(a[i])
    requires LowerAlnum(b)
    ensures Lower(a + " " + b) == a + " " + b
  {
    NoUpperJoin(a, b);
    LowerNoUpper(a + " " + b);
  }

  lemma LeadingHyphenTrim(a: string, b: string)
    requires a != [] && !IsSpace(a[0])
    requires b != [] && LowerAlnum(b)
    ensures Trim(a + " " + b) == a + " " + b
  {
    var s := a + " " + b;
    assert s[0] == a[0] && s[|s| - 1] == b[|b| - 1];
    TrimNoEdgeSpace(s);
  }

  lemma NoUpperJoin(a: string, b: string)
    requires forall i :: 0 <= i < |a| ==> !IsUpperAscii(a[i])
    requires LowerAlnum(b)
    ensures forall i :: 0 <= i < |a + " " + b| ==> !IsUpperAscii((a + " " + b)[i])
  {
    var s := a + " " + b;
    forall i | 0 <= i < |s|
      ensures !IsUpperAscii(s[i])
    {
      if i < |a| {
        assert s[i] == a[i];
      } else if i > |a| {
        assert s[i] == b[i - |a| - 1];
      }
    }
  }

  lemma LeadingHyphenReplace(a: string, b: string)
    requires a != [] && AllSymbols(a)
    requires b != [] && LowerAlnum(b)
    ensures ReplaceSpaceRuns(a + " " + b) == a + "-" + b
  {
    assert NoSpace(a) && NoSpace(b);
    ReplaceOneSpace(a, b);
  }

  lemma LeadingHyphenStrip(a: string, b: string)
    requires AllSymbols(a) && LowerAlnum(b)
    ensures StripNonWord(a + "-" + b) == "-" + b
  {
    assert a + "-" + b == a + ("-" + b);
    StripConcat(a, "-" + b);
    SymbolsStripped(a);
    HyphenWordKept(b);
  }

  lemma SymbolsStripped(a: string)
    requires AllSymbols(a)
    ensures StripNonWord(a) == ""
  {
    StripNone(a);
  }

  lemma HyphenWordKept(b: string)
    requires LowerAlnum(b)
    ensures StripNonWord("-" + b) == "-" + b
  {
    var h := "-" + b;
    assert forall i :: 1 <= i < |h| ==> h[i] == b[i - 1];
    StripWordChars(h);
  }

  lemma LeadingHyphenSingle(b: string)
    requires LowerAlnum(b)
    ensures NoDoubleHyphen("-" + b)
  {
    var h := "-" + b;
    assert forall i :: 1 <= i < |h| ==> h[i] == b[i - 1];
  }

  lemma LeadingHyphenCollapse(b: string)
    requires b != [] && LowerAlnum(b)
    ensures CollapseHyphens("-" + b) == "-" + b
  {
    LeadingHyphenSingle(b);
    CollapseSingle("-" + b);
  }

  /** No text slugifies to the seed post slug "german-culture-pünktlichkeit": 'ü' is not a
      slug character. */
  lemma SeedSlugUnreachable(text: string)
    ensures Slugify(text) != "german-culture-p\U{00FC}nktlichkeit"
  {
    var seed := "german-culture-p\U{00FC}nktlichkeit";
    assert seed[16] == '\U{00FC}' && !IsSlugChar(seed[16]);
  }
}
