/**
 * The filename classifier: `isImageFile` (src/endpoints/getMissingAlt.ts,
 * repeated in dist/index.mjs) and `deriveAltFromFilename` (dist/index.mjs),
 * the description used for vector images that no vision backend is asked about.
 */
module Filenames {
  import opened Text

  /** The allow-list of image extensions, in lower case. */
  const ImageExtensions: seq<string> := ["jpg", "jpeg", "png", "gif", "webp", "avif", "bmp", "tiff", "tif", "svg"]

  /** `filename.split('.').pop()?.toLowerCase() || ''` */
  function Extension(filename: string): string
  {
    Lower(LastSegment(filename, '.'))
  }

  /** `isImageFile`: the lower-cased text after the last '.' is on the allow-list. */
  predicate IsImageFile(filename: string)
  {
    Extension(filename) in ImageExtensions
  }

  /** Lower-casing a text with one more character lower-cases that character. */
  lemma LowerSnoc(s: string, c: char)
    ensures Lower(s + [c]) == Lower(s) + [LowerChar(c)]
  {
    assert forall i :: 0 <= i < |s| ==> (s + [c])[i] == s[i];
  }

  /** Appending a character other than the separator extends the last segment by it. */
  lemma LastSegmentSnoc(s: string, c: char, sep: char)
    ensures LastSegment(s + [c], sep) == if c == sep then [] else LastSegment(s, sep) + [c]
  {
    assert (s + [c])[..|s|] == s;
  }

  /** Lower-casing commutes with taking the last '.'-segment, since '.' is not a letter. */
  lemma {:induction false} LowerLastSegment(s: string)
    ensures LastSegment(Lower(s), '.') == Lower(LastSegment(s, '.'))
    decreases |s|
  {
    if s != [] {
      var init, last := s[..|s| - 1], s[|s| - 1];
      assert s == init + [last];
      LowerSnoc(init, last);
      LastSegmentSnoc(Lower(init), LowerChar(last), '.');
      LastSegmentSnoc(init, last, '.');
      LowerLastSegment(init);
      if last != '.' {
        LowerSnoc(LastSegment(init, '.'), last);
      }
    }
  }

  /** The extension is read without regard to case: "a.JPG" is accepted exactly when "a.jpg" is. */
  lemma IsImageFileIgnoresCase(filename: string)
    ensures IsImageFile(Lower(filename)) == IsImageFile(filename)
  {
    LowerLastSegment(filename);
    LowerLastSegment(Lower(filename));
    assert Lower(Lower(LastSegment(filename, '.'))) == Lower(LastSegment(filename, '.'));
  }

  /** A name "base.ext" is an image exactly when `ext`, lower-cased, is on the allow-list. */
  lemma {:induction false} IsImageFileByExtension(base: string, ext: string)
    requires '.' !in ext
    ensures Extension(base + "." + ext) == Lower(ext)
    ensures IsImageFile(base + "." + ext) <==> Lower(ext) in ImageExtensions
    decreases |ext|
  {
    if ext == [] {
      assert base + "." + ext == base + ['.'];
      LastSegmentSnoc(base, '.', '.');
    } else {
      var init, last := ext[..|ext| - 1], ext[|ext| - 1];
      assert base + "." + ext == (base + "." + init) + [last];
      LastSegmentSnoc(base + "." + init, last, '.');
      IsImageFileByExtension(base, init);
      LowerSnoc(init, last);
      assert init + [last] == ext;
    }
  }

  /** A name with no '.' is judged on the whole name: "photo" is rejected, "JPG" accepted. */
  lemma {:induction false} IsImageFileWithoutDot(filename: string)
    requires '.' !in filename
    ensures Extension(filename) == Lower(filename)
    decreases |filename|
  {
    if filename != [] {
      var init := filename[..|filename| - 1];
      IsImageFileWithoutDot(init);
      assert Lower(init + [filename[|filename| - 1]]) == Lower(init) + [LowerChar(filename[|filename| - 1])];
      assert init + [filename[|filename| - 1]] == filename;
    }
  }

  /** "a.JPG" is accepted. */
  lemma IsImageFileUpperCaseExample()
    ensures IsImageFile("a.JPG")
  {
    IsImageFileByExtension("a", "JPG");
    assert Lower("JPG") == "jpg";
  }

  /** A name without any '.' is judged whole: "photo" is not accepted. */
  lemma IsImageFileNoDotExample()
    ensures !IsImageFile("photo")
  {
    IsImageFileWithoutDot("photo");
    assert Lower("photo") == "photo";
  }

  /** "report.pdf" is not accepted. */
  lemma IsImageFileRejectExample()
    ensures !IsImageFile("report.pdf")
  {
    IsImageFileByExtension("report", "pdf");
    assert Lower("pdf") == "pdf";
  }

  // ---------------------------------------------------------------------
  // deriveAltFromFilename

  /**
   * `filename.split('/').pop() || filename`: the text after the last '/'
   * (all of the name when it has none), or the whole name when that text is
   * empty.
   */
  function Basename(filename: string): (r: string)
    ensures filename == [] || filename[|filename| - 1] == '/' ==> r == filename
    ensures filename != [] && filename[|filename| - 1] != '/' ==>
              && r != [] && '/' !in r
              && |r| <= |filename| && r == filename[|filename| - |r|..]
              && (|r| < |filename| ==> filename[|filename| - |r| - 1] == '/')
  {
    var last := LastSegment(filename, '/');
    if last == "" then filename else last
  }

  /** `basename.replace(/\.[^.]+$/, "")`: drops a final ".ext" whose ext is non-empty. */
  function StripExtension(basename: string): (r: string)
    ensures |r| <= |basename| && r == basename[..|r|]
    ensures |r| < |basename| ==>
              basename[|r|] == '.' && '.' !in basename[|r| + 1..] && |basename| - |r| >= 2
    ensures forall i :: 0 <= i < |basename| - 1 && basename[i] == '.' && '.' !in basename[i + 1..] ==> r == basename[..i]
  {
    var ext := LastSegment(basename, '.');
    if ext != "" && |ext| < |basename| then basename[..|basename| - |ext| - 1] else basename
  }

  /** `replace(/[-_]/g, " ")` */
  function DashesToSpaces(s: string): (r: string)
    ensures |r| == |s|
    ensures forall i :: 0 <= i < |s| ==> r[i] == (if s[i] == '-' || s[i] == '_' then ' ' else s[i])
  {
    seq(|s|, i requires 0 <= i < |s| => if s[i] == '-' || s[i] == '_' then ' ' else s[i])
  }

  /** `replace(/([a-z])([A-Z])/g, "$1 $2")`: a space between each lower-case letter and the capital after it. */
  function SplitCamel(s: string): (r: string)
    ensures forall c :: c in r ==> c in s || c == ' '
    decreases |s|
  {
    if |s| < 2 then s
    else if IsLower(s[0]) && IsUpper(s[1]) then [s[0], ' '] + SplitCamel(s[1..])
    else [s[0]] + SplitCamel(s[1..])
  }

  /**
   * Splitting camel case works join by join: the split of `a + b` is the
   * splits of `a` and `b` with one space between them exactly when `a` ends
   * in a lower-case letter and `b` starts with a capital. With
   * `SplitCamel([c]) == [c]` this fixes the result of every input.
   */
  lemma {:induction false} SplitCamelAppend(a: string, b: string)
    requires a != [] && b != []
    ensures SplitCamel(a + b)
            == SplitCamel(a) + (if IsLower(a[|a| - 1]) && IsUpper(b[0]) then " " else "") + SplitCamel(b)
    decreases |a|
  {
    var sp := if IsLower(a[|a| - 1]) && IsUpper(b[0]) then " " else "";
    if |a| == 1 {
      assert (a + b)[1..] == b;
    } else {
      assert (a + b)[1..] == a[1..] + b;
      SplitCamelAppend(a[1..], b);
      var h := if IsLower(a[0]) && IsUpper(a[1]) then [a[0], ' '] else [a[0]];
      assert SplitCamel(a + b) == h + SplitCamel(a[1..] + b);
      assert SplitCamel(a) == h + SplitCamel(a[1..]);
    }
  }

  /** A text without a lower-case letter followed by a capital is left as it is. */
  lemma {:induction false} SplitCamelPlain(s: string)
    requires forall i :: 0 <= i < |s| - 1 ==> !(IsLower(s[i]) && IsUpper(s[i + 1]))
    ensures SplitCamel(s) == s
    decreases |s|
  {
    if |s| >= 2 {
      SplitCamelPlain(s[1..]);
    }
  }

  /** `replace(/\s+/g, " ")`: every run of white space becomes one ' '. */
  function CollapseSpaces(s: string): (r: string)
    ensures r == [] <==> s == []
    ensures r != [] ==> (r[0] == ' ' <==> IsSpace(s[0]))
    decreases |s|
  {
    if s == [] then []
    else if IsSpace(s[0]) then [' '] + CollapseSpaces(TrimStart(s[1..]))
    else [s[0]] + CollapseSpaces(s[1..])
  }

  /** The collapsed text keeps every non-space character and turns all white space into ' '. */
  lemma {:induction false} CollapseSpacesChars(s: string)
    ensures forall c :: c in CollapseSpaces(s) ==> (c in s && !IsSpace(c)) || c == ' '
    decreases |s|
  {
    if s != [] {
      if IsSpace(s[0]) {
        var rest := TrimStart(s[1..]);
        CollapseSpacesChars(rest);
        forall c | c in rest ensures c in s {
          var i :| 0 <= i < |rest| && rest[i] == c;
          assert s[|s| - |rest| + i] == c;
        }
      } else {
        CollapseSpacesChars(s[1..]);
        assert forall c :: c in s[1..] ==> c in s;
      }
    }
  }

  /** The collapsed text never holds two ' ' in a row. */
  lemma {:induction false} CollapseSpacesSingle(s: string)
    ensures forall i :: 0 <= i < |CollapseSpaces(s)| - 1 ==>
              !(CollapseSpaces(s)[i] == ' ' && CollapseSpaces(s)[i + 1] == ' ')
    decreases |s|
  {
    if s != [] {
      var tail := if IsSpace(s[0]) then TrimStart(s[1..]) else s[1..];
      CollapseSpacesSingle(tail);
      var r, rt := CollapseSpaces(s), CollapseSpaces(tail);
      assert r[1..] == rt;
      assert IsSpace(s[0]) && rt != [] ==> rt[0] != ' ';
      forall i | 0 <= i < |r| - 1 ensures !(r[i] == ' ' && r[i + 1] == ' ') {
        if i > 0 {
          assert r[i] == rt[i - 1] && r[i + 1] == rt[i];
        }
      }
    }
  }

  /** A word without white space is kept as it is. */
  lemma {:induction false} CollapseWord(w: string)
    requires forall i :: 0 <= i < |w| ==> !IsSpace(w[i])
    ensures CollapseSpaces(w) == w
    decreases |w|
  {
    if w != [] {
      CollapseWord(w[1..]);
    }
  }

  /** Leading white space before a text that starts otherwise is dropped by `TrimStart`. */
  lemma {:induction false} TrimStartRun(run: string, t: string)
    requires forall i :: 0 <= i < |run| ==> IsSpace(run[i])
    requires t == [] || !IsSpace(t[0])
    ensures TrimStart(run + t) == t
    decreases |run|
  {
    if run == [] {
      assert run + t == t;
    } else {
      assert (run + t)[1..] == run[1..] + t;
      TrimStartRun(run[1..], t);
    }
  }

  /**
   * A word, then a run of white space, then a text starting otherwise: the
   * word is kept and the whole run becomes one ' '.
   */
  lemma {:induction false} CollapseRun(w: string, run: string, t: string)
    requires forall i :: 0 <= i < |w| ==> !IsSpace(w[i])
    requires run != [] && forall i :: 0 <= i < |run| ==> IsSpace(run[i])
    requires t == [] || !IsSpace(t[0])
    ensures CollapseSpaces(w + run + t) == w + " " + CollapseSpaces(t)
    decreases |w|
  {
    if w == [] {
      assert w + run + t == run + t;
      assert (run + t)[1..] == run[1..] + t;
      TrimStartRun(run[1..], t);
    } else {
      var s := w + run + t;
      assert s[0] == w[0] && s[1..] == w[1..] + run + t;
      CollapseRun(w[1..], run, t);
      assert CollapseSpaces(s) == [w[0]] + CollapseSpaces(w[1..] + run + t);
      assert [w[0]] + (w[1..] + " " + CollapseSpaces(t)) == w + " " + CollapseSpaces(t);
    }
  }

  /** The extension-less name the heuristics look at. */
  function NameWithoutExtension(filename: string): string
  {
    StripExtension(Basename(filename))
  }

  /** `spaced.replace(/\s+/g, " ").trim()` over the lower-cased, separated name. */
  function Cleaned(filename: string): string
  {
    var spaced := Lower(SplitCamel(DashesToSpaces(NameWithoutExtension(filename))));
    Trim(CollapseSpaces(spaced))
  }

  /** `/icon|ico$/i.test(name)` */
  predicate IsIconName(name: string)
  {
    Contains(Lower(name), "icon") || EndsWith(Lower(name), "ico")
  }

  /** `/logo/i.test(name)` */
  predicate IsLogoName(name: string)
  {
    Contains(Lower(name), "logo")
  }

  /**
   * The suffix rule of `deriveAltFromFilename`: " icon" for an icon-like name
   * whose cleaned text lacks "icon", else " logo" for a name mentioning "logo"
   * whose cleaned text lacks "logo", else nothing.
   */
  function WithKindSuffix(cleaned: string, iconName: bool, logoName: bool): string
  {
    if iconName && !Contains(cleaned, "icon") then cleaned + " icon"
    else if logoName && !Contains(cleaned, "logo") then cleaned + " logo"
    else cleaned
  }

  /** `deriveAltFromFilename` */
  function DeriveAltFromFilename(filename: string): (r: string)
    ensures r == Cleaned(filename) || r == Cleaned(filename) + " icon" || r == Cleaned(filename) + " logo"
  {
    var name := NameWithoutExtension(filename);
    WithKindSuffix(Cleaned(filename), IsIconName(name), IsLogoName(name))
  }

  /** The text a description is made of: lower-case, single-spaced, no separators. */
  predicate IsCleanText(s: string)
  {
    && (forall i :: 0 <= i < |s| ==> s[i] != '-' && s[i] != '_' && !IsUpper(s[i]))
    && (forall i :: 0 <= i < |s| ==> IsSpace(s[i]) ==> s[i] == ' ')
    && (forall i :: 0 <= i < |s| - 1 ==> !(s[i] == ' ' && s[i + 1] == ' '))
  }

  /** No character of `s` is '-' or '_'. */
  predicate NoSeparator(s: string)
  {
    forall c :: c in s ==> c != '-' && c != '_'
  }

  /** No character of `s` is '-', '_' or a capital, and its only white space is ' '. */
  predicate PlainChars(s: string)
  {
    forall c :: c in s ==> c != '-' && c != '_' && !IsUpper(c) && (IsSpace(c) ==> c == ' ')
  }

  lemma SeparatorsReplaced(s: string)
    ensures NoSeparator(SplitCamel(DashesToSpaces(s)))
  {
    var d := DashesToSpaces(s);
    forall c | c in d ensures c != '-' && c != '_' {
      var i :| 0 <= i < |d| && d[i] == c;
    }
  }

  lemma LoweredSeparatedIsPlain(s: string)
    requires NoSeparator(s)
    ensures PlainChars(CollapseSpaces(Lower(s)))
  {
    var l := Lower(s);
    CollapseSpacesChars(l);
    forall c | c in l ensures c != '-' && c != '_' && !IsUpper(c) {
      var i :| 0 <= i < |l| && l[i] == c;
      assert s[i] in s;
    }
  }

  lemma TrimKeepsClean(s: string)
    requires PlainChars(s)
    requires forall i :: 0 <= i < |s| - 1 ==> !(s[i] == ' ' && s[i + 1] == ' ')
    ensures IsCleanText(Trim(s))
  {
    var t := Trim(s);
    var k := TrimOffset(s);
    forall i | 0 <= i < |t|
      ensures t[i] != '-' && t[i] != '_' && !IsUpper(t[i]) && (IsSpace(t[i]) ==> t[i] == ' ')
    {
      assert t[i] == s[k + i];
      assert s[k + i] in s;
    }
    forall i | 0 <= i < |t| - 1
      ensures !(t[i] == ' ' && t[i + 1] == ' ')
    {
      assert t[i] == s[k + i] && t[i + 1] == s[k + i + 1];
    }
  }

  /**
   * The cleaned name holds no '-', '_' or capital letter, its only white
   * space is single ' ' characters, and it neither starts nor ends with one.
   */
  lemma CleanedIsClean(filename: string)
    ensures IsCleanText(Cleaned(filename))
    ensures Cleaned(filename) != [] ==> Cleaned(filename)[0] != ' ' && Cleaned(filename)[|Cleaned(filename)| - 1] != ' '
  {
    var sc := SplitCamel(DashesToSpaces(NameWithoutExtension(filename)));
    var col := CollapseSpaces(Lower(sc));
    assert Cleaned(filename) == Trim(col);
    SeparatorsReplaced(NameWithoutExtension(filename));
    LoweredSeparatedIsPlain(sc);
    CollapseSpacesSingle(Lower(sc));
    TrimKeepsClean(col);
  }

  /** Appending a suffix made of lower-case letters keeps the text clean. */
  lemma AppendWordKeepsClean(s: string, word: string)
    requires IsCleanText(s) && (s != [] ==> s[|s| - 1] != ' ')
    requires forall i :: 0 <= i < |word| ==> IsLower(word[i])
    ensures IsCleanText(s + " " + word)
  {
  }

  /** Appending a kind suffix keeps a clean text clean. */
  lemma KindSuffixKeepsClean(c: string, iconName: bool, logoName: bool)
    requires IsCleanText(c) && (c != [] ==> c[|c| - 1] != ' ')
    ensures IsCleanText(WithKindSuffix(c, iconName, logoName))
  {
    if iconName && !Contains(c, "icon") {
      AppendWordKeepsClean(c, "icon");
      assert c + " " + "icon" == c + " icon";
    } else if logoName && !Contains(c, "logo") {
      AppendWordKeepsClean(c, "logo");
      assert c + " " + "logo" == c + " logo";
    }
  }

  /** The description holds no '-', '_' or capital letter and no doubled or non-' ' white space. */
  lemma DeriveAltIsClean(filename: string)
    ensures IsCleanText(DeriveAltFromFilename(filename))
  {
    CleanedIsClean(filename);
    var name := NameWithoutExtension(filename);
    KindSuffixKeepsClean(Cleaned(filename), IsIconName(name), IsLogoName(name));
  }

  /** A text containing `p` still contains it once something is appended. */
  lemma {:induction false} ContainsExtend(a: string, b: string, p: string)
    requires Contains(a, p)
    ensures Contains(a + b, p)
    decreases |a|
  {
    if StartsWith(a, p) {
      assert (a + b)[..|p|] == a[..|p|];
    } else {
      assert (a + b)[1..] == a[1..] + b;
      ContainsExtend(a[1..], b, p);
    }
  }

  /** A text contains every one of its suffixes. */
  lemma {:induction false} ContainsSuffix(a: string, b: string)
    ensures Contains(a + b, b)
    decreases |a|
  {
    if a == [] {
      assert (a + b)[..|b|] == b;
    } else {
      assert (a + b)[1..] == a[1..] + b;
      ContainsSuffix(a[1..], b);
    }
  }

  /**
   * Which suffix is appended: " icon" exactly when the name looks like an
   * icon and the cleaned text lacks "icon"; otherwise " logo" exactly when the
   * name mentions "logo" and the cleaned text lacks it; never both.
   */
  lemma KindSuffixChoice(c: string, iconName: bool, logoName: bool)
    ensures var r := WithKindSuffix(c, iconName, logoName);
            && (r == c + " icon" <==> iconName && !Contains(c, "icon"))
            && (r == c + " logo" <==> !(iconName && !Contains(c, "icon")) && logoName && !Contains(c, "logo"))
            && (r == c <==> !(iconName && !Contains(c, "icon")) && !(logoName && !Contains(c, "logo")))
  {
    assert c + " icon" != c + " logo" by { assert (c + " icon")[|c| + 1] != (c + " logo")[|c| + 1]; }
    assert c + " icon" != c && c + " logo" != c by { assert |c + " icon"| != |c|; }
  }

  /**
   * An icon-like name always yields a description mentioning "icon"; a name
   * that mentions "logo" but is not icon-like yields one mentioning "logo".
   */
  lemma KindSuffixMentionsKind(c: string, iconName: bool, logoName: bool)
    ensures iconName ==> Contains(WithKindSuffix(c, iconName, logoName), "icon")
    ensures logoName && !iconName ==> Contains(WithKindSuffix(c, iconName, logoName), "logo")
  {
    if iconName && !Contains(c, "icon") {
      ContainsSuffix(c + " ", "icon");
      assert c + " " + "icon" == c + " icon";
    } else if logoName && !Contains(c, "logo") {
      ContainsSuffix(c + " ", "logo");
      assert c + " " + "logo" == c + " logo";
      if iconName {
        ContainsExtend(c, " logo", "icon");
      }
    }
  }

  /** Stripping ".ext" from a name without '/' leaves the part before the last '.'. */
  lemma NameWithoutExtensionOf(name: string, ext: string)
    requires '/' !in name && '/' !in ext && '.' !in ext && ext != []
    ensures NameWithoutExtension(name + ['.'] + ext) == name
  {
    var f := name + ['.'] + ext;
    assert f[|f| - 1] == ext[|ext| - 1];
    forall i | 0 <= i < |f| ensures f[i] != '/' {
      if i < |name| {
        assert f[i] == name[i];
      } else if i > |name| {
        assert f[i] == ext[i - |name| - 1];
      }
    }
    assert Basename(f) == f;
    LastSegmentAfter(name, '.', ext);
    assert f[..|f| - |ext| - 1] == name;
  }

  lemma WordNotSpace(w: string)
    requires forall i :: 0 <= i < |w| ==> IsLower(w[i])
    ensures forall i :: 0 <= i < |w| ==> !IsSpace(w[i])
  {
  }

  /** Two lower-case words with one ' ' between them are their own cleaned form. */
  lemma TwoWordsClean(a: string, b: string)
    requires a != [] && b != []
    requires forall i :: 0 <= i < |a| ==> IsLower(a[i])
    requires forall i :: 0 <= i < |b| ==> IsLower(b[i])
    ensures Trim(CollapseSpaces(a + " " + b)) == a + " " + b
  {
    WordNotSpace(a);
    WordNotSpace(b);
    CollapseRun(a, " ", b);
    CollapseWord(b);
    var s := a + " " + b;
    assert s[0] == a[0] && s[|s| - 1] == b[|b| - 1];
    TrimUntouched(s);
  }

  /** A text that neither starts nor ends with white space is its own `trim()`. */
  lemma TrimUntouched(s: string)
    requires s == [] || (!IsSpace(s[0]) && !IsSpace(s[|s| - 1]))
    ensures Trim(s) == s
  {
    assert TrimStart(s) == s;
    assert TrimEnd(s) == s;
  }

  /** A text without '-' and '_' has nothing to replace. */
  lemma DashesToSpacesPlain(s: string)
    requires forall i :: 0 <= i < |s| ==> s[i] != '-' && s[i] != '_'
    ensures DashesToSpaces(s) == s
  {
  }

  /** A text of letters holds no '/', '-' or '_'. */
  lemma LettersOnly(s: string)
    requires forall i :: 0 <= i < |s| ==> IsLower(s[i]) || IsUpper(s[i])
    ensures '/' !in s
    ensures forall i :: 0 <= i < |s| ==> s[i] != '-' && s[i] != '_'
  {
  }

  /** Lower-casing works character by character, so it distributes over concatenation. */
  lemma LowerAppend(x: string, y: string)
    ensures Lower(x + y) == Lower(x) + Lower(y)
  {
  }

  /**
   * A camel-case name of two words, such as "beachSunset.jpg", is cleaned to
   * the two words in lower case with one space between them.
   */
  lemma CamelWordsCleaned(a: string, b: string, ext: string)
    requires a != [] && forall i :: 0 <= i < |a| ==> IsLower(a[i])
    requires b != [] && IsUpper(b[0]) && forall i :: 1 <= i < |b| ==> IsLower(b[i])
    requires ext != [] && '.' !in ext && '/' !in ext
    ensures NameWithoutExtension(a + b + ['.'] + ext) == a + b
    ensures Cleaned(a + b + ['.'] + ext) == a + " " + Lower(b)
  {
    var name := a + b;
    CamelLetters(a, b);
    LettersOnly(name);
    NameWithoutExtensionOf(name, ext);
    DashesToSpacesPlain(name);
    CamelSplit(a, b);
    CamelLowered(a, b);
    TwoWordsClean(a, Lower(b));
    CleanedVia(name + ['.'] + ext, name, name, a + " " + b, a + " " + Lower(b));
  }

  /** `Cleaned` through its stages. */
  lemma CleanedVia(f: string, name: string, dashed: string, split: string, spaced: string)
    requires NameWithoutExtension(f) == name
    requires DashesToSpaces(name) == dashed
    requires SplitCamel(dashed) == split
    requires Lower(split) == spaced
    requires Trim(CollapseSpaces(spaced)) == spaced
    ensures Cleaned(f) == spaced
  {
  }

  lemma CamelLetters(a: string, b: string)
    requires forall i :: 0 <= i < |a| ==> IsLower(a[i])
    requires b != [] && IsUpper(b[0]) && forall i :: 1 <= i < |b| ==> IsLower(b[i])
    ensures forall i :: 0 <= i < |a + b| ==> IsLower((a + b)[i]) || IsUpper((a + b)[i])
  {
  }

  /** The one join of a lower-case word and a capitalised one gets the only space. */
  lemma CamelSplit(a: string, b: string)
    requires a != [] && forall i :: 0 <= i < |a| ==> IsLower(a[i])
    requires b != [] && IsUpper(b[0]) && forall i :: 1 <= i < |b| ==> IsLower(b[i])
    ensures SplitCamel(a + b) == a + " " + b
  {
    SplitCamelAppend(a, b);
    SplitCamelPlain(a);
    SplitCamelPlain(b);
  }

  /** Lower-casing the split name lower-cases only the second word; the result holds no white space but the one ' '. */
  lemma CamelLowered(a: string, b: string)
    requires forall i :: 0 <= i < |a| ==> IsLower(a[i])
    requires b != [] && IsUpper(b[0]) && forall i :: 1 <= i < |b| ==> IsLower(b[i])
    ensures Lower(a + " " + b) == a + " " + Lower(b)
    ensures forall i :: 0 <= i < |Lower(b)| ==> IsLower(Lower(b)[i])
  {
    LowerAppend(a + " ", b);
    LowerAppend(a, " ");
    assert Lower(a) == a;
  }

  /** A text without capitals is its own lower-case form. */
  lemma LowerWithoutCapitals(s: string)
    requires forall i :: 0 <= i < |s| ==> !IsUpper(s[i])
    ensures Lower(s) == s
  {
  }

  /** Lower-casing introduces a lower-case letter only where the text held it or its capital. */
  lemma LowerLacks(s: string, c: char)
    requires IsLower(c)
    requires forall i :: 0 <= i < |s| ==> s[i] != c && s[i] as int != c as int - 32
    ensures c !in Lower(s)
  {
    forall i | 0 <= i < |s| ensures Lower(s)[i] != c {
      assert Lower(s)[i] == LowerChar(s[i]);
    }
  }

  /**
   * A two-word camel-case name that holds neither "i", "I", "l" nor "L"
   * and does not end in 'o' or 'O' is described by its two words in lower
   * case, with no kind suffix.
   */
  lemma CamelWordsDescribed(a: string, b: string, ext: string)
    requires a != [] && forall i :: 0 <= i < |a| ==> IsLower(a[i])
    requires b != [] && IsUpper(b[0]) && forall i :: 1 <= i < |b| ==> IsLower(b[i])
    requires ext != [] && '.' !in ext && '/' !in ext
    requires forall i :: 0 <= i < |a + b| ==> (a + b)[i] !in "iIlL"
    requires b[|b| - 1] != 'o' && b[|b| - 1] != 'O'
    ensures DeriveAltFromFilename(a + b + ['.'] + ext) == a + " " + Lower(b)
  {
    CamelWordsCleaned(a, b, ext);
    CamelKinds(a, b);
    DeriveVia(a + b + ['.'] + ext, a + b, a + " " + Lower(b), false, false);
  }

  lemma CamelKinds(a: string, b: string)
    requires b != [] && forall i :: 0 <= i < |a + b| ==> (a + b)[i] !in "iIlL"
    requires b[|b| - 1] != 'o' && b[|b| - 1] != 'O'
    ensures !IsIconName(a + b) && !IsLogoName(a + b)
  {
    var name := a + b;
    LowerLacks(name, 'i');
    LowerLacks(name, 'l');
    ContainsNeedsFirstChar(Lower(name), "icon");
    ContainsNeedsFirstChar(Lower(name), "logo");
    assert Lower(name)[|name| - 1] == LowerChar(b[|b| - 1]);
  }

  /** `deriveAltFromFilename` through its stages. */
  lemma DeriveVia(f: string, name: string, cleaned: string, iconName: bool, logoName: bool)
    requires NameWithoutExtension(f) == name
    requires Cleaned(f) == cleaned
    requires IsIconName(name) == iconName && IsLogoName(name) == logoName
    ensures DeriveAltFromFilename(f) == WithKindSuffix(cleaned, iconName, logoName)
  {
  }

  /** A text without capitals has no lower-case letter followed by a capital. */
  lemma SplitCamelNoCapitals(s: string)
    requires forall i :: 0 <= i < |s| ==> !IsUpper(s[i])
    ensures SplitCamel(s) == s
  {
    SplitCamelPlain(s);
  }

  /** Two lower-case words joined by `sep` hold no '/' and no capital. */
  lemma JoinedWordsChars(a: string, sep: string, b: string)
    requires forall i :: 0 <= i < |a| ==> IsLower(a[i])
    requires forall i :: 0 <= i < |b| ==> IsLower(b[i])
    requires sep == "_" || sep == " "
    ensures forall i :: 0 <= i < |a + sep + b| ==> (a + sep + b)[i] != '/' && !IsUpper((a + sep + b)[i])
  {
  }

  /** Replacing separators in two lower-case words joined by '_' gives the words joined by ' '. */
  lemma DashesSnake(a: string, b: string)
    requires forall i :: 0 <= i < |a| ==> IsLower(a[i])
    requires forall i :: 0 <= i < |b| ==> IsLower(b[i])
    ensures DashesToSpaces(a + "_" + b) == a + " " + b
  {
    var s := a + "_" + b;
    forall i | 0 <= i < |s| ensures DashesToSpaces(s)[i] == (a + " " + b)[i] {
      if i < |a| {
        assert s[i] == a[i];
      } else if i > |a| {
        assert s[i] == b[i - |a| - 1];
      }
    }
  }

  /**
   * A snake-case name of two lower-case words, such as "app_ico.png", is
   * cleaned to the two words with one space between them.
   */
  lemma SnakeWordsCleaned(a: string, b: string, ext: string)
    requires a != [] && forall i :: 0 <= i < |a| ==> IsLower(a[i])
    requires b != [] && forall i :: 0 <= i < |b| ==> IsLower(b[i])
    requires ext != [] && '.' !in ext && '/' !in ext
    ensures NameWithoutExtension(a + "_" + b + "." + ext) == a + "_" + b
    ensures Cleaned(a + "_" + b + "." + ext) == a + " " + b
  {
    var name := a + "_" + b;
    var spaced := a + " " + b;
    JoinedWordsChars(a, "_", b);
    JoinedWordsChars(a, " ", b);
    assert '/' !in name;
    NameWithoutExtensionOf(name, ext);
    assert name + ['.'] + ext == name + "." + ext;
    DashesSnake(a, b);
    SplitCamelNoCapitals(spaced);
    LowerWithoutCapitals(spaced);
    TwoWordsClean(a, b);
    CleanedVia(name + "." + ext, name, spaced, spaced, spaced);
  }

  /** A snake-case name whose last word is "ico" looks like an icon, and its spaced form lacks "icon" when the first word has no 'i'. */
  lemma IcoKinds(a: string)
    requires forall i :: 0 <= i < |a| ==> IsLower(a[i]) && a[i] != 'i'
    ensures IsIconName(a + "_" + "ico") && !Contains(a + " " + "ico", "icon")
  {
    var name := a + "_" + "ico";
    JoinedWordsChars(a, "_", "ico");
    LowerWithoutCapitals(name);
    assert name[|name| - 3..] == "ico";
    var spaced := a + " " + "ico";
    assert spaced[..|a| + 1] == a + " ";
    NotContainsBefore(spaced, "icon", |a| + 1);
  }

  /**
   * A snake-case name ending in "_ico", such as "app_ico.png", counts as an
   * icon and is described as its words followed by " icon", since its
   * cleaned text does not hold "icon".
   */
  lemma IcoNameDescribed(a: string, ext: string)
    requires a != [] && forall i :: 0 <= i < |a| ==> IsLower(a[i]) && a[i] != 'i'
    requires ext != [] && '.' !in ext && '/' !in ext
    ensures DeriveAltFromFilename(a + "_" + "ico" + "." + ext) == a + " " + "ico" + " icon"
  {
    SnakeWordsCleaned(a, "ico", ext);
    IcoKinds(a);
    var name := a + "_" + "ico";
    DeriveVia(name + "." + ext, name, a + " " + "ico", true, IsLogoName(name));
  }
}
