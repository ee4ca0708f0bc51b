/**
  The image-type filter that the batch loader applies to every file name it
  meets while walking the data directory (main.py:105).

  The source tests `re.search(r"\.(jpg|jpeg|JPEG|png|bmp|tiff)$", filename)`.
  Two details of that regular expression decide which names pass:
  - the alternatives are compared character by character, so the match is
    case-sensitive: `JPEG` and `jpeg` pass, `PNG` or `Jpg` do not;
  - without the MULTILINE flag, `$` matches at the very end of the string and
    also just before a newline that is the string's last character, so a name
    ending in ".png\n" passes as well.
 */
module FileFilter {

  /** The extensions the alternation accepts, in the order it lists them. */
  const ImageExtensions: seq<string> := ["jpg", "jpeg", "JPEG", "png", "bmp", "tiff"]

  /** `s` ends with `suffix`. */
  predicate EndsWith(s: string, suffix: string)
  {
    |suffix| <= |s| && s[|s| - |suffix|..] == suffix
  }

  /** `s` is `stem` followed by `suffix` (the reference reading of "ends with"). */
  predicate IsSplit(s: string, stem: string, suffix: string)
  {
    s == stem + suffix
  }

  /** Tries the alternatives one after another, as the regular expression engine does. */
  predicate EndsWithDotExtension(s: string, exts: seq<string>)
  {
    exts != [] && (EndsWith(s, "." + exts[0]) || EndsWithDotExtension(s, exts[1..]))
  }

  /**
    The filter of main.py:105, with the `$` anchor's optional final newline.
    A name that passes holds a dot and at least four characters (".jpg").
   */
  predicate MatchesImageExtension(name: string): (r: bool)
    ensures r ==> '.' in name && |name| >= 4
  {
    MatchHasDot(name);
    || EndsWithDotExtension(name, ImageExtensions)
    || (|name| > 0 && name[|name| - 1] == '\n'
        && EndsWithDotExtension(name[..|name| - 1], ImageExtensions))
  }

  /** Either way of matching leaves a dot and a four-character suffix in the name. */
  lemma MatchHasDot(name: string)
    ensures EndsWithDotExtension(name, ImageExtensions) ==> '.' in name && |name| >= 4
    ensures |name| > 0 && name[|name| - 1] == '\n'
              && EndsWithDotExtension(name[..|name| - 1], ImageExtensions)
            ==> '.' in name && |name| >= 4
  {
    SomeDottedExtensionHasDot(name);
    if |name| > 0 {
      var body := name[..|name| - 1];
      SomeDottedExtensionHasDot(body);
      if '.' in body {
        var k :| 0 <= k < |body| && body[k] == '.';
        assert name[k] == '.';
      }
    }
  }

  /** Ending in any of the six dotted extensions leaves a dot and at least four characters. */
  lemma SomeDottedExtensionHasDot(s: string)
    ensures EndsWithDotExtension(s, ImageExtensions) ==> '.' in s && |s| >= 4
  {
    EndsWithDotExtensionIff(s, ImageExtensions);
    if EndsWithDotExtension(s, ImageExtensions) {
      var i :| 0 <= i < |ImageExtensions| && EndsWith(s, "." + ImageExtensions[i]);
      ExtensionLengths();
      DottedSuffixHasDot(s, ImageExtensions[i]);
    }
  }

  /** Every extension of the alternation has at least three letters. */
  lemma ExtensionLengths()
    ensures forall i :: 0 <= i < |ImageExtensions| ==> |ImageExtensions[i]| >= 3
  {
  }

  /** A name ending in a dot and an extension of three or more letters holds that dot and is at least four long. */
  lemma DottedSuffixHasDot(s: string, ext: string)
    requires EndsWith(s, "." + ext) && |ext| >= 3
    ensures '.' in s && |s| >= 4
  {
    var suffix := "." + ext;
    assert s[|s| - |suffix|] == suffix[0] == '.';
  }

  /** "Ends with" computed by slicing agrees with "is some stem followed by". */
  lemma EndsWithIsSplit(s: string, suffix: string)
    ensures EndsWith(s, suffix) <==> exists stem :: IsSplit(s, stem, suffix)
  {
    if EndsWith(s, suffix) {
      var stem := s[..|s| - |suffix|];
      assert s == stem + s[|s| - |suffix|..];
      assert IsSplit(s, stem, suffix);
    }
    if stem :| IsSplit(s, stem, suffix) {
      assert s[|s| - |suffix|..] == suffix;
    }
  }

  /** Trying the alternatives in order finds a match exactly when one of them matches. */
  lemma {:induction false} EndsWithDotExtensionIff(s: string, exts: seq<string>)
    ensures EndsWithDotExtension(s, exts) <==> exists i :: 0 <= i < |exts| && EndsWith(s, "." + exts[i])
  {
    if exts != [] {
      EndsWithDotExtensionIff(s, exts[1..]);
      if !EndsWith(s, "." + exts[0]) && exists i :: 0 <= i < |exts| && EndsWith(s, "." + exts[i]) {
        var i :| 0 <= i < |exts| && EndsWith(s, "." + exts[i]);
        assert i != 0;
        assert exts[1..][i - 1] == exts[i];
      }
    }
  }

  /**
    The filter accepts a name exactly when it is some stem, a dot and one of
    the six extensions, optionally followed by a single final newline.
   */
  lemma MatchesImageExtensionSpec(name: string)
    ensures MatchesImageExtension(name) <==>
      exists i :: 0 <= i < |ImageExtensions| &&
        ((exists stem :: IsSplit(name, stem, "." + ImageExtensions[i])) ||
         (exists stem :: IsSplit(name, stem, "." + ImageExtensions[i] + "\n")))
  {
    PlainMatchSpec(name);
    NewlineMatchSpec(name);
  }

  /** Without the newline: some stem, a dot and one of the extensions. */
  lemma PlainMatchSpec(name: string)
    ensures EndsWithDotExtension(name, ImageExtensions) <==>
      exists i :: 0 <= i < |ImageExtensions| &&
        exists stem :: IsSplit(name, stem, "." + ImageExtensions[i])
  {
    EndsWithDotExtensionIff(name, ImageExtensions);
    forall i | 0 <= i < |ImageExtensions|
      ensures EndsWith(name, "." + ImageExtensions[i]) <==>
              exists stem :: IsSplit(name, stem, "." + ImageExtensions[i])
    {
      EndsWithIsSplit(name, "." + ImageExtensions[i]);
    }
  }

  /** With the newline: some stem, a dot, one of the extensions and a final newline. */
  lemma NewlineMatchSpec(name: string)
    ensures (|name| > 0 && name[|name| - 1] == '\n'
             && EndsWithDotExtension(name[..|name| - 1], ImageExtensions)) <==>
      exists i :: 0 <= i < |ImageExtensions| &&
        exists stem :: IsSplit(name, stem, "." + ImageExtensions[i] + "\n")
  {
    forall i | 0 <= i < |ImageExtensions|
      ensures EndsWith(name, "." + ImageExtensions[i] + "\n") <==>
              exists stem :: IsSplit(name, stem, "." + ImageExtensions[i] + "\n")
    {
      EndsWithIsSplit(name, "." + ImageExtensions[i] + "\n");
    }
    if |name| > 0 && name[|name| - 1] == '\n' {
      var body := name[..|name| - 1];
      assert name == body + "\n";
      EndsWithDotExtensionIff(body, ImageExtensions);
      forall i | 0 <= i < |ImageExtensions|
        ensures EndsWith(body, "." + ImageExtensions[i]) <==>
                EndsWith(name, "." + ImageExtensions[i] + "\n")
      {
        EndsWithNewline(body, "." + ImageExtensions[i]);
      }
    } else {
      forall i | 0 <= i < |ImageExtensions|
        ensures !EndsWith(name, "." + ImageExtensions[i] + "\n")
      {
        var suffix := "." + ImageExtensions[i] + "\n";
        assert suffix[|suffix| - 1] == '\n';
      }
    }
  }

  /** Appending one final newline to both sides keeps "ends with". */
  lemma EndsWithNewline(body: string, suffix: string)
    ensures EndsWith(body, suffix) <==> EndsWith(body + "\n", suffix + "\n")
  {
    var name := body + "\n";
    if EndsWith(name, suffix + "\n") {
      assert name[|name| - |suffix| - 1..|name| - 1] == (suffix + "\n")[..|suffix|];
      assert (suffix + "\n")[..|suffix|] == suffix;
      assert body[|body| - |suffix|..] == name[|name| - |suffix| - 1..|name| - 1];
    }
    if EndsWith(body, suffix) {
      assert name[|name| - |suffix| - 1..] == body[|body| - |suffix|..] + "\n";
    }
  }

  /** Names the filter lets through. */
  lemma AcceptedNames()
    ensures MatchesImageExtension("car.jpg")
    ensures MatchesImageExtension("car.jpeg")
    ensures MatchesImageExtension("car.JPEG")
    ensures MatchesImageExtension("scan.tiff")
    ensures MatchesImageExtension("car.png\n")
  {
    assert EndsWith("car.jpeg", ".jpeg");
    assert EndsWith("car.JPEG", ".JPEG");
    assert EndsWith("scan.tiff", ".tiff");
    assert "car.png\n"[..7] == "car.png";
    assert EndsWith("car.png", ".png");
  }

  /** A name none of whose six dotted extensions ends it is turned away (no final newline). */
  lemma NoExtensionRejected(name: string)
    requires |name| == 0 || name[|name| - 1] != '\n'
    requires forall i :: 0 <= i < |ImageExtensions| ==> !EndsWith(name, "." + ImageExtensions[i])
    ensures !MatchesImageExtension(name)
  {
    EndsWithDotExtensionIff(name, ImageExtensions);
  }

  /** Case-sensitive: an upper-case `PNG` is not the `png` alternative. */
  lemma UpperCasePngRejected()
    ensures !MatchesImageExtension("x.PNG")
  {
    var name := "x.PNG";
    assert name[1..] == ".PNG" && name[0..] == "x.PNG";
    NoExtensionRejected(name);
  }

  /** Whole-extension: `tif` is not `tiff`. */
  lemma ShortTiffRejected()
    ensures !MatchesImageExtension("x.tif")
  {
    var name := "x.tif";
    assert name[1..] == ".tif" && name[0..] == "x.tif";
    NoExtensionRejected(name);
  }

  /** Anchored at the end: an image extension followed by more text does not pass. */
  lemma InnerExtensionRejected()
    ensures !MatchesImageExtension("x.jpg.zip")
  {
    var name := "x.jpg.zip";
    forall i | 0 <= i < |ImageExtensions|
      ensures !EndsWith(name, "." + ImageExtensions[i])
    {
      var suffix := "." + ImageExtensions[i];
      if |suffix| == 4 {
        assert name[5..][1] == 'z' != suffix[1];
      } else {
        assert name[4..][0] == 'g' != suffix[0];
      }
    }
    NoExtensionRejected(name);
  }
}
