/**
 * The URL normaliser the backend applies before vectorising a URL
 * (`preprocess_url_for_ml`): it keeps the scheme, the network location and at
 * most the first two non-empty path segments.
 *
 * Parsing itself (`urlparse`) is library behaviour and is not modelled: the
 * parse result is an input, next to the original text.
 */
module UrlNormaliser {
  import opened Wrappers
  import opened Strings

  /** The parts of `urlparse(url)` that the normaliser reads. */
  datatype ParsedUrl = ParsedUrl(scheme: string, netloc: string, path: string)

  /** How many path segments survive normalisation. */
  const KeptSegments: nat := 2

  /**
   * The non-empty segments of a path, computed as the backend does:
   * strip the slashes at both ends, split on '/', drop empty pieces.
   * Stripping turns out to be irrelevant: the result is the non-empty
   * pieces of the unstripped path.
   */
  function PathSegments(path: string): (segs: seq<string>)
    ensures segs == NonEmpty(Split(path, '/'))
    ensures forall i :: 0 <= i < |segs| ==> segs[i] != "" && '/' !in segs[i]
  {
    StripKeepsNonEmpty(path, '/');
    NonEmptySubset(Split(path, '/'), '/');
    NonEmpty(Split(Strip(path, '/'), '/'))
  }

  /** Each segment written with a leading slash: ["a", "b"] becomes "/a/b". */
  function Prefixed(segs: seq<string>): string
  {
    if segs == [] then "" else "/" + segs[0] + Prefixed(segs[1..])
  }

  lemma PrefixedPair(a: string, b: string)
    ensures Prefixed([a, b]) == "/" + a + "/" + b
  {
    assert [a, b][1..] == [b];
    assert [b][1..] == [];
    assert Prefixed([b]) == "/" + b;
  }

  /**
   * `preprocess_url_for_ml(original)` where `parsed` is `urlparse(original)`.
   * Without a scheme or a network location the text is returned unchanged;
   * otherwise the result is `scheme://netloc` followed by the first two
   * non-empty path segments, each behind one slash, so that a path with no
   * segment (empty, "/", "//") gives no trailing slash; query, fragment and
   * empty segments are dropped.
   */
  function PreprocessUrl(original: string, parsed: ParsedUrl): (r: string)
    ensures parsed.scheme == "" || parsed.netloc == "" ==> r == original
    ensures parsed.scheme != "" && parsed.netloc != "" ==>
      r == parsed.scheme + "://" + parsed.netloc
           + Prefixed(Take(NonEmpty(Split(parsed.path, '/')), KeptSegments))
  {
    if parsed.scheme == "" || parsed.netloc == "" then original
    else
      var segs := PathSegments(parsed.path);
      var trimmedPath :=
        if |segs| >= 2 then "/" + Join(segs[..2], '/')
        else if |segs| == 1 then "/" + segs[0]
        else if parsed.path == "" then ""
        else "/";
      var baseUrl := parsed.scheme + "://" + parsed.netloc
                     + (if trimmedPath != "/" || (trimmedPath == "/" && segs != []) then trimmedPath else "");
      assert |segs| >= 2 ==> Join(segs[..2], '/') == segs[0] + "/" + segs[1] by {
        if |segs| >= 2 {
          assert segs[..2][1..] == [segs[1]];
        }
      }
      assert |segs| >= 2 ==> Prefixed(segs[..2]) == "/" + segs[0] + "/" + segs[1] by {
        if |segs| >= 2 {
          assert segs[..2] == [segs[0], segs[1]];
          PrefixedPair(segs[0], segs[1]);
        }
      }
      assert |segs| == 1 ==> Prefixed(segs) == "/" + segs[0] by {
        if |segs| == 1 {
          assert segs[1..] == [];
        }
      }
      if segs == [] && parsed.path == "" then parsed.scheme + "://" + parsed.netloc
      else baseUrl
  }

  /** With no non-empty segment the result is `scheme://netloc`, with no trailing slash. */
  lemma NoSegmentsNoTrailingSlash(original: string, parsed: ParsedUrl)
    requires parsed.scheme != "" && parsed.netloc != ""
    requires PathSegments(parsed.path) == []
    ensures PreprocessUrl(original, parsed) == parsed.scheme + "://" + parsed.netloc
  {
  }

  /** A path with two or more segments keeps exactly the first two, in order. */
  lemma KeepsFirstTwoSegments(original: string, parsed: ParsedUrl)
    requires parsed.scheme != "" && parsed.netloc != ""
    requires |PathSegments(parsed.path)| >= 2
    ensures var segs := PathSegments(parsed.path);
            PreprocessUrl(original, parsed)
            == parsed.scheme + "://" + parsed.netloc + "/" + segs[0] + "/" + segs[1]
  {
    var segs := PathSegments(parsed.path);
    assert segs[..2] == [segs[0], segs[1]];
    PrefixedPair(segs[0], segs[1]);
  }

  /** Splitting a slash-prefixed list of clean segments gives "" followed by the segments. */
  lemma {:induction false} SplitPrefixed(segs: seq<string>)
    requires forall i :: 0 <= i < |segs| ==> '/' !in segs[i]
    ensures Split(Prefixed(segs), '/') == [""] + segs
  {
    if segs != [] {
      var rest := Prefixed(segs[1..]);
      SplitPrefixed(segs[1..]);
      SplitPrefixWithoutSep(segs[0], rest, '/');
      var s := "/" + segs[0] + rest;
      assert s[1..] == segs[0] + rest;
      assert Split(s, '/') == [""] + Split(segs[0] + rest, '/');
      assert segs[0] + "" == segs[0];
      assert [segs[0]] + segs[1..] == segs;
    }
  }

  /** The non-empty segments of a normalised path are the segments it was built from. */
  lemma SegmentsOfPrefixed(segs: seq<string>)
    requires forall i :: 0 <= i < |segs| ==> segs[i] != "" && '/' !in segs[i]
    ensures PathSegments(Prefixed(segs)) == segs
  {
    SplitPrefixed(segs);
    NonEmptyConcat([""], segs);
    NonEmptyOfNonEmpty(segs);
  }

  /**
   * Normalisation is idempotent: when the normalised URL parses back into the
   * same scheme and network location and the kept path, normalising it again
   * changes nothing.
   */
  lemma PreprocessIdempotent(original: string, parsed: ParsedUrl)
    requires parsed.scheme != "" && parsed.netloc != ""
    ensures var kept := Prefixed(Take(PathSegments(parsed.path), KeptSegments));
            var once := PreprocessUrl(original, parsed);
            PreprocessUrl(once, ParsedUrl(parsed.scheme, parsed.netloc, kept)) == once
  {
    var segs := Take(PathSegments(parsed.path), KeptSegments);
    assert forall i :: 0 <= i < |segs| ==> segs[i] == PathSegments(parsed.path)[i];
    SegmentsOfPrefixed(segs);
    assert Take(segs, KeptSegments) == segs;
  }
}
