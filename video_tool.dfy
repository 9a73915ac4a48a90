/**
 * The `create_video` tool of the video generation service: the text of the
 * video is turned into a safe file name (keep a restricted character set,
 * strip, spaces to underscores, at most 50 characters), the generator is
 * called, and success or failure is rendered as a message string.
 */
module VideoTool {
  import opened Wrappers

  /** The tool's default video length in seconds. */
  const DefaultDuration: real := 3.0

  /** Longest sanitised text kept in a file name. */
  const MaxSafeLength: nat := 50

  /** `str.isalnum`, restricted to ASCII letters and digits. */
  predicate IsAlnum(c: char) {
    'a' <= c <= 'z' || 'A' <= c <= 'Z' || '0' <= c <= '9'
  }

  /** The characters the filter lets through. */
  predicate IsKept(c: char) {
    IsAlnum(c) || c == ' ' || c == '_' || c == '-'
  }

  /** The ASCII characters that `str.strip()` removes. */
  predicate IsWhitespace(c: char) {
    c == ' ' || c == '\t' || c == '\n' || c == '\r' || c == '\U{000B}' || c == '\U{000C}'
    || c == '\U{001C}' || c == '\U{001D}' || c == '\U{001E}' || c == '\U{001F}'
  }

  /** Characters that may appear in a sanitised text. */
  predicate IsSafe(c: char) {
    IsKept(c) && c != ' '
  }

  predicate AllKept(s: string) {
    forall i :: 0 <= i < |s| ==> IsKept(s[i])
  }

  predicate AllSafe(s: string) {
    forall i :: 0 <= i < |s| ==> IsSafe(s[i])
  }

  /** `"".join(c for c in s if c.isalnum() or c in (' ', '_', '-'))` */
  function KeepAllowed(s: string): (r: string)
    ensures |r| <= |s|
    ensures AllKept(r)
    ensures forall c :: c in r ==> c in s
  {
    if s == [] then []
    else (if IsKept(s[0]) then [s[0]] else []) + KeepAllowed(s[1..])
  }

  /** Filtering a concatenation filters each part in place: kept characters keep their order. */
  lemma {:induction false} KeepAllowedAppend(s: string, t: string)
    ensures KeepAllowed(s + t) == KeepAllowed(s) + KeepAllowed(t)
  {
    if s == [] {
      assert s + t == t;
    } else {
      var head := if IsKept(s[0]) then [s[0]] else [];
      assert (s + t)[0] == s[0] && (s + t)[1..] == s[1..] + t;
      calc {
        KeepAllowed(s + t);
        head + KeepAllowed(s[1..] + t);
        { KeepAllowedAppend(s[1..], t); }
        head + (KeepAllowed(s[1..]) + KeepAllowed(t));
        (head + KeepAllowed(s[1..])) + KeepAllowed(t);
      }
    }
  }

  /** Every kept character survives as often as it occurs; every other character disappears. */
  lemma {:induction false} KeepAllowedCounts(s: string, c: char)
    ensures multiset(KeepAllowed(s))[c] == if IsKept(c) then multiset(s)[c] else 0
  {
    if s != [] {
      KeepAllowedCounts(s[1..], c);
      assert s == [s[0]] + s[1..];
    }
  }

  /** The filter changes a string iff the string holds a character outside the kept set. */
  lemma {:induction false} KeepAllowedFixesExactlyKept(s: string)
    ensures KeepAllowed(s) == s <==> AllKept(s)
  {
    if s != [] {
      KeepAllowedFixesExactlyKept(s[1..]);
      if !IsKept(s[0]) {
        assert |KeepAllowed(s)| < |s|;
      }
    }
  }

  /** Leading whitespace removed, maximally. */
  function TrimStart(s: string): (r: string)
    ensures |r| <= |s| && r == s[|s| - |r|..]
    ensures r == [] || !IsWhitespace(r[0])
    ensures forall i :: 0 <= i < |s| - |r| ==> IsWhitespace(s[i])
  {
    if s != [] && IsWhitespace(s[0]) then TrimStart(s[1..]) else s
  }

  /** Trailing whitespace removed, maximally. */
  function TrimEnd(s: string): (r: string)
    ensures |r| <= |s| && r == s[..|r|]
    ensures r == [] || !IsWhitespace(r[|r| - 1])
    ensures forall i :: |r| <= i < |s| ==> IsWhitespace(s[i])
  {
    if s != [] && IsWhitespace(s[|s| - 1]) then TrimEnd(s[..|s| - 1]) else s
  }

  /**
   * `str.strip()`: neither end of the result is whitespace (that a string
   * already free of whitespace is left as it is is stated by SafeIsStripped).
   */
  function Strip(s: string): (r: string)
    ensures |r| <= |s|
    ensures r == [] || (!IsWhitespace(r[0]) && !IsWhitespace(r[|r| - 1]))
  {
    TrimEnd(TrimStart(s))
  }

  /** `s.replace(' ', '_')` */
  function SpacesToUnderscores(s: string): (r: string)
    ensures |r| == |s|
    ensures forall i :: 0 <= i < |s| ==> r[i] == if s[i] == ' ' then '_' else s[i]
  {
    if s == [] then [] else [if s[0] == ' ' then '_' else s[0]] + SpacesToUnderscores(s[1..])
  }

  /** `s[:n]` */
  function Truncate(s: string, n: nat): (r: string)
    ensures |r| <= n && r <= s
    ensures |s| <= n ==> r == s
  {
    if |s| <= n then s else s[..n]
  }

  /** The file-name-safe form of a video text (the two assignments to `safe_text`). */
  function SafeText(text: string): (r: string)
    ensures |r| <= MaxSafeLength
    ensures AllSafe(r)
    ensures r <= SpacesToUnderscores(Strip(KeepAllowed(text)))
  {
    var kept := KeepAllowed(text);
    var stripped := Strip(kept);
    assert AllKept(stripped) by {
      var start := TrimStart(kept);
      assert forall i :: 0 <= i < |stripped| ==> stripped[i] == start[i] == kept[|kept| - |start| + i];
    }
    var replaced := SpacesToUnderscores(stripped);
    Truncate(replaced, MaxSafeLength)
  }

  /** Once filtered, a text holds no whitespace other than the space. */
  lemma KeptWhitespaceIsSpace(c: char)
    requires IsKept(c) && IsWhitespace(c)
    ensures c == ' '
  {
  }

  /** A string that is already safe and short enough passes the sanitiser unchanged. */
  lemma SafeTextFixesSafe(s: string)
    requires AllSafe(s) && |s| <= MaxSafeLength
    ensures SafeText(s) == s
  {
    assert KeepAllowed(s) == s by {
      assert AllKept(s);
      KeepAllowedFixesExactlyKept(s);
    }
    assert Strip(s) == s by {
      SafeIsStripped(s);
    }
    assert SpacesToUnderscores(s) == s by {
      SafeHasNoSpace(s);
    }
  }

  /** A safe string has no whitespace at either end. */
  lemma SafeIsStripped(s: string)
    requires AllSafe(s)
    ensures Strip(s) == s
  {
    assert TrimStart(s) == s by {
      if s != [] { assert IsSafe(s[0]); }
    }
    assert TrimEnd(s) == s by {
      if s != [] { assert IsSafe(s[|s| - 1]); }
    }
  }

  /** A safe string holds no space to replace. */
  lemma SafeHasNoSpace(s: string)
    requires AllSafe(s)
    ensures SpacesToUnderscores(s) == s
  {
    var u := SpacesToUnderscores(s);
    forall i | 0 <= i < |s| ensures u[i] == s[i] { assert IsSafe(s[i]); }
  }

  /** Sanitising is idempotent. */
  lemma SafeTextIdempotent(text: string)
    ensures SafeText(SafeText(text)) == SafeText(text)
  {
    SafeTextFixesSafe(SafeText(text));
  }

  /** `f"video_{safe_text}.mp4"` */
  function OutputFileName(text: string): (r: string)
    ensures |r| == |SafeText(text)| + 10
    ensures r[..6] == "video_" && r[|r| - 4..] == ".mp4"
    ensures r[6..|r| - 4] == SafeText(text)
  {
    "video_" + SafeText(text) + ".mp4"
  }

  /** Two texts name the same file exactly when their sanitised forms agree. */
  lemma SameFileIffSameSafeText(a: string, b: string)
    ensures OutputFileName(a) == OutputFileName(b) <==> SafeText(a) == SafeText(b)
  {
    if OutputFileName(a) == OutputFileName(b) {
      var n := OutputFileName(a);
      assert SafeText(a) == n[6..|n| - 4] == SafeText(b);
    }
  }

  /** What the generator reports: the path it wrote, or the message of the exception it raised. */
  datatype Generation = Generated(path: string) | GenerationFailed(message: string)

  /** What the tool does: return a string, or let an exception escape to its caller. */
  datatype ToolResult = Returned(text: string) | Propagated

  const SuccessPrefix := "Video generated successfully at: "
  const ErrorPrefix := "Error generating video: "

  /**
   * `create_video(text, duration)`. `text` is `None` when the caller passes
   * no string: the filter then fails before the `try` and the error escapes.
   * `generate` stands for `generate_simple_video(text, duration, output_file)`
   * and `abspath` for `os.path.abspath`.
   */
  function CreateVideo(text: Option<string>, generate: (string, real, string) -> Generation,
                       abspath: string -> string, duration: real := DefaultDuration): (r: ToolResult)
    ensures text.None? <==> r.Propagated?
    ensures text.Some? ==>
      match generate(text.value, duration, OutputFileName(text.value))
      case Generated(p) => r == Returned(SuccessPrefix + abspath(p))
      case GenerationFailed(m) => r == Returned(ErrorPrefix + m)
  {
    match text
    case None => Propagated
    case Some(t) =>
      var outputFile := OutputFileName(t);
      match generate(t, duration, outputFile)
      case Generated(result) => Returned(SuccessPrefix + abspath(result))
      case GenerationFailed(e) => Returned(ErrorPrefix + e)
  }

  /** Success and failure messages never look alike: a caller can tell them apart by their prefix. */
  lemma OutcomesAreDistinguishable(text: string, duration: real,
                                   generate: (string, real, string) -> Generation,
                                   abspath: string -> string)
    ensures var r := CreateVideo(Some(text), generate, abspath, duration);
      r.Returned? && (|r.text| >= |SuccessPrefix| && r.text[..|SuccessPrefix|] == SuccessPrefix
                      <==> generate(text, duration, OutputFileName(text)).Generated?)
  {
    var r := CreateVideo(Some(text), generate, abspath, duration);
    if generate(text, duration, OutputFileName(text)).GenerationFailed? {
      assert r.text[0] == 'E' != SuccessPrefix[0];
    }
  }
}
