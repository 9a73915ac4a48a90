/**
 * Output-path derivation for the processing adapters
 * (`get_unique_output_path(original_path, suffix, ext=None)`): the derived
 * path is a sibling of the input named `<base>_<suffix>_<token><ext>`, where
 * the token is the first eight characters of a fresh UUID's hex form. The
 * random UUID is a parameter here.
 */
module OutputNaming {
  import opened Wrappers

  /** Number of token characters taken from the UUID's hex form. */
  const TokenLength: nat := 8

  /** Index of the last occurrence of `c` in `s`, or -1. */
  function LastIndexOf(s: string, c: char): (r: int)
    ensures -1 <= r < |s|
    ensures r >= 0 ==> s[r] == c
  {
    if s == [] then -1
    else if s[|s| - 1] == c then |s| - 1
    else LastIndexOf(s[..|s| - 1], c)
  }

  /** The last occurrence of `c` in `s + t` is in `t` when `t` holds one, and otherwise it is the last one of `s`. */
  lemma {:induction false} LastIndexOfAppend(s: string, t: string, c: char)
    ensures LastIndexOf(s + t, c) == if c in t then |s| + LastIndexOf(t, c) else LastIndexOf(s, c)
  {
    if t != [] {
      assert (s + t)[|s + t| - 1] == t[|t| - 1];
      assert (s + t)[..|s + t| - 1] == s + t[..|t| - 1];
      if t[|t| - 1] != c {
        LastIndexOfAppend(s, t[..|t| - 1], c);
        assert c in t <==> c in t[..|t| - 1] by {
          assert t == t[..|t| - 1] + [t[|t| - 1]];
        }
      }
    } else {
      assert s + t == s;
    }
  }

  /** Every position after the last occurrence holds another character. */
  lemma {:induction false} LastIndexOfIsLast(s: string, c: char)
    ensures forall j :: LastIndexOf(s, c) < j < |s| ==> s[j] != c
  {
    if s != [] && s[|s| - 1] != c {
      var init := s[..|s| - 1];
      LastIndexOfIsLast(init, c);
      assert forall j :: 0 <= j < |init| ==> init[j] == s[j];
    }
  }

  lemma LastIndexOfAbsent(s: string, c: char)
    requires c !in s
    ensures LastIndexOf(s, c) == -1
  {
  }

  /** The directory part of a path, including its final '/'; empty for a bare file name. */
  function Directory(path: string): (r: string)
    ensures r <= path
  {
    path[..LastIndexOf(path, '/') + 1]
  }

  /** The file-name part of a path. */
  function FileName(path: string): (r: string)
    ensures Directory(path) + r == path
  {
    var k := LastIndexOf(path, '/') + 1;
    assert path[..k] + path[k..] == path;
    path[k..]
  }

  /** The extension of a file name: from its last '.' on, or empty. */
  function NameExtension(name: string): (r: string)
    ensures |r| <= |name| && r == name[|name| - |r|..]
  {
    var dot := LastIndexOf(name, '.');
    if dot < 0 then "" else name[dot..]
  }

  /** A file name without its extension. */
  function NameStem(name: string): (r: string)
    ensures r + NameExtension(name) == name
  {
    var dot := LastIndexOf(name, '.');
    if dot < 0 then name else name[..dot]
  }

  /** The extension of a path's file name. */
  function Extension(path: string): string {
    NameExtension(FileName(path))
  }

  /** The file name of a path without its extension. */
  function Stem(path: string): string {
    NameStem(FileName(path))
  }

  /** A file name holds no '/', and its extension is empty or one '.' followed by no other '.'. */
  lemma PartsShape(path: string)
    ensures '/' !in FileName(path) && '/' !in Stem(path) && '/' !in Extension(path)
    ensures Extension(path) == [] || (Extension(path)[0] == '.' && '.' !in Extension(path)[1..])
  {
    var name := FileName(path);
    assert '/' !in name by {
      var k := LastIndexOf(path, '/') + 1;
      LastIndexOfIsLast(path, '/');
      assert forall i :: 0 <= i < |name| ==> name[i] == path[k + i];
    }
    assert Stem(path) + Extension(path) == name;
    var dot := LastIndexOf(name, '.');
    if dot >= 0 {
      var rest := Extension(path)[1..];
      assert '.' !in rest by {
        LastIndexOfIsLast(name, '.');
        assert forall i :: 0 <= i < |rest| ==> rest[i] == name[dot + 1 + i];
      }
    }
  }

  /** Splitting a path into directory, stem and extension loses nothing. */
  lemma SplitRoundTrip(path: string)
    ensures Directory(path) + Stem(path) + Extension(path) == path
  {
  }

  /** A path without a '.' in its file name has no extension. */
  lemma NoDotNoExtension(path: string)
    requires '.' !in FileName(path)
    ensures Extension(path) == "" && Stem(path) == FileName(path)
  {
    LastIndexOfAbsent(FileName(path), '.');
  }

  /**
   * The extension to use: the explicit one exactly as given (no dot is
   * added), else the input's own.
   */
  function ChosenExtension(path: string, ext: Option<string>): (r: string)
    ensures ext.Some? ==> r == ext.value
    ensures ext.None? ==> r == Extension(path)
  {
    ext.GetOr(Extension(path))
  }

  /** The random part of a derived name. */
  function Token(hex: string): (r: string)
    requires |hex| >= TokenLength
    ensures |r| == TokenLength && r == hex[..TokenLength]
  {
    hex[..TokenLength]
  }

  /** `<base>_<suffix>_`: the part of the derived name before the token. */
  function NameHead(path: string, suffix: string): string {
    Stem(path) + "_" + suffix + "_"
  }

  /** `<base>_<suffix>_<token><ext>`: the file name of the derived path. */
  function DerivedName(path: string, suffix: string, hex: string, ext: Option<string>): string
    requires |hex| >= TokenLength
  {
    NameHead(path, suffix) + (Token(hex) + ChosenExtension(path, ext))
  }

  /**
   * `get_unique_output_path(path, suffix, ext)` with `uuid.uuid4().hex`
   * given as `hex`: the path is exactly eight characters longer than the
   * input's directory, stem, `_<suffix>_` and the chosen extension together
   * (what those characters are is stated by PathShape).
   */
  function UniqueOutputPath(path: string, suffix: string, hex: string, ext: Option<string> := None): (r: string)
    requires |hex| >= TokenLength
    ensures |r| == |Directory(path)| + |Stem(path)| + |suffix| + 2 + TokenLength + |ChosenExtension(path, ext)|
  {
    Directory(path) + DerivedName(path, suffix, hex, ext)
  }

  /** The path before the token: `<dir>/<base>_<suffix>_`. */
  function NamePrefix(path: string, suffix: string): string {
    Directory(path) + NameHead(path, suffix)
  }

  /**
   * The derived path starts with `<dir>/<base>_<suffix>_`, ends with the
   * chosen extension, and is exactly eight characters longer than the
   * token-less name.
   */
  lemma PathShape(path: string, suffix: string, hex: string, ext: Option<string>)
    requires |hex| >= TokenLength
    ensures var r := UniqueOutputPath(path, suffix, hex, ext);
      var e := ChosenExtension(path, ext);
      && r == NamePrefix(path, suffix) + Token(hex) + e
      && NamePrefix(path, suffix) <= r
      && |r| >= |e| && r[|r| - |e|..] == e
      && |r| == |NamePrefix(path, suffix) + e| + TokenLength
      && r[|NamePrefix(path, suffix)|..|r| - |e|] == Token(hex)
  {
    PathIsPrefixTokenExtension(path, suffix, hex, ext);
    SlicesOfThree(NamePrefix(path, suffix), Token(hex), ChosenExtension(path, ext));
  }

  /** The derived path regrouped as prefix, token and extension. */
  lemma PathIsPrefixTokenExtension(path: string, suffix: string, hex: string, ext: Option<string>)
    requires |hex| >= TokenLength
    ensures UniqueOutputPath(path, suffix, hex, ext) == NamePrefix(path, suffix) + Token(hex) + ChosenExtension(path, ext)
  {
    var d, h, t, e := Directory(path), NameHead(path, suffix), Token(hex), ChosenExtension(path, ext);
    assert d + (h + (t + e)) == (d + h) + t + e;
  }

  /** The three parts of `p + t + e` are recovered by slicing. */
  lemma SlicesOfThree(p: string, t: string, e: string)
    ensures p <= p + t + e
    ensures (p + t + e)[|p + t + e| - |e|..] == e
    ensures (p + t + e)[|p|..|p + t + e| - |e|] == t
  {
    var r := p + t + e;
    assert r[|r| - |e|..] == e;
    assert r[|p|..|r| - |e|] == t;
  }

  /** An explicit extension replaces the input's extension and leaves the rest of the name as it is. */
  lemma ExplicitExtensionReplaces(path: string, suffix: string, hex: string, ext: string)
    requires |hex| >= TokenLength
    ensures var plain := UniqueOutputPath(path, suffix, hex);
      var custom := UniqueOutputPath(path, suffix, hex, Some(ext));
      |plain| >= |Extension(path)|
      && custom == plain[..|plain| - |Extension(path)|] + ext
  {
    var plain := UniqueOutputPath(path, suffix, hex);
    var stemPart := NamePrefix(path, suffix) + Token(hex);
    PathShape(path, suffix, hex, None);
    PathShape(path, suffix, hex, Some(ext));
    assert plain == stemPart + Extension(path);
    assert plain[..|plain| - |Extension(path)|] == stemPart;
  }

  /** Different tokens give different paths, and equal tokens the same path: the token alone makes repeated calls unique. */
  lemma TokenDeterminesPath(path: string, suffix: string, hex1: string, hex2: string, ext: Option<string>)
    requires |hex1| >= TokenLength && |hex2| >= TokenLength
    ensures UniqueOutputPath(path, suffix, hex1, ext) == UniqueOutputPath(path, suffix, hex2, ext)
            <==> Token(hex1) == Token(hex2)
  {
    var p := NamePrefix(path, suffix);
    var r1 := UniqueOutputPath(path, suffix, hex1, ext);
    var r2 := UniqueOutputPath(path, suffix, hex2, ext);
    PathShape(path, suffix, hex1, ext);
    PathShape(path, suffix, hex2, ext);
    if r1 == r2 {
      assert r1[|p|..|p| + TokenLength] == Token(hex1);
      assert r2[|p|..|p| + TokenLength] == Token(hex2);
    }
  }

  /** A directory ending in '/' followed by a name without '/' splits back into the two. */
  lemma {:induction false} DirectoryOfJoin(dir: string, name: string)
    requires dir == [] || dir[|dir| - 1] == '/'
    requires '/' !in name
    ensures Directory(dir + name) == dir && FileName(dir + name) == name
  {
    LastIndexOfAppend(dir, name, '/');
    assert (dir + name)[..|dir|] == dir;
  }

  /** A stem followed by an extension that holds the name's last '.' splits back into the two. */
  lemma {:induction false} NameOfJoin(stem: string, ext: string)
    requires ext == [] ==> '.' !in stem
    requires ext != [] ==> ext[0] == '.' && '.' !in ext[1..]
    ensures NameStem(stem + ext) == stem && NameExtension(stem + ext) == ext
  {
    var name := stem + ext;
    if ext != [] {
      assert LastIndexOf(ext, '.') == 0 by {
        LastIndexOfAppend([ext[0]], ext[1..], '.');
        assert [ext[0]] + ext[1..] == ext;
      }
      LastIndexOfAppend(stem, ext, '.');
      assert name[|stem|..] == ext && name[..|stem|] == stem;
    } else {
      assert name == stem;
      LastIndexOfAbsent(stem, '.');
    }
  }

  /** A stem and an extension that starts with the only '.' after the stem split back into the two. */
  lemma {:induction false} ExtensionOfJoin(dir: string, stem: string, ext: string)
    requires dir == [] || dir[|dir| - 1] == '/'
    requires '/' !in stem && '/' !in ext
    requires ext == [] ==> '.' !in stem
    requires ext != [] ==> ext[0] == '.' && '.' !in ext[1..]
    ensures Directory(dir + stem + ext) == dir
    ensures Stem(dir + stem + ext) == stem && Extension(dir + stem + ext) == ext
  {
    var name := stem + ext;
    assert dir + stem + ext == dir + name;
    DirectoryOfJoin(dir, name);
    NameOfJoin(stem, ext);
  }

  /** The derived file name holds no '/' when suffix, token and extension hold none. */
  lemma DerivedNameHasNoSlash(path: string, suffix: string, hex: string, ext: Option<string>)
    requires |hex| >= TokenLength
    requires '/' !in suffix && '/' !in Token(hex) && '/' !in ChosenExtension(path, ext)
    ensures '/' !in DerivedName(path, suffix, hex, ext)
  {
    PartsShape(path);
  }

  /** The derived path lies in the input's directory, when suffix, token and extension hold no '/'. */
  lemma DerivedPathIsSibling(path: string, suffix: string, hex: string, ext: Option<string>)
    requires |hex| >= TokenLength
    requires '/' !in suffix && '/' !in Token(hex) && '/' !in ChosenExtension(path, ext)
    ensures Directory(UniqueOutputPath(path, suffix, hex, ext)) == Directory(path)
  {
    var d, n := Directory(path), DerivedName(path, suffix, hex, ext);
    DerivedNameHasNoSlash(path, suffix, hex, ext);
    DirectoryEndsWithSlash(path);
    DirectoryOfJoin(d, n);
  }

  /** A non-empty directory part ends with its '/'. */
  lemma DirectoryEndsWithSlash(path: string)
    ensures Directory(path) == [] || Directory(path)[|Directory(path)| - 1] == '/'
  {
  }

  /** A bare file name yields a bare file name, `<base>_<suffix>_<token><ext>`. */
  lemma NoDirectoryNoSlash(path: string, suffix: string, hex: string, ext: Option<string>)
    requires |hex| >= TokenLength
    requires '/' !in path && '/' !in suffix && '/' !in Token(hex) && '/' !in ChosenExtension(path, ext)
    ensures var r := UniqueOutputPath(path, suffix, hex, ext);
      '/' !in r && NameHead(path, suffix) <= r
  {
    var n := DerivedName(path, suffix, hex, ext);
    assert '/' !in n by { DerivedNameHasNoSlash(path, suffix, hex, ext); }
    assert Directory(path) == "" by { LastIndexOfAbsent(path, '/'); }
    assert UniqueOutputPath(path, suffix, hex, ext) == n;
    assert NameHead(path, suffix) <= n;
  }

  /**
   * For an input without an extension, the last '_'-separated component of
   * the derived name is the token itself, so it holds no '.'.
   */
  lemma NoExtensionLastComponent(path: string, suffix: string, hex: string)
    requires |hex| >= TokenLength
    requires '.' !in FileName(path)
    requires '_' !in Token(hex) && '.' !in Token(hex)
    ensures var r := UniqueOutputPath(path, suffix, hex);
      r[LastIndexOf(r, '_') + 1..] == Token(hex) && '.' !in r[LastIndexOf(r, '_') + 1..]
  {
    NoDotNoExtension(path);
    PathShape(path, suffix, hex, None);
    var head := NamePrefix(path, suffix);
    var r := UniqueOutputPath(path, suffix, hex);
    assert r == head + Token(hex);
    LastIndexOfAppend(head, Token(hex), '_');
    assert head[|head| - 1] == '_';
  }

  /** The derived path of a path given as its three parts, spelled out. */
  lemma JoinedPathDerivation(dir: string, stem: string, e: string, suffix: string, hex: string, ext: Option<string>)
    requires |hex| >= TokenLength
    requires dir == [] || dir[|dir| - 1] == '/'
    requires '/' !in stem && '/' !in e
    requires e == [] ==> '.' !in stem
    requires e != [] ==> e[0] == '.' && '.' !in e[1..]
    ensures UniqueOutputPath(dir + stem + e, suffix, hex, ext)
            == dir + (stem + "_" + suffix + "_" + (Token(hex) + ext.GetOr(e)))
  {
    ExtensionOfJoin(dir, stem, e);
  }

  /** `get_unique_output_path("/path/to/video.mp4", "test")` is `/path/to/video_test_<token>.mp4`. */
  lemma PinnedPlainExample()
    ensures UniqueOutputPath("/path/to/video.mp4", "test", "1234567890abcdef") == "/path/to/video_test_12345678.mp4"
  {
    assert "/path/to/" + ("video" + "_" + "test" + "_" + ("12345678" + ".mp4")) == "/path/to/video_test_12345678.mp4";
    assert "/path/to/video.mp4" == "/path/to/" + "video" + ".mp4";
    assert Token("1234567890abcdef") == "12345678";
    JoinedPathDerivation("/path/to/", "video", ".mp4", "test", "1234567890abcdef", None);
  }

  /** With `ext=".avi"` the extension is replaced. */
  lemma PinnedExtensionExample()
    ensures UniqueOutputPath("/path/to/video.mp4", "test", "1234567890abcdef", Some(".avi")) == "/path/to/video_test_12345678.avi"
  {
    assert "/path/to/" + ("video" + "_" + "test" + "_" + ("12345678" + ".avi")) == "/path/to/video_test_12345678.avi";
    assert "/path/to/video.mp4" == "/path/to/" + "video" + ".mp4";
    assert Token("1234567890abcdef") == "12345678";
    JoinedPathDerivation("/path/to/", "video", ".mp4", "test", "1234567890abcdef", Some(".avi"));
  }

  /** `ext=".mov"` for any UUID: the result keeps the `/path/to/video_test_` prefix and ends in `.mov`. */
  lemma CustomExtensionExample(hex: string)
    requires |hex| >= TokenLength
    ensures var r := UniqueOutputPath("/path/to/video.mp4", "test", hex, Some(".mov"));
            |r| > 20 && r[..20] == "/path/to/video_test_" && r[|r| - 4..] == ".mov"
  {
    CustomExtensionPath(hex);
    ThreePartEnds("/path/to/video_test_", Token(hex), ".mov");
  }

  /** The `.mov` call of the test, spelled out. */
  lemma CustomExtensionPath(hex: string)
    requires |hex| >= TokenLength
    ensures UniqueOutputPath("/path/to/video.mp4", "test", hex, Some(".mov"))
            == "/path/to/video_test_" + (Token(hex) + ".mov")
  {
    assert "/path/to/video.mp4" == "/path/to/" + "video" + ".mp4";
    JoinedPathDerivation("/path/to/", "video", ".mp4", "test", hex, Some(".mov"));
    LiteralPrefix(Token(hex) + ".mov");
  }

  /** Regrouping the literal head of the `.mov` call. */
  lemma LiteralPrefix(tail: string)
    ensures "/path/to/" + ("video" + "_" + "test" + "_" + tail) == "/path/to/video_test_" + tail
  {
    assert "video" + "_" + "test" + "_" == "video_test_";
  }

  /** The two ends of a three-part concatenation. */
  lemma ThreePartEnds(p: string, t: string, e: string)
    ensures (p + (t + e))[..|p|] == p
    ensures (p + (t + e))[|p + (t + e)| - |e|..] == e
  {
  }

  /** A bare file name yields a bare file name. */
  lemma PinnedBareNameExample()
    ensures UniqueOutputPath("video.mp4", "test", "1234567890abcdef") == "video_test_12345678.mp4"
  {
    assert "" + ("video" + "_" + "test" + "_" + ("12345678" + ".mp4")) == "video_test_12345678.mp4";
    assert "video.mp4" == "" + "video" + ".mp4";
    assert Token("1234567890abcdef") == "12345678";
    JoinedPathDerivation("", "video", ".mp4", "test", "1234567890abcdef", None);
  }

  /** Where an adapter writes: the caller's path verbatim, else a derived sibling path. */
  function ResolveOutputPath(requested: Option<string>, path: string, suffix: string, hex: string,
                             ext: Option<string> := None): (r: string)
    requires |hex| >= TokenLength
    ensures requested.Some? ==> r == requested.value
    ensures requested.None? ==> NamePrefix(path, suffix) <= r
  {
    if requested.Some? then requested.value
    else
      PathShape(path, suffix, hex, ext);
      UniqueOutputPath(path, suffix, hex, ext)
  }
}
