/**
 * The two upload validators: a size limit on the image buffer and a
 * whitelist of file extensions, where the extension is what Node's POSIX
 * `path.extname` returns, lowered.
 */
module ImgbbUpload {
  import opened Strings

  newtype byte = b: int | 0 <= b < 256

  /** 32 MiB, the largest buffer the image host accepts. */
  const MaxImageSize: nat := 32 * 1024 * 1024

  /** `checkImageSize`: the buffer is at most 32 MiB long. */
  function CheckImageSize(buffer: seq<byte>): (ok: bool)
    ensures ok <==> |buffer| <= 33_554_432
  {
    |buffer| <= MaxImageSize
  }

  /** Exactly 32 MiB is accepted, one byte more is refused. */
  lemma ImageSizeBoundary(buffer: seq<byte>, extra: byte)
    requires |buffer| == MaxImageSize
    ensures CheckImageSize(buffer)
    ensures !CheckImageSize(buffer + [extra])
  {
  }

  // ---------------------------------------------------------------- path.extname

  /** The path without the slashes it ends with. */
  function StripTrailingSlashes(path: string): (r: string)
    ensures |r| <= |path| && r == path[..|r|]
    ensures r != [] ==> r[|r| - 1] != '/'
    ensures forall i :: |r| <= i < |path| ==> path[i] == '/'
  {
    if path != [] && path[|path| - 1] == '/' then StripTrailingSlashes(path[..|path| - 1]) else path
  }

  /** The index just past the last occurrence of `c` in `s`, or 0 when `c` does not occur. */
  function AfterLast(s: string, c: char): (k: nat)
    ensures k <= |s|
    ensures c !in s[k..]
    ensures k > 0 ==> s[k - 1] == c
  {
    if s == [] then 0
    else if s[|s| - 1] == c then |s|
    else
      var k := AfterLast(s[..|s| - 1], c);
      assert s[k..] == s[..|s| - 1][k..] + [s[|s| - 1]];
      k
  }

  /** The last path component, trailing slashes ignored. */
  function BaseName(path: string): (b: string)
    ensures '/' !in b
  {
    var p := StripTrailingSlashes(path);
    p[AfterLast(p, '/')..]
  }

  /**
   * `path.extname`: from the last dot of the base name to its end, or empty
   * when the base name has no dot, starts with its only dot, or is `..`.
   */
  function ExtName(path: string): (ext: string)
    ensures ext == [] || (ext[0] == '.' && '.' !in ext[1..] && '/' !in ext)
  {
    var b := BaseName(path);
    var d := AfterLast(b, '.');
    if d <= 1 || b == ".." then []
    else
      assert b[d - 1..][1..] == b[d..];
      b[d - 1..]
  }

  /** The extensions the image host takes. */
  const SupportedFormats: seq<string> := [".png", ".jpg", ".jpeg", ".gif", ".bmp", ".svg", ".webp"]

  /** `checkImageFormat`: the lowered extension is one of the supported ones. */
  function CheckImageFormat(fileName: string): (ok: bool)
    ensures ExtName(fileName) == [] ==> !ok
    ensures ok ==> var ext := ExtName(fileName); |ext| >= 4 && ext[0] == '.' && '.' !in ext[1..]
  {
    var ext := ExtName(fileName);
    if Lower(ext) in SupportedFormats then
      ExtensionShape(ext);
      true
    else
      false
  }

  /** Every supported extension is a dot followed by lower-case letters. */
  lemma SupportedFormatsShape(f: string)
    requires f in SupportedFormats
    ensures |f| >= 4 && f[0] == '.'
    ensures forall k :: 1 <= k < |f| ==> 'a' <= f[k] <= 'z'
  {
  }

  /** Lowering never produces a dot or a slash from anything else. */
  lemma LowerKeepsPunctuation(c: char)
    ensures LowerChar(c) == '.' <==> c == '.'
    ensures LowerChar(c) == '/' <==> c == '/'
  {
  }

  /** A string that lowers to a supported extension is a dot followed by neither dots nor slashes. */
  lemma ExtensionShape(ext: string)
    requires Lower(ext) in SupportedFormats
    ensures |ext| >= 4 && ext[0] == '.'
    ensures '.' !in ext[1..] && '/' !in ext
  {
    SupportedFormatsShape(Lower(ext));
    forall k | 0 <= k < |ext| ensures (ext[k] == '.' <==> k == 0) && ext[k] != '/' {
      LowerKeepsPunctuation(ext[k]);
    }
    assert forall k :: 0 <= k < |ext[1..]| ==> ext[1..][k] == ext[k + 1];
  }

  /** The last `c` of `u + v` is the last one of `v` when `v` has one, else the last one of `u`. */
  lemma {:induction false} AfterLastConcat(u: string, v: string, c: char)
    ensures AfterLast(u + v, c) == if c in v then |u| + AfterLast(v, c) else AfterLast(u, c)
  {
    if v == [] {
      assert u + v == u;
    } else {
      var w := v[..|v| - 1];
      assert (u + v)[..|u + v| - 1] == u + w;
      assert v == w + [v[|v| - 1]];
      AfterLastConcat(u, w, c);
    }
  }

  /**
   * The extension of a non-empty stem followed by a dot and a dot-free,
   * slash-free tail is exactly that dot and tail: only the last dot counts.
   */
  lemma ExtNameOfStemAndExtension(stem: string, ext: string)
    requires |ext| >= 2 && ext[0] == '.' && '.' !in ext[1..] && '/' !in ext
    requires stem != [] && stem[|stem| - 1] != '/'
    ensures ExtName(stem + ext) == ext
  {
    var u := stem[AfterLast(stem, '/')..];
    BaseNameOfStemAndExtension(stem, ext);
    LastDotStartsExtension(u, ext);
    assert (u + ext)[|u|..] == ext;
  }

  /** The base name of a stem followed by a slash-free extension is the stem's last component and the extension. */
  lemma BaseNameOfStemAndExtension(stem: string, ext: string)
    requires ext != [] && '/' !in ext
    requires stem != [] && stem[|stem| - 1] != '/'
    ensures AfterLast(stem, '/') < |stem|
    ensures BaseName(stem + ext) == stem[AfterLast(stem, '/')..] + ext
  {
    var path := stem + ext;
    assert path[|path| - 1] == ext[|ext| - 1];
    assert StripTrailingSlashes(path) == path;
    AfterLastConcat(stem, ext, '/');
    SuffixOfConcat(stem, ext, AfterLast(stem, '/'));
  }

  /** A suffix of `a + b` that starts inside `a`. */
  lemma SuffixOfConcat(a: string, b: string, k: nat)
    requires k <= |a|
    ensures (a + b)[k..] == a[k..] + b
  {
  }

  /** After a non-empty prefix, the last dot of a dot followed by a dot-free tail is that dot. */
  lemma LastDotStartsExtension(u: string, ext: string)
    requires u != []
    requires |ext| >= 2 && ext[0] == '.' && '.' !in ext[1..]
    ensures AfterLast(u + ext, '.') == |u| + 1
  {
    AfterLastConcat(u, ext, '.');
    AfterLastConcat(['.'], ext[1..], '.');
    assert ['.'] + ext[1..] == ext;
  }

  /**
   * A name made of a non-empty stem and an extension that lowers to a
   * supported one, in any letter case, is accepted.
   */
  lemma StemWithSupportedExtensionAccepted(stem: string, ext: string)
    requires Lower(ext) in SupportedFormats
    requires stem != [] && stem[|stem| - 1] != '/'
    ensures ExtName(stem + ext) == ext
    ensures CheckImageFormat(stem + ext)
  {
    ExtensionShape(ext);
    ExtNameOfStemAndExtension(stem, ext);
  }

  /** A name without a dot has no extension and is refused. */
  lemma NoDotRejected(fileName: string)
    requires '.' !in fileName
    ensures ExtName(fileName) == []
    ensures !CheckImageFormat(fileName)
  {
    var p := StripTrailingSlashes(fileName);
    var b := BaseName(fileName);
    assert '.' !in p;
    assert '.' !in b;
  }

  /** After a directory part ending in a slash, a slash-free name is the base name. */
  lemma BaseNameAfterDirectory(dir: string, b: string)
    requires dir == [] || dir[|dir| - 1] == '/'
    requires b != [] && '/' !in b
    ensures BaseName(dir + b) == b
  {
    var path := dir + b;
    assert path[|path| - 1] == b[|b| - 1];
    assert StripTrailingSlashes(path) == path;
    AfterLastConcat(dir, b, '/');
    if dir != [] {
      AfterLastConcat(dir[..|dir| - 1], "/", '/');
      assert dir[..|dir| - 1] + "/" == dir;
    }
    assert path[|dir|..] == b;
  }

  /** A hidden file whose only dot starts its name, such as `.png` or `img/.png`, has no extension. */
  lemma HiddenFileRejected(dir: string, name: string)
    requires dir == [] || dir[|dir| - 1] == '/'
    requires '/' !in name && '.' !in name
    ensures ExtName(dir + "." + name) == []
    ensures !CheckImageFormat(dir + "." + name)
  {
    var b := "." + name;
    assert dir + "." + name == dir + b;
    BaseNameAfterDirectory(dir, b);
    OnlyLeadingDot(name);
    NoExtensionRejected(dir + b);
  }

  /** In `.name` with a dot-free `name`, the last dot is the first character. */
  lemma OnlyLeadingDot(name: string)
    requires '.' !in name
    ensures AfterLast("." + name, '.') == 1
  {
    AfterLastConcat(".", name, '.');
  }

  /** A name whose extension is empty is refused. */
  lemma NoExtensionRejected(path: string)
    requires ExtName(path) == []
    ensures !CheckImageFormat(path)
  {
    assert Lower([]) == [];
  }

  /** An upper-case extension such as `A.PNG` is accepted: the comparison ignores letter case. */
  lemma UpperCaseExtensionAccepted(stem: string)
    requires stem != [] && stem[|stem| - 1] != '/'
    ensures CheckImageFormat(stem + ".PNG")
  {
    assert Lower(".PNG") == ".png";
    StemWithSupportedExtensionAccepted(stem, ".PNG");
  }

  /** A double extension such as `x.tar.png` is judged by its last dot only. */
  lemma LastDotCounts(stem: string)
    requires stem != [] && stem[|stem| - 1] != '/'
    ensures CheckImageFormat(stem + ".tar" + ".png")
  {
    var s2 := stem + ".tar";
    assert s2[|s2| - 1] == 'r';
    assert Lower(".png") == ".png";
    StemWithSupportedExtensionAccepted(s2, ".png");
  }

  /** A supported extension followed by an unsupported one, such as `x.png.tar`, is refused. */
  lemma InnerExtensionIgnored(stem: string)
    requires stem != [] && stem[|stem| - 1] != '/'
    ensures !CheckImageFormat(stem + ".png" + ".tar")
  {
    var s3 := stem + ".png";
    assert s3[|s3| - 1] == 'g';
    var tar := ".tar";
    TarIsNotAnImageExtension();
    UnsupportedExtensionRejected(s3, tar);
  }

  /** `.tar` has the shape of an extension but is not one the image host takes. */
  lemma TarIsNotAnImageExtension()
    ensures '.' !in ".tar"[1..] && '/' !in ".tar"
    ensures Lower(".tar") !in SupportedFormats
  {
    assert Lower(".tar")[1] == 't';
  }

  /** A name ending in a stem, a dot and a dot-free tail that does not lower to a supported extension is refused. */
  lemma UnsupportedExtensionRejected(stem: string, ext: string)
    requires |ext| >= 2 && ext[0] == '.' && '.' !in ext[1..] && '/' !in ext
    requires stem != [] && stem[|stem| - 1] != '/'
    requires Lower(ext) !in SupportedFormats
    ensures !CheckImageFormat(stem + ext)
  {
    ExtNameOfStemAndExtension(stem, ext);
  }
}
