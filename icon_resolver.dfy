/**
 * IconResolver: where a currency's icon lives on disk and which URL shows
 * it, with an inline SVG placeholder (the symbol's first letter on a
 * circle) for icons that are not on disk. The filesystem is the set of
 * paths of existing files.
 */
module IconResolver {
  import opened Strings
  import opened PercentEncoding

  // ---------------------------------------------------------------------------
  // rtrim($s, '/')

  predicate IsSlash(c: char) { c == '/' }

  /** Extra trailing separators make no difference. */
  lemma TrimTrailingMore(s: string)
    ensures TrimEnd(s + ['/'], IsSlash) == TrimEnd(s, IsSlash)
  {
    assert (s + ['/'])[..|s|] == s;
  }

  // ---------------------------------------------------------------------------
  // The resolver

  /** The icons directory and its public URL, both without a trailing '/'. */
  datatype Resolver = Resolver(iconsDir: string, iconsUrl: string)

  /**
   * The constructor: each string keeps everything up to its last character
   * that is not a '/'; only slashes are dropped, and none is left at the end.
   */
  function NewResolver(iconsDir: string, iconsUrl: string): (r: Resolver)
    ensures |r.iconsDir| <= |iconsDir| && r.iconsDir == iconsDir[..|r.iconsDir|] && forall i :: |r.iconsDir| <= i < |iconsDir| ==> iconsDir[i] == '/'
    ensures |r.iconsUrl| <= |iconsUrl| && r.iconsUrl == iconsUrl[..|r.iconsUrl|] && forall i :: |r.iconsUrl| <= i < |iconsUrl| ==> iconsUrl[i] == '/'
    ensures r.iconsDir == [] || r.iconsDir[|r.iconsDir| - 1] != '/'
    ensures r.iconsUrl == [] || r.iconsUrl[|r.iconsUrl| - 1] != '/'
  {
    Resolver(TrimEnd(iconsDir, IsSlash), TrimEnd(iconsUrl, IsSlash))
  }

  /** `strtolower($symbol) . '.svg'` */
  function FileName(symbol: string): string {
    ToLower(symbol) + ".svg"
  }

  /**
   * path($symbol): the directory, one '/', then the symbol with its ASCII
   * letters lower-cased (no upper-case letter is left), then ".svg".
   */
  function Path(r: Resolver, symbol: string): (p: string)
    ensures |p| == |r.iconsDir| + 1 + |symbol| + 4
    ensures p[..|r.iconsDir| + 1] == r.iconsDir + "/" && p[|p| - 4..] == ".svg"
    ensures forall i :: 0 <= i < |symbol| ==> p[|r.iconsDir| + 1 + i] == LowerChar(symbol[i])
    ensures forall i :: |r.iconsDir| < i < |p| ==> !('A' <= p[i] <= 'Z')
  {
    var d, name := r.iconsDir + "/", ToLower(symbol);
    var p := d + name + ".svg";
    assert p[..|d|] == d && p[|p| - 4..] == ".svg";
    assert forall i :: 0 <= i < |symbol| ==> p[|d| + i] == name[i];
    assert forall i :: |r.iconsDir| < i < |p| - 4 ==> p[i] == name[i - |d|];
    p
  }

  /** exists($symbol), over the set of existing files. */
  predicate Exists(r: Resolver, files: set<string>, symbol: string) {
    Path(r, symbol) in files
  }

  const DATA_URI_PREFIX: string := "data:image/svg+xml,"

  /**
   * url($symbol): the local file's URL when the icon is on disk, else the
   * placeholder as a data URI that decodes to the placeholder's UTF-8 bytes.
   */
  function Url(r: Resolver, files: set<string>, symbol: string): (u: string)
    ensures Exists(r, files, symbol) ==> u == r.iconsUrl + "/" + FileName(symbol)
    ensures !Exists(r, files, symbol) ==>
      |DATA_URI_PREFIX| <= |u| && u[..|DATA_URI_PREFIX|] == DATA_URI_PREFIX &&
      PercentDecode(u[|DATA_URI_PREFIX|..]) == Utf8String(PlaceholderSvg(symbol))
  {
    if Path(r, symbol) in files then r.iconsUrl + "/" + FileName(symbol)
    else
      DataUriDecodes(PlaceholderSvg(symbol));
      DATA_URI_PREFIX + RawUrlEncode(PlaceholderSvg(symbol))
  }

  /** An icon on disk is served from the same file name under the public URL as under the directory. */
  lemma UrlMirrorsPath(r: Resolver, files: set<string>, symbol: string)
    requires Exists(r, files, symbol)
    ensures var p := Path(r, symbol); var u := Url(r, files, symbol);
      |r.iconsDir| <= |p| && p[..|r.iconsDir|] == r.iconsDir &&
      u == r.iconsUrl + p[|r.iconsDir|..]
  {
    var p := Path(r, symbol);
    assert p[|r.iconsDir|..] == "/" + FileName(symbol);
  }

  /** Symbols that differ only in the case of ASCII letters share one icon file. */
  lemma PathIgnoresCase(r: Resolver, a: string, b: string)
    requires ToLower(a) == ToLower(b)
    ensures Path(r, a) == Path(r, b)
  {
  }

  /**
   * A directory given with any number of trailing slashes yields the same
   * paths; the path has exactly one '/' between directory and file name.
   */
  lemma TrailingSlashesIgnored(dir: string, url: string, symbol: string)
    ensures Path(NewResolver(dir + "/", url + "/"), symbol) == Path(NewResolver(dir, url), symbol)
    ensures var d := NewResolver(dir, url).iconsDir; d == [] || d[|d| - 1] != '/'
  {
    TrimTrailingMore(dir);
    TrimTrailingMore(url);
  }

  // ---------------------------------------------------------------------------
  // The placeholder

  const SVG_OPEN: string :=
    "<svg" + " xmlns=\"http://www.w3.org/2000/svg\" viewBox=\"0 0 40 40\">"
    + "<circle cx=\"20\" cy=\"20\" r=\"20\" fill=\"#6366f1\"/>"
    + "<text x=\"20\" y=\"20\" text-anchor=\"middle\" dominant-baseline=\"central\""
    + " fill=\"#fff\" font-size=\"18\" font-family=\"system-ui, sans-serif\">"

  const SVG_CLOSE: string := "</text></svg>"

  /** The opening markup starts with the svg element's tag. */
  lemma SvgOpenTag()
    ensures |SVG_OPEN| >= 4 && SVG_OPEN[..4] == "<svg"
  {
  }

  /** The entity table of htmlspecialchars with ENT_XML1: '&', '<' and '>' become entities, anything else stays. */
  function Entity(c: char): (e: string)
    ensures '<' !in e && '>' !in e
    ensures c != '&' && c != '<' && c != '>' ==> e == [c]
  {
    if c == '&' then "&amp;" else if c == '<' then "&lt;" else if c == '>' then "&gt;" else [c]
  }

  /** htmlspecialchars($s, ENT_XML1): each character replaced by its entry in the entity table; quotes are left as they are. */
  function XmlEscape(s: string): (r: string)
    ensures '<' !in r && '>' !in r
    ensures ('&' !in s && '<' !in s && '>' !in s) ==> r == s
  {
    if s == [] then [] else Entity(s[0]) + XmlEscape(s[1..])
  }

  /** Escaping works character by character. */
  lemma {:induction false} XmlEscapeAppend(a: string, b: string)
    ensures XmlEscape(a + b) == XmlEscape(a) + XmlEscape(b)
  {
    if a == [] {
      assert a + b == b;
    } else {
      assert (a + b)[1..] == a[1..] + b;
      XmlEscapeAppend(a[1..], b);
    }
  }

  /** One character escapes to its entry in the entity table. */
  lemma XmlEscapeChar(c: char)
    ensures XmlEscape([c]) ==
      if c == '&' then "&amp;" else if c == '<' then "&lt;" else if c == '>' then "&gt;" else [c]
  {
    assert [c][1..] == [];
  }

  /** Reads the entities &amp;, &lt; and &gt; back as the characters they stand for. */
  function XmlUnescape(r: string): (s: string)
    ensures |s| <= |r|
  {
    if r == [] then []
    else if |r| >= 5 && r[..5] == "&amp;" then ['&'] + XmlUnescape(r[5..])
    else if |r| >= 4 && r[..4] == "&lt;" then ['<'] + XmlUnescape(r[4..])
    else if |r| >= 4 && r[..4] == "&gt;" then ['>'] + XmlUnescape(r[4..])
    else [r[0]] + XmlUnescape(r[1..])
  }

  /** An entity, followed by anything, reads back as its character followed by what the rest reads back as. */
  lemma UnescapeEntity(c: char, rest: string)
    ensures XmlUnescape(Entity(c) + rest) == [c] + XmlUnescape(rest)
  {
    var r := Entity(c) + rest;
    if c == '&' {
      assert r[..5] == "&amp;" && r[5..] == rest;
    } else if c == '<' {
      assert r[1] == 'l' && r[..4] == "&lt;" && r[4..] == rest;
    } else if c == '>' {
      assert r[1] == 'g' && r[..4] == "&gt;" && r[4..] == rest;
    } else {
      assert r[0] == c && r[1..] == rest;
    }
  }

  /** Escaped text reads back as the original text: escaping loses nothing. */
  lemma {:induction false} XmlEscapeRoundTrip(s: string)
    ensures XmlUnescape(XmlEscape(s)) == s
  {
    if s != [] {
      UnescapeEntity(s[0], XmlEscape(s[1..]));
      XmlEscapeRoundTrip(s[1..]);
      assert [s[0]] + s[1..] == s;
    }
  }

  /**
   * The placeholder's letter: the first character, upper-cased and escaped;
   * empty for an empty symbol. It reads back as that one character and holds
   * no '<' or '>'.
   */
  function Letter(symbol: string): (l: string)
    ensures '<' !in l && '>' !in l
    ensures symbol == [] ==> l == ""
    ensures symbol != [] ==> XmlUnescape(l) == [UpperChar(symbol[0])]
  {
    if symbol == [] then ""
    else
      XmlEscapeRoundTrip([UpperChar(symbol[0])]);
      XmlEscape([UpperChar(symbol[0])])
  }

  /**
   * placeholder_svg($symbol): the fixed opening markup, the letter, the fixed
   * closing markup; the letter can never open or close an element.
   */
  function PlaceholderSvg(symbol: string): (svg: string)
    ensures |SVG_OPEN| + |SVG_CLOSE| <= |svg|
    ensures svg[..|SVG_OPEN|] == SVG_OPEN && svg[|svg| - |SVG_CLOSE|..] == SVG_CLOSE
    ensures var between := svg[|SVG_OPEN|..|svg| - |SVG_CLOSE|]; '<' !in between && '>' !in between
  {
    var open, letter, close := SVG_OPEN, Letter(symbol), SVG_CLOSE;
    var svg := open + letter + close;
    assert svg[..|open|] == open && svg[|svg| - |close|..] == close;
    assert svg[|open|..|svg| - |close|] == letter;
    svg
  }

  /**
   * What the placeholder shows between its opening and closing markup:
   * nothing for an empty symbol, else the first character upper-cased, or
   * its entity when that character is '&', '<' or '>'.
   */
  lemma PlaceholderShowsLetter(symbol: string)
    ensures symbol == [] ==> PlaceholderSvg(symbol) == SVG_OPEN + SVG_CLOSE
    ensures symbol != [] ==>
      var c := UpperChar(symbol[0]);
      PlaceholderSvg(symbol) == SVG_OPEN
        + (if c == '&' then "&amp;" else if c == '<' then "&lt;" else if c == '>' then "&gt;" else [c])
        + SVG_CLOSE
  {
    if symbol != [] {
      XmlEscapeChar(UpperChar(symbol[0]));
    }
  }

  // ---------------------------------------------------------------------------
  // The data URI

  /** URL-safe text holds no quote, space or '<'. */
  lemma SafeHasNoMarkup(r: string)
    requires UrlSafe(r)
    ensures '"' !in r && ' ' !in r && '<' !in r
  {
    forall i | 0 <= i < |r| ensures r[i] != '"' && r[i] != ' ' && r[i] != '<' {
      assert Unreserved(r[i]) || r[i] == '%';
    }
  }

  /**
   * A data URI built from any text: the prefix, then an encoding that decodes
   * to the text's UTF-8 bytes and holds no quote, space or '<'.
   */
  lemma DataUriDecodes(text: string)
    ensures var u := DATA_URI_PREFIX + RawUrlEncode(text);
      u[..|DATA_URI_PREFIX|] == DATA_URI_PREFIX &&
      PercentDecode(u[|DATA_URI_PREFIX|..]) == Utf8String(text) &&
      '"' !in u[|DATA_URI_PREFIX|..] && ' ' !in u[|DATA_URI_PREFIX|..] && '<' !in u[|DATA_URI_PREFIX|..]
  {
    var u := DATA_URI_PREFIX + RawUrlEncode(text);
    assert u[|DATA_URI_PREFIX|..] == RawUrlEncode(text);
    RawUrlEncodeRoundTrip(text);
    RawUrlEncodeSafe(text);
    SafeHasNoMarkup(RawUrlEncode(text));
  }

}
