/**
  The Storyblok helpers of the component package: the asset URL rewrite with its
  resize parameter, editor detection and the content version.
 */
module StoryblokUtils {
  import opened Wrappers
  import opened Strings
  import JsObject

  // ---------------------------------------------------------------------------
  // application/x-www-form-urlencoded serialisation, as `URLSearchParams` does it

  /** A character `URLSearchParams` writes as itself. */
  predicate IsFormSafe(c: char) {
    ('a' <= c <= 'z') || ('A' <= c <= 'Z') || ('0' <= c <= '9') || c == '*' || c == '-' || c == '.' || c == '_'
  }

  function HexDigit(d: nat): (c: char)
    requires d < 16
    ensures IsFormSafe(c)
  {
    if d < 10 then ('0' as int + d) as char else ('A' as int + d - 10) as char
  }

  /** The UTF-8 encoding of one character. */
  function Utf8Bytes(c: char): (bytes: seq<nat>)
    ensures 1 <= |bytes| <= 4
    ensures forall i :: 0 <= i < |bytes| ==> bytes[i] < 256
    ensures (c as int < 0x80) <==> |bytes| == 1
  {
    var cp := c as int;
    if cp < 0x80 then [cp]
    else if cp < 0x800 then [0xC0 + cp / 0x40, 0x80 + cp % 0x40]
    else if cp < 0x1_0000 then [0xE0 + cp / 0x1000, 0x80 + cp / 0x40 % 0x40, 0x80 + cp % 0x40]
    else [0xF0 + cp / 0x4_0000 % 8, 0x80 + cp / 0x1000 % 0x40, 0x80 + cp / 0x40 % 0x40, 0x80 + cp % 0x40]
  }

  /** "%XY" for each byte, with upper-case hex digits. */
  function PercentBytes(bytes: seq<nat>): (r: string)
    requires forall i :: 0 <= i < |bytes| ==> bytes[i] < 256
    ensures |r| == 3 * |bytes|
    ensures forall i :: 0 <= i < |r| ==> r[i] == '%' || IsFormSafe(r[i])
  {
    if bytes == [] then ""
    else ['%', HexDigit(bytes[0] / 16), HexDigit(bytes[0] % 16)] + PercentBytes(bytes[1..])
  }

  function FormEncodeChar(c: char): (r: string)
    ensures IsFormSafe(c) ==> r == [c]
    ensures forall i :: 0 <= i < |r| ==> r[i] != '&' && r[i] != '='
  {
    if IsFormSafe(c) then [c]
    else if c == ' ' then "+"
    else PercentBytes(Utf8Bytes(c))
  }

  /** The encoding of a name or a value; its output never holds the separators '&' and '='. */
  function FormEncode(s: string): (r: string)
    ensures forall i :: 0 <= i < |r| ==> r[i] != '&' && r[i] != '='
    ensures |r| >= |s|
  {
    if s == [] then "" else FormEncodeChar(s[0]) + FormEncode(s[1..])
  }

  /** A string of safe characters is written as itself. */
  lemma {:induction false} FormEncodeSafe(s: string)
    requires forall i :: 0 <= i < |s| ==> IsFormSafe(s[i])
    ensures FormEncode(s) == s
  {
    if s != [] {
      FormEncodeSafe(s[1..]);
      assert s == [s[0]] + s[1..];
    }
  }

  lemma {:induction false} FormEncodeAppend(a: string, b: string)
    ensures FormEncode(a + b) == FormEncode(a) + FormEncode(b)
  {
    if a == [] {
      assert a + b == b;
    } else {
      assert (a + b)[0] == a[0];
      assert (a + b)[1..] == a[1..] + b;
      FormEncodeAppend(a[1..], b);
    }
  }

  function SerializePairs(pairs: seq<(string, string)>): string {
    Join(seq(|pairs|, i requires 0 <= i < |pairs| => FormEncode(pairs[i].0) + "=" + FormEncode(pairs[i].1)), "&")
  }

  /** A `URLSearchParams` object: its name-value list, which `set` updates in place. */
  class SearchParams {
    var pairs: seq<(string, string)>

    /** `params.set` never lets a name occur twice. */
    ghost predicate Valid()
      reads this
    {
      JsObject.DistinctKeys(pairs)
    }

    /** `new URLSearchParams()`. */
    constructor()
      ensures pairs == [] && Valid()
    {
      pairs := [];
    }

    /**
      `params.set(name, value)`: the pair of `name` takes the new value in place, or a new
      pair is appended.
     */
    method Set(name: string, value: string)
      requires Valid()
      modifies this
      ensures pairs == JsObject.Assign(old(pairs), name, value)
      ensures Valid()
    {
      JsObject.AssignKeepsKeysDistinct(pairs, name, value);
      pairs := JsObject.Assign(pairs, name, value);
    }

    /** `params.toString()`: "name=value" pairs joined by "&". */
    function ToString(): string
      reads this
    {
      SerializePairs(pairs)
    }
  }

  /** The serialisation is empty exactly when there is no pair. */
  lemma SerializeEmpty(pairs: seq<(string, string)>)
    ensures SerializePairs(pairs) == "" <==> pairs == []
  {
    var parts := seq(|pairs|, i requires 0 <= i < |pairs| => FormEncode(pairs[i].0) + "=" + FormEncode(pairs[i].1));
    if |pairs| >= 2 {
      JoinFrom(parts, "&", 0);
      assert parts[0..] == parts;
      assert |SerializePairs(pairs)| >= |parts[0]| + 1;
    } else if |pairs| == 1 {
      assert SerializePairs(pairs) == parts[0];
    }
  }

  // ---------------------------------------------------------------------------
  // storyblokAsset

  /** JavaScript truthiness of an optional number: `undefined` and 0 are falsy. */
  predicate NumberTruthy(n: Option<int>) {
    n.Some? && n.value != 0
  }

  /** The host rewrite: only the first "//a.storyblok.com" becomes "//img2.storyblok.com". */
  function AssetBase(filename: string): (r: string)
    ensures !Contains(filename, "//a.storyblok.com") ==> r == filename
    ensures Contains(filename, "//a.storyblok.com") ==>
      var i := IndexOf(filename, "//a.storyblok.com").value;
      && filename == filename[..i] + "//a.storyblok.com" + filename[i + 17..]
      && r == filename[..i] + "//img2.storyblok.com" + filename[i + 17..]
      && forall j :: 0 <= j < i ==> !OccursAt(filename, "//a.storyblok.com", j)
  {
    if Contains(filename, "//a.storyblok.com") then
      var i := IndexOf(filename, "//a.storyblok.com").value;
      assert filename == filename[..i] + filename[i..i + 17] + filename[i + 17..];
      ReplaceFirst(filename, "//a.storyblok.com", "//img2.storyblok.com")
    else
      filename
  }

  /** The value of the resize parameter: `${width}x${height || width}`. */
  function Dimensions(width: int, height: Option<int>): string {
    IntToString(width) + "x" + IntToString(if NumberTruthy(height) then height.value else width)
  }

  /** A printed integer holds digits and at most a leading '-'. */
  lemma NumeralIsSafe(i: int)
    ensures forall k :: 0 <= k < |IntToString(i)| ==> IsFormSafe(IntToString(i)[k])
  {
    var a := IntToString(i);
    forall k | 0 <= k < |a| ensures IsFormSafe(a[k]) {
      if k == 0 && i < 0 {
        assert a[0] == '-';
      }
    }
  }

  lemma SafeConcat(u: string, v: string)
    requires forall i :: 0 <= i < |u| ==> IsFormSafe(u[i])
    requires forall i :: 0 <= i < |v| ==> IsFormSafe(v[i])
    ensures forall i :: 0 <= i < |u + v| ==> IsFormSafe((u + v)[i])
  {
    forall i | 0 <= i < |u + v| ensures IsFormSafe((u + v)[i]) {
      if i < |u| {
        assert (u + v)[i] == u[i];
      } else {
        assert (u + v)[i] == v[i - |u|];
      }
    }
  }

  lemma DimensionsAreSafe(width: int, height: Option<int>)
    ensures forall i :: 0 <= i < |Dimensions(width, height)| ==> IsFormSafe(Dimensions(width, height)[i])
  {
    var h := if NumberTruthy(height) then height.value else width;
    NumeralIsSafe(width);
    NumeralIsSafe(h);
    SafeConcat(IntToString(width), "x");
    SafeConcat(IntToString(width) + "x", IntToString(h));
  }

  /** The query string after a single `set` on fresh parameters holds just that pair. */
  lemma SingleResizeQuery(value: string)
    requires forall i :: 0 <= i < |value| ==> IsFormSafe(value[i])
    ensures SerializePairs([("m", value)]) == "m=" + value
  {
    FormEncodeSafe(value);
    FormEncodeSafe("m");
  }

  /** The query after `set("m", ...)` on fresh parameters. */
  lemma ResizeQuery(width: int, height: Option<int>)
    ensures SerializePairs(JsObject.Assign([], "m", Dimensions(width, height))) == "m=" + Dimensions(width, height)
  {
    assert JsObject.Assign([], "m", Dimensions(width, height)) == [("m", Dimensions(width, height))];
    DimensionsAreSafe(width, height);
    SingleResizeQuery(Dimensions(width, height));
  }

  /** A step of the proof of `StoryblokAsset`: the URL with its query, regrouped. */
  lemma ResizedUrl(base: string, w: string, h: string)
    ensures base + "?" + ("m=" + (w + "x" + h)) == base + "?m=" + w + "x" + h
  {
    assert "?" + "m=" == "?m=";
  }

  /**
    `storyblokAsset`: "" for an empty filename; otherwise the rewritten base, followed by
    "?m=WxH" when the width is truthy, with H the height when truthy and the width otherwise.
   */
  method StoryblokAsset(filename: string, width: Option<int>, height: Option<int>) returns (url: string)
    ensures filename == "" ==> url == ""
    ensures filename != "" && !NumberTruthy(width) ==> url == AssetBase(filename)
    ensures filename != "" && NumberTruthy(width) ==>
      url == AssetBase(filename) + "?m=" + IntToString(width.value) + "x" +
        IntToString(if NumberTruthy(height) then height.value else width.value)
  {
    if filename == "" {
      return "";
    }
    var baseUrl := AssetBase(filename);
    var params := new SearchParams();
    if NumberTruthy(width) {
      params.Set("m", Dimensions(width.value, height));
      ResizeQuery(width.value, height);
    }
    var query := params.ToString();
    SerializeEmpty(params.pairs);
    if query != "" {
      url := baseUrl + "?" + query;
      ResizedUrl(baseUrl, IntToString(width.value), IntToString(if NumberTruthy(height) then height.value else width.value));
    } else {
      url := baseUrl;
    }
  }

  // ---------------------------------------------------------------------------
  // Editor detection and content version

  /** The browser window, as far as these helpers read it. */
  datatype Window = Window(locationSearch: string)

  /** `isStoryblokEditor`; `None` is a server render, where `window` is undefined. */
  function IsStoryblokEditor(window: Option<Window>): (r: bool)
    ensures r <==> window.Some? && Contains(window.value.locationSearch, "_storyblok")
  {
    if window.None? then false else Contains(window.value.locationSearch, "_storyblok")
  }

  /** `getStoryblokVersion`. */
  function GetStoryblokVersion(window: Option<Window>): (v: string)
    ensures v == "draft" || v == "published"
    ensures v == "draft" <==> window.Some? && Contains(window.value.locationSearch, "_storyblok")
  {
    if window.Some? && IsStoryblokEditor(window) then "draft" else "published"
  }

  /** A server render always asks for the published content. */
  lemma ServerRenderIsPublished()
    ensures GetStoryblokVersion(None) == "published"
  {
  }
}
