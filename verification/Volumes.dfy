/** Volume names: what handleList prints (internal/api/api.go) and how the plugin reads it back
    (perl/S3Plugin.pm, _parse_volname and _content_to_prefix). */
module Volumes {
  import opened Metadata
  import opened Text

  function ContentToPrefix(content: string): string {
    if content == "iso" then "template/iso/"
    else if content == "vztmpl" then "template/cache/"
    else if content == "snippets" then "snippets/"
    else if content == "backup" then "dump/"
    else if content == "import" then "import/"
    else if content == "images" then "images/"
    else content + "/"
  }

  /** filepath.Base of a key that does not end in a slash: what follows the last one. */
  function Base(key: string): string
    decreases |key|
  {
    var c := Cut(key, '/');
    if c.None? then key else Base(c.value.1)
  }

  /** The volume name printed for an object. */
  function ObjectVolname(content: string, key: string): string {
    if content == "images" then TrimPrefix(key, ContentToPrefix(content)) else content + "/" + Base(key)
  }

  /** The volume name printed for a local file not on S3: content and name, or VM id and name. */
  function LocalVolname(content: string, name: string): string { content + "/" + name }

  /** _parse_volname: a numeric first component is an images volume, any other one is the content;
      without one the content is iso. */
  function ParseVolname(volname: string): (string, string) {
    var c := Cut(volname, '/');
    if c.None? || c.value.0 == "" || c.value.1 == "" then ("iso", volname)
    else if AllDigits(c.value.0) then ("images", volname)
    else (c.value.0, c.value.1)
  }

  /** _content_to_prefix, the plugin's own table. */
  function PluginPrefix(content: string): string {
    match content
    case "iso" => "template/iso/"
    case "vztmpl" => "template/cache/"
    case "snippets" => "snippets/"
    case "backup" => "dump/"
    case "import" => "import/"
    case "images" => "images/"
    case _ => content + "/"
  }

  /** The key the plugin asks for. */
  function KeyOf(volname: string): string {
    var (content, filename) := ParseVolname(volname);
    PluginPrefix(content) + filename
  }

  /** Daemon and plugin agree on where content lies. */
  lemma PrefixesAgree(content: string)
    ensures ContentToPrefix(content) == PluginPrefix(content)
    ensures !IsContent(content) ==> ContentToPrefix(content) == content + "/"
  {
  }

  /** Where each kind of content lies. */
  lemma PrefixesAre(content: string)
    ensures match content
      case "iso" => PluginPrefix(content) == "template/iso/"
      case "vztmpl" => PluginPrefix(content) == "template/cache/"
      case "snippets" => PluginPrefix(content) == "snippets/"
      case "backup" => PluginPrefix(content) == "dump/"
      case "import" => PluginPrefix(content) == "import/"
      case "images" => PluginPrefix(content) == "images/"
      case _ => PluginPrefix(content) == content + "/"
  {
  }

  /** A volume name without a slash is an ISO. */
  lemma PlainNameIsIso(name: string)
    requires '/' !in name
    ensures KeyOf(name) == "template/iso/" + name
  {
  }

  /** A number in front names a VM, anything else a content type, known or not. */
  lemma FirstComponentDecides(first: string, name: string)
    requires first != "" && '/' !in first && name != ""
    ensures KeyOf(first + "/" + name) ==
      if AllDigits(first) then "images/" + (first + "/" + name) else PluginPrefix(first) + name
  {
    CutFirst(first, '/', name);
  }

  predicate IsContent(content: string) {
    content == "iso" || content == "vztmpl" || content == "snippets" || content == "backup" || content == "import"
  }

  lemma {:induction false} BaseHasNoSlash(key: string)
    ensures '/' !in Base(key) && |Base(key)| <= |key| && (Base(key) == key <==> '/' !in key)
    decreases |key|
  {
    var c := Cut(key, '/');
    if c.Some? { BaseHasNoSlash(c.value.1); }
  }

  lemma {:induction false} BaseAfterPrefix(a: string, b: string)
    requires '/' in a && a[|a| - 1] == '/'
    ensures Base(a + b) == Base(b)
    decreases |a|
  {
    var c := Cut(a, '/').value;
    assert a + b == c.0 + ['/'] + (c.1 + b);
    CutFirst(c.0, '/', c.1 + b);
    if c.1 == "" {
      assert c.1 + b == b;
    } else {
      assert c.1[|c.1| - 1] == '/';
      BaseAfterPrefix(c.1, b);
    }
  }

  lemma PrefixesEndInSlash(content: string)
    ensures var p := ContentToPrefix(content); |p| > 0 && p[|p| - 1] == '/' && '/' in p
  {
    var p := ContentToPrefix(content);
    assert p[|p| - 1] == '/';
  }

  /** A volume name "content/name" leads back to prefix + name. */
  lemma NamedVolume(content: string, name: string)
    requires IsContent(content) || content == "images"
    requires name != ""
    ensures KeyOf(content + "/" + name) == ContentToPrefix(content) + name
  {
    assert content != "" && '/' !in content && !IsDigit(content[0]);
    PrefixesAgree(content);
    CutFirst(content, '/', name);
  }

  /** Listing and plugin agree on an object exactly when it lies directly under its prefix. */
  lemma FlatKeyRoundTripIff(content: string, rest: string)
    requires IsContent(content) && rest != "" && rest[|rest| - 1] != '/'
    ensures KeyOf(ObjectVolname(content, ContentToPrefix(content) + rest)) == ContentToPrefix(content) + rest
      <==> '/' !in rest
  {
    var prefix := ContentToPrefix(content);
    PrefixesEndInSlash(content);
    BaseAfterPrefix(prefix, rest);
    BaseNotEmpty(rest);
    BaseHasNoSlash(rest);
    NamedVolume(content, Base(rest));
    assert |prefix + Base(rest)| == |prefix| + |Base(rest)|;
    PrefixCancels(prefix, Base(rest), rest);
  }

  lemma PrefixCancels(prefix: string, a: string, b: string)
    ensures prefix + a == prefix + b ==> a == b
  {
    assert (prefix + a)[|prefix|..] == a && (prefix + b)[|prefix|..] == b;
  }

  lemma {:induction false} BaseNotEmpty(key: string)
    requires key != "" && key[|key| - 1] != '/'
    ensures Base(key) != ""
    decreases |key|
  {
    var c := Cut(key, '/');
    if c.Some? {
      assert key == c.value.0 + ['/'] + c.value.1;
      assert c.value.1 != "";
      BaseNotEmpty(c.value.1);
    }
  }

  predicate InVmDirectory(rest: string) {
    var c := Cut(rest, '/');
    c.Some? && c.value.0 != "" && AllDigits(c.value.0)
  }

  /** And for disk images, exactly when the object lies in a numeric VM directory. */
  lemma ImageKeyRoundTripIff(rest: string)
    requires rest != "" && rest[|rest| - 1] != '/'
    ensures KeyOf(ObjectVolname("images", "images/" + rest)) == "images/" + rest <==> InVmDirectory(rest)
  {
    var volname := ObjectVolname("images", "images/" + rest);
    assert volname == rest by { TrimImages(rest); }
    assert KeyOf(volname) == KeyOf(rest);
    ReadBackIff(rest);
  }

  /** What is read as an ISO, or as another content type, does not lead to images/. */
  lemma ReadBackIso(rest: string)
    requires Cut(rest, '/').None? || Cut(rest, '/').value.0 == ""
    ensures KeyOf(rest) != "images/" + rest
  {
    assert ParseVolname(rest) == ("iso", rest);
    IsoIsNotImages(rest);
  }

  lemma ReadBackOther(first: string, second: string)
    requires first != "" && '/' !in first && second != "" && !AllDigits(first)
    ensures KeyOf(first + "/" + second) != "images/" + (first + "/" + second)
  {
    FirstComponentDecides(first, second);
    PrefixesAgree(first);
    NotBackToImages(first, second);
  }

  lemma ReadBackIff(rest: string)
    requires rest != "" && rest[|rest| - 1] != '/'
    ensures KeyOf(rest) == "images/" + rest <==> InVmDirectory(rest)
  {
    CutParts(rest, '/');
    var c := Cut(rest, '/');
    if c.None? || c.value.0 == "" {
      ReadBackIso(rest);
    } else {
      assert rest == c.value.0 + "/" + c.value.1;
      if AllDigits(c.value.0) {
        FirstComponentDecides(c.value.0, c.value.1);
      } else {
        ReadBackOther(c.value.0, c.value.1);
      }
    }
  }

  lemma TrimPrefixed(prefix: string, rest: string)
    ensures TrimPrefix(prefix + rest, prefix) == rest
  {
  }

  lemma TrimImages(rest: string)
    ensures ObjectVolname("images", "images/" + rest) == rest
  {
    assert ContentToPrefix("images") == "images/";
    assert TrimPrefix("images/" + rest, "images/") == rest;
  }

  /** The volume name without a content type is an ISO. */
  lemma IsoIsNotImages(rest: string)
    ensures "template/iso/" + rest != "images/" + rest
  {
    assert |"template/iso/" + rest| == 13 + |rest| && |"images/" + rest| == 7 + |rest|;
  }

  lemma CutParts(s: string, sep: char)
    ensures var c := Cut(s, sep);
      && (c.Some? ==> s == c.value.0 + [sep] + c.value.1 && sep !in c.value.0)
      && (c.Some? && s[|s| - 1] != sep ==> c.value.1 != "")
  {}

  /** A first component that is not a number is read as the content type, never as images/. */
  lemma NotBackToImages(first: string, second: string)
    requires first != "" && '/' !in first
    ensures ContentToPrefix(first) + second != "images/" + (first + "/" + second)
  {
    var key := "images/" + (first + "/" + second);
    assert |key| == 8 + |first| + |second|;
    assert key[0] == 'i' && key[1] == 'm';
    if first == "iso" || first == "vztmpl" || first == "snippets" || first == "backup" {
      assert (ContentToPrefix(first) + second)[0] != 'i';
    } else if first == "import" {
      assert |ContentToPrefix(first) + second| == 7 + |second|;
    } else if first == "images" {
      assert |ContentToPrefix(first) + second| == 7 + |second|;
    } else {
      assert |ContentToPrefix(first) + second| == |first| + 1 + |second|;
    }
  }

  lemma LocalImageResolves(content: string, name: string)
    requires content == "images" && name != ""
    ensures KeyOf(LocalVolname(content, name)) == "images/" + name
  {
    NamedVolume(content, name);
  }

  /** So an image placed directly under images/ changes its volume name when its upload finishes:
      before, the listing prints a name that leads to its key; afterwards, one that leads elsewhere. */
  lemma FlatImageNameChanges(name: string)
    requires name != "" && '/' !in name
    ensures KeyOf(LocalVolname("images", name)) == "images/" + name
    ensures KeyOf(ObjectVolname("images", "images/" + name)) != "images/" + name
  {
    LocalImageResolves("images", name);
    ImageKeyRoundTripIff(name);
  }
}
