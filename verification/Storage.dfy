/** The object-storage port: content-addressed keys. */
module Storage {
  import opened MetaTypes

  /** A sha256 in hexadecimal. */
  type Sha = s: string | |s| == 64 witness seq(64, i => '0')

  function Dotted(extension: string): (r: string)
    ensures r != "" && r[0] == '.'
  {
    if extension != "" && extension[0] == '.' then extension else "." + extension
  }

  /** media/ab/cd/abcd… with the extension at the end. */
  function ContentAddressedKey(sha256: Sha, extension: string): string {
    "media/" + sha256[..2] + "/" + sha256[2..4] + "/" + sha256 + Dotted(extension)
  }

  /** Two directories named by the first four digits, the hash, and the extension with one dot. */
  lemma KeySpellsItsParts(sha256: Sha, extension: string)
    ensures var key := ContentAddressedKey(sha256, extension);
            |key| >= 76 && key[..6] == "media/" && key[6..8] == sha256[..2] && key[8] == '/'
            && key[9..11] == sha256[2..4] && key[11] == '/' && key[12..76] == sha256
            && key[76..] == Dotted(extension)
            && (extension != "" && extension[0] == '.' ==> key[76..] == extension)
            && (extension == "" || extension[0] != '.' ==> key[76..] == "." + extension)
  {
    var prefix := "media/" + sha256[..2] + "/" + sha256[2..4] + "/";
    assert |prefix| == 12;
    assert ContentAddressedKey(sha256, extension) == prefix + sha256 + Dotted(extension);
  }

  /** Two keys coincide exactly when hash and extension do: the extension is part of the address. */
  lemma KeysAreInjective(s: Sha, e: string, t: Sha, f: string)
    ensures ContentAddressedKey(s, e) == ContentAddressedKey(t, f) <==> s == t && Dotted(e) == Dotted(f)
  {
    hide ContentAddressedKey;
    KeySpellsItsParts(s, e);
    KeySpellsItsParts(t, f);
    if s == t && Dotted(e) == Dotted(f) { SameParts(s, e, f); }
  }

  lemma SameParts(s: Sha, e: string, f: string)
    requires Dotted(e) == Dotted(f)
    ensures ContentAddressedKey(s, e) == ContentAddressedKey(s, f)
  {
  }

  // ---------------------------------------------------------------- extensions

  function UpTo(s: string, stop: char): string {
    if s == "" || s[0] == stop then "" else [s[0]] + UpTo(s[1..], stop)
  }

  predicate IsSpace(c: char) {
    c in " \t\n\r" || c as int == 0x0b || c as int == 0x0c || c as int == 0xa0
  }

  function TrimLeft(s: string): string {
    if s != "" && IsSpace(s[0]) then TrimLeft(s[1..]) else s
  }

  function TrimRight(s: string): string {
    if s != "" && IsSpace(s[|s| - 1]) then TrimRight(s[..|s| - 1]) else s
  }

  function Lower(s: string): (r: string)
    ensures |r| == |s|
  {
    seq(|s|, i requires 0 <= i < |s| =>
      if 'A' <= s[i] <= 'Z' then (s[i] as int + 32) as char else s[i])
  }

  const EXTENSIONS := map[
    "image/jpeg" := ".jpg",
    "image/jpg" := ".jpg",
    "image/png" := ".png",
    "image/webp" := ".webp",
    "image/heic" := ".heic",
    "image/gif" := ".gif",
    "video/mp4" := ".mp4",
    "video/quicktime" := ".mov",
    "video/webm" := ".webm"]

  function Normalized(contentType: string): string {
    Lower(TrimRight(TrimLeft(UpTo(contentType, ';'))))
  }

  /**
   * None is a TypeError: the table is a plain object, so the two lower-case names every object
   * inherits are found in it and are not strings.
   */
  function ExtensionForContentType(contentType: Option<string>): (r: Option<string>)
    ensures r.Some? ==> r.value == ".bin" || r.value in EXTENSIONS.Values
    ensures r.None? <==> contentType.Some? && Normalized(contentType.value) in {"constructor", "__proto__"}
  {
    if contentType.None? || contentType.value == "" then Some(".bin") else
    var normalized := Normalized(contentType.value);
    if normalized in {"constructor", "__proto__"} then None
    else if normalized in EXTENSIONS then Some(EXTENSIONS[normalized])
    else Some(".bin")
  }

  lemma {:induction false} UpToStops(s: string, t: string, stop: char)
    ensures UpTo(s + [stop] + t, stop) == UpTo(s, stop)
  {
    var all := s + [stop] + t;
    if s != "" && s[0] != stop {
      assert all[1..] == s[1..] + [stop] + t;
      UpToStops(s[1..], t, stop);
    }
  }

  /** Parameters after the media type never change the extension, so never the address. */
  lemma ParametersAreIgnored(contentType: string, parameters: string)
    ensures ExtensionForContentType(Some(contentType + ";" + parameters)) == ExtensionForContentType(Some(contentType))
  {
    UpToStops(contentType, parameters, ';');
    if contentType == "" {
      assert Normalized(";" + parameters) == "" by { assert UpTo(";" + parameters, ';') == ""; }
      assert contentType + ";" + parameters == ";" + parameters;
    }
  }

  // ---------------------------------------------------------------- which extension

  /** Only what `trim` removes of the characters a header can have. */
  predicate Blank(s: string) {
    forall i :: 0 <= i < |s| ==> s[i] as int in {0x09, 0x0a, 0x0b, 0x0c, 0x0d, 0x20, 0xa0}
  }

  /** The text is the name with some of its letters in upper case. */
  predicate SameButForCase(t: string, name: string) {
    |t| == |name| && forall i :: 0 <= i < |t| ==>
      t[i] == name[i] || ('a' <= name[i] <= 'z' && t[i] as int + 32 == name[i] as int)
  }

  /** Blanks, the name in any case, and blanks, up to the end or a semicolon. */
  predicate SpelledAs(contentType: string, left: string, t: string, right: string, rest: string, name: string) {
    contentType == left + t + right + rest && Blank(left) && Blank(right) && (rest == "" || rest[0] == ';')
    && SameButForCase(t, name)
  }

  ghost predicate Spells(contentType: string, name: string) {
    exists left, t, right, rest :: SpelledAs(contentType, left, t, right, rest, name)
  }

  /** Lower-case, with neither blanks nor a semicolon in it. */
  predicate PlainName(name: string) {
    name != "" && forall i :: 0 <= i < |name| ==> name[i] != ';' && !IsSpace(name[i]) && !('A' <= name[i] <= 'Z')
  }

  lemma {:induction false} UpToIsPrefix(s: string, stop: char) returns (rest: string)
    ensures s == UpTo(s, stop) + rest && (rest == "" || rest[0] == stop)
  {
    if s == "" || s[0] == stop { rest := s; } else { rest := UpToIsPrefix(s[1..], stop); }
  }

  lemma {:induction false} TrimLeftIsSuffix(s: string) returns (left: string)
    ensures s == left + TrimLeft(s) && Blank(left)
  {
    if s != "" && IsSpace(s[0]) {
      left := TrimLeftIsSuffix(s[1..]);
      left := [s[0]] + left;
    } else {
      left := "";
    }
  }

  lemma {:induction false} TrimRightIsPrefix(s: string) returns (right: string)
    ensures s == TrimRight(s) + right && Blank(right)
  {
    if s != "" && IsSpace(s[|s| - 1]) {
      right := TrimRightIsPrefix(s[..|s| - 1]);
      right := right + [s[|s| - 1]];
    } else {
      right := "";
    }
  }

  lemma {:induction false} UpToEnds(s: string, rest: string, stop: char)
    requires (forall i :: 0 <= i < |s| ==> s[i] != stop) && (rest == "" || rest[0] == stop)
    ensures UpTo(s + rest, stop) == s
  {
    if s == "" {
      assert s + rest == rest;
    } else {
      assert (s + rest)[1..] == s[1..] + rest;
      UpToEnds(s[1..], rest, stop);
    }
  }

  lemma {:induction false} TrimLeftDrops(left: string, s: string)
    requires Blank(left) && s != "" && !IsSpace(s[0])
    ensures TrimLeft(left + s) == s
  {
    if left == "" {
      assert left + s == s;
    } else {
      assert (left + s)[1..] == left[1..] + s;
      TrimLeftDrops(left[1..], s);
    }
  }

  lemma {:induction false} TrimRightDrops(s: string, right: string)
    requires Blank(right) && s != "" && !IsSpace(s[|s| - 1])
    ensures TrimRight(s + right) == s
  {
    if right == "" {
      assert s + right == s;
    } else {
      assert (s + right)[..|s + right| - 1] == s + right[..|right| - 1];
      TrimRightDrops(s, right[..|right| - 1]);
    }
  }

  lemma {:induction false} LowerUndoesCase(t: string, name: string)
    requires PlainName(name)
    ensures Lower(t) == name <==> SameButForCase(t, name)
  {
    if SameButForCase(t, name) {
      forall i | 0 <= i < |t| ensures Lower(t)[i] == name[i] {}
    }
    if Lower(t) == name {
      forall i | 0 <= i < |t|
        ensures t[i] == name[i] || ('a' <= name[i] <= 'z' && t[i] as int + 32 == name[i] as int)
      {
        assert Lower(t)[i] == name[i];
      }
    }
  }

  lemma {:induction false} NormalizedAsSpelled(
    contentType: string, left: string, t: string, right: string, rest: string, name: string)
    requires PlainName(name) && SpelledAs(contentType, left, t, right, rest, name)
    ensures Normalized(contentType) == name
  {
    hide UpTo, TrimLeft, TrimRight, Lower;
    LowerUndoesCase(t, name);
    UpToEnds(left + t + right, rest, ';');
    assert left + t + right == left + (t + right);
    TrimLeftDrops(left, t + right);
    TrimRightDrops(t, right);
  }

  lemma {:induction false} SpellsIsNormalized(contentType: string, name: string)
    requires PlainName(name)
    ensures Spells(contentType, name) <==> Normalized(contentType) == name
  {
    hide UpTo, TrimLeft, TrimRight, Lower, SpelledAs, PlainName;
    if Spells(contentType, name) {
      var left, t, right, rest :| SpelledAs(contentType, left, t, right, rest, name);
      NormalizedAsSpelled(contentType, left, t, right, rest, name);
    }
    var rest := UpToIsPrefix(contentType, ';');
    var left := TrimLeftIsSuffix(UpTo(contentType, ';'));
    var right := TrimRightIsPrefix(TrimLeft(UpTo(contentType, ';')));
    var t := TrimRight(TrimLeft(UpTo(contentType, ';')));
    LowerUndoesCase(t, name);
    if Normalized(contentType) == name { SplitsSo(contentType, left, t, right, rest, name); }
  }

  lemma SplitsSo(contentType: string, left: string, t: string, right: string, rest: string, name: string)
    requires contentType == left + (t + right) + rest && Blank(left) && Blank(right)
    requires (rest == "" || rest[0] == ';') && SameButForCase(t, name)
    ensures SpelledAs(contentType, left, t, right, rest, name)
  {
    assert left + (t + right) == left + t + right;
  }

  /** The nine types that have an extension of their own. */
  predicate IsEntry(name: string, extension: string) {
    match extension
    case ".jpg" => name == "image/jpeg" || name == "image/jpg"
    case ".png" => name == "image/png"
    case ".webp" => name == "image/webp"
    case ".heic" => name == "image/heic"
    case ".gif" => name == "image/gif"
    case ".mp4" => name == "video/mp4"
    case ".mov" => name == "video/quicktime"
    case ".webm" => name == "video/webm"
    case _ => false
  }

  /**
   * A content type gets an extension of its own exactly when it spells one of the nine types, in any
   * case, blanks around it and parameters after it ignored; every other one gets `.bin` or, for the
   * two inherited names, throws.
   */
  lemma {:induction false} ExtensionExactly(contentType: string, extension: string)
    ensures ExtensionForContentType(Some(contentType)) == Some(extension) && extension != ".bin"
            <==> exists name :: IsEntry(name, extension) && Spells(contentType, name)
    ensures ExtensionForContentType(Some(contentType)).None?
            <==> Spells(contentType, "constructor") || Spells(contentType, "__proto__")
    ensures ExtensionForContentType(None) == Some(".bin")
  {
    hide Spells, Normalized;
    NothingSpellsNothing();
    var n := Normalized(contentType);
    forall name | PlainName(name) ensures Spells(contentType, name) <==> n == name {
      SpellsIsNormalized(contentType, name);
    }
    EntriesArePlain(n, extension);
    forall name | IsEntry(name, extension) ensures PlainName(name) { EntriesArePlain(name, extension); }
    if IsEntry(n, extension) { assert Spells(contentType, n); }
  }

  lemma NothingSpellsNothing()
    ensures Normalized("") == ""
    ensures PlainName("constructor") && PlainName("__proto__")
  {
  }

  lemma EntriesArePlain(name: string, extension: string)
    ensures IsEntry(name, extension) ==> PlainName(name) && extension != ".bin" && name !in {"constructor", "__proto__"}
    ensures IsEntry(name, extension) <==> name in EXTENSIONS && EXTENSIONS[name] == extension
  {
    hide PlainName;
    ImagesArePlain();
    OtherImagesArePlain();
    VideosArePlain();
    QuicktimeIsPlain();
  }

  lemma ImagesArePlain()
    ensures PlainName("image/jpeg") && PlainName("image/jpg") && PlainName("image/png")
  {
  }

  lemma OtherImagesArePlain()
    ensures PlainName("image/webp") && PlainName("image/heic") && PlainName("image/gif")
  {
  }

  lemma VideosArePlain()
    ensures PlainName("video/mp4") && PlainName("video/webm")
  {
  }

  lemma QuicktimeIsPlain()
    ensures PlainName("video/quicktime")
  {
  }
}
