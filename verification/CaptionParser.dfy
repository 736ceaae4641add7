/**
 * Hashtags and mentions in a caption. A caption is a sequence of code points; which of them are
 * word characters and how text is lower-cased are parameters, because the laws do not depend on it.
 */
module CaptionParser {
  import opened MetaTypes

  datatype EntityType = Hashtag | Mention

  datatype CaptionEntity = CaptionEntity(kind: EntityType, value: string)

  datatype Arrays = Arrays(hashtags: seq<string>, mentions: seq<string>)

  /** `word` is the class of letters, numbers, marks and underscore; `lower` is toLowerCase. */
  datatype Script = Script(word: char -> bool, lower: string -> string)

  const MAX_VALUE_LENGTH := 255
  const MAX_HANDLE_LENGTH := 30

  predicate HandleChar(c: char) {
    'A' <= c <= 'Z' || 'a' <= c <= 'z' || '0' <= c <= '9' || c == '.' || c == '_'
  }

  // ---------------------------------------------------------------- matchAll

  /** How far a greedy run of `ok` characters goes, at most `most` of them when that is given. */
  function Span(s: string, ok: char -> bool, most: Option<nat>): (n: nat)
    ensures n <= |s|
  {
    if s == "" || most == Some(0) || !ok(s[0]) then 0
    else 1 + Span(s[1..], ok, if most.Some? then Some(most.value - 1) else None)
  }

  /** The captures of a global match of a mark followed by one or more `ok` characters. */
  function Matches(s: string, mark: char, ok: char -> bool, most: Option<nat>): seq<string>
    decreases |s|
  {
    if s == "" then [] else
    var n := if s[0] == mark then Span(s[1..], ok, most) else 0;
    if n > 0 then [s[1..n + 1]] + Matches(s[n + 1..], mark, ok, most) else Matches(s[1..], mark, ok, most)
  }

  function HashtagMatches(s: string, script: Script): seq<string> {
    Matches(s, '#', script.word, None)
  }

  function MentionMatches(s: string): seq<string> {
    Matches(s, '@', HandleChar, Some(MAX_HANDLE_LENGTH))
  }

  // ---------------------------------------------------------------- values

  function Normalize(raw: string, script: Script): (r: string)
    ensures |r| <= MAX_VALUE_LENGTH
  {
    var lowered := script.lower(raw);
    if |lowered| > MAX_VALUE_LENGTH then lowered[..MAX_VALUE_LENGTH] else lowered
  }

  predicate AllDigits(s: string) {
    forall i :: 0 <= i < |s| ==> '0' <= s[i] <= '9'
  }

  function TrimDots(s: string): string {
    if s != "" && s[|s| - 1] == '.' then TrimDots(s[..|s| - 1]) else s
  }

  /** None for a match that is skipped: nothing left, or a digit-only tag. */
  function Value(kind: EntityType, captured: string, script: Script): Option<string> {
    var value := Normalize(if kind == Hashtag then captured else TrimDots(captured), script);
    if value == "" || (kind == Hashtag && AllDigits(value)) then None else Some(value)
  }

  function Values(kind: EntityType, captured: seq<string>, script: Script): seq<string> {
    if captured == [] then [] else
    var v := Value(kind, captured[|captured| - 1], script);
    Values(kind, captured[..|captured| - 1], script) + if v.Some? then [v.value] else []
  }

  /** First occurrences, in order. */
  function Distinct(values: seq<string>): seq<string> {
    if values == [] then [] else
    var rest := Distinct(values[..|values| - 1]);
    if values[|values| - 1] in rest then rest else rest + [values[|values| - 1]]
  }

  function Captured(kind: EntityType, caption: string, script: Script): seq<string> {
    if kind == Hashtag then HashtagMatches(caption, script) else MentionMatches(caption)
  }

  function Found(kind: EntityType, caption: string, script: Script): seq<string> {
    Distinct(Values(kind, Captured(kind, caption, script), script))
  }

  function Parsed(caption: string, script: Script): Arrays {
    Arrays(Found(Hashtag, caption, script), Found(Mention, caption, script))
  }

  function Tagged(kind: EntityType, values: seq<string>): seq<CaptionEntity> {
    seq(|values|, i requires 0 <= i < |values| => CaptionEntity(kind, values[i]))
  }

  // ---------------------------------------------------------------- the parser

  function Key(kind: EntityType, value: string): string {
    (if kind == Hashtag then "hashtag:" else "mention:") + value
  }

  lemma KeysAreDistinct(k: EntityType, v: string, l: EntityType, w: string)
    ensures Key(k, v) == Key(l, w) <==> k == l && v == w
  {
    if k == l {
      var n := |Key(k, "")|;
      assert Key(k, v)[n..] == v && Key(l, w)[n..] == w;
    } else {
      assert Key(k, v)[0] != Key(l, w)[0];
    }
  }

  lemma ValuesPush(kind: EntityType, captured: seq<string>, c: string, script: Script)
    ensures Values(kind, captured + [c], script)
            == Values(kind, captured, script)
               + if Value(kind, c, script).Some? then [Value(kind, c, script).value] else []
  {
    assert (captured + [c])[..|captured|] == captured;
  }

  lemma DistinctPush(values: seq<string>, v: string)
    ensures Distinct(values + [v]) == if v in Distinct(values) then Distinct(values) else Distinct(values) + [v]
  {
    assert (values + [v])[..|values|] == values;
  }

  function Keys(kind: EntityType, values: seq<string>): set<string> {
    set v | v in values :: Key(kind, v)
  }

  lemma KeysPush(kind: EntityType, values: seq<string>, v: string)
    ensures Keys(kind, values + [v]) == Keys(kind, values) + {Key(kind, v)}
    ensures Key(kind, v) in Keys(kind, values) <==> v in values
    ensures Tagged(kind, values + [v]) == Tagged(kind, values) + [CaptionEntity(kind, v)]
  {
    hide Key;
    forall w ensures Key(kind, w) == Key(kind, v) <==> w == v { KeysAreDistinct(kind, w, kind, v); }
    assert forall w :: w in values + [v] <==> w in values || w == v;
  }

  /** One pass over the matches of one kind, with the Set and the list the two passes share. */
  method Collect(kind: EntityType, caption: string, script: Script, seen0: set<string>, entities0: seq<CaptionEntity>)
    returns (seen: set<string>, entities: seq<CaptionEntity>)
    requires forall v :: Key(kind, v) !in seen0
    ensures entities == entities0 + Tagged(kind, Found(kind, caption, script))
    ensures seen == seen0 + Keys(kind, Found(kind, caption, script))
  {
    hide Key, Keys, Tagged, Value, Values, Distinct, Captured;
    seen, entities := seen0, entities0;
    var captured := Captured(kind, caption, script);
    NothingYet(kind, script);
    ghost var values: seq<string> := [];
    for k := 0 to |captured|
      invariant values == Values(kind, captured[..k], script)
      invariant entities == entities0 + Tagged(kind, Distinct(values))
      invariant seen == seen0 + Keys(kind, Distinct(values))
    {
      assert captured[..k + 1] == captured[..k] + [captured[k]];
      ValuesPush(kind, captured[..k], captured[k], script);
      var value := Value(kind, captured[k], script);
      if value.Some? {
        DistinctPush(values, value.value);
        KeysPush(kind, Distinct(values), value.value);
        if Key(kind, value.value) !in seen {
          seen := seen + {Key(kind, value.value)};
          entities := entities + [CaptionEntity(kind, value.value)];
        }
        values := values + [value.value];
      }
    }
    assert captured[..|captured|] == captured;
  }

  lemma NothingYet(kind: EntityType, script: Script)
    ensures Values(kind, [], script) == [] && Distinct([]) == [] && Tagged(kind, []) == [] && Keys(kind, []) == {}
  {
  }

  lemma KindsDoNotMix(values: seq<string>)
    ensures forall v :: Key(Mention, v) !in Keys(Hashtag, values)
  {
    hide Key;
    forall v, w ensures Key(Mention, v) != Key(Hashtag, w) { KeysAreDistinct(Mention, v, Hashtag, w); }
  }

  function Entities(arrays: Arrays): seq<CaptionEntity> {
    Tagged(Hashtag, arrays.hashtags) + Tagged(Mention, arrays.mentions)
  }

  method ParseCaptionEntities(caption: Option<string>, script: Script) returns (entities: seq<CaptionEntity>)
    ensures entities == if caption.None? then [] else Entities(Parsed(caption.value, script))
  {
    hide Key, Keys, Tagged, Found;
    if caption.None? || caption.value == "" {
      NothingFound(Hashtag, script);
      NothingFound(Mention, script);
      NothingYet(Hashtag, script);
      NothingYet(Mention, script);
      return [];
    }
    var seen;
    seen, entities := Collect(Hashtag, caption.value, script, {}, []);
    KindsDoNotMix(Found(Hashtag, caption.value, script));
    assert seen == Keys(Hashtag, Found(Hashtag, caption.value, script));
    seen, entities := Collect(Mention, caption.value, script, seen, entities);
  }

  // ---------------------------------------------------------------- laws of the scanner

  lemma {:induction false} SpanStops(a: string, x: char, b: string, ok: char -> bool, most: Option<nat>)
    requires !ok(x)
    ensures Span(a + [x] + b, ok, most) == Span(a, ok, most)
  {
    var all := a + [x] + b;
    if a != "" && most != Some(0) && ok(a[0]) {
      assert all[1..] == a[1..] + [x] + b;
      SpanStops(a[1..], x, b, ok, if most.Some? then Some(most.value - 1) else None);
    }
  }

  lemma FirstMatch(s: string, mark: char, ok: char -> bool, most: Option<nat>, n: nat)
    requires s != "" && n == if s[0] == mark then Span(s[1..], ok, most) else 0
    ensures n > 0 ==> Matches(s, mark, ok, most) == [s[1..n + 1]] + Matches(s[n + 1..], mark, ok, most)
    ensures n == 0 ==> Matches(s, mark, ok, most) == Matches(s[1..], mark, ok, most)
  {
  }

  /** A character that can neither start nor continue a match cuts the text in two. */
  lemma {:induction false} MatchesSplit(a: string, x: char, b: string, mark: char, ok: char -> bool, most: Option<nat>)
    requires !ok(x) && x != mark
    ensures Matches(a + [x] + b, mark, ok, most) == Matches(a, mark, ok, most) + Matches(b, mark, ok, most)
    decreases |a|
  {
    hide Matches, Span;
    var all := a + [x] + b;
    if a == "" {
      assert all[1..] == b;
      FirstMatch(all, mark, ok, most, 0);
      EmptyMatches(mark, ok, most);
    } else {
      var n := if a[0] == mark then Span(a[1..], ok, most) else 0;
      Cut(a, x, b, n);
      SpanStops(a[1..], x, b, ok, most);
      FirstMatch(a, mark, ok, most, n);
      FirstMatch(all, mark, ok, most, n);
      MatchesSplit(a[n + 1..], x, b, mark, ok, most);
    }
  }

  lemma EmptyMatches(mark: char, ok: char -> bool, most: Option<nat>)
    ensures Matches("", mark, ok, most) == []
  {
  }

  lemma Cut(a: string, x: char, b: string, n: nat)
    requires n < |a|
    ensures var all := a + [x] + b;
            all[0] == a[0] && all[1..] == a[1..] + [x] + b
            && all[1..n + 1] == a[1..n + 1] && all[n + 1..] == a[n + 1..] + [x] + b
  {
  }

  lemma {:induction false} ValuesSplit(kind: EntityType, a: seq<string>, b: seq<string>, script: Script)
    ensures Values(kind, a + b, script) == Values(kind, a, script) + Values(kind, b, script)
  {
    hide Value;
    if b == [] {
      assert a + b == a;
    } else {
      assert (a + b)[..|a + b| - 1] == a + b[..|b| - 1];
      ValuesSplit(kind, a, b[..|b| - 1], script);
    }
  }

  /** First occurrences are unaffected by deduplicating a part beforehand. */
  lemma {:induction false} DistinctAbsorbs(a: seq<string>, b: seq<string>)
    ensures Distinct(a + b) == Distinct(Distinct(a) + Distinct(b))
  {
    if b == [] {
      assert a + b == a && Distinct(a) + Distinct(b) == Distinct(a);
      DistinctOfDistinct(a);
    } else {
      var c, v := b[..|b| - 1], b[|b| - 1];
      assert (a + b)[..|a + b| - 1] == a + c;
      DistinctAbsorbs(a, c);
      HasSame(a);
      HasSame(c);
      HasSame(a + c);
      HasSame(Distinct(a) + Distinct(c));
      if v !in Distinct(c) {
        assert Distinct(a) + Distinct(b) == (Distinct(a) + Distinct(c)) + [v];
        DistinctPush(Distinct(a) + Distinct(c), v);
      } else {
        assert v in a + c;
      }
    }
  }

  lemma {:induction false} HasSame(a: seq<string>)
    ensures forall v :: v in Distinct(a) <==> v in a
  {
    if a != [] {
      HasSame(a[..|a| - 1]);
      assert a == a[..|a| - 1] + [a[|a| - 1]];
    }
  }

  predicate NoRepeats(a: seq<string>) {
    forall i, j :: 0 <= i < j < |a| ==> a[i] != a[j]
  }

  lemma {:induction false} DistinctHasNoRepeats(a: seq<string>)
    ensures NoRepeats(Distinct(a))
  {
    if a != [] { DistinctHasNoRepeats(a[..|a| - 1]); }
  }

  lemma {:induction false} DistinctKeeps(a: seq<string>)
    requires NoRepeats(a)
    ensures Distinct(a) == a
  {
    if a != [] {
      DistinctKeeps(a[..|a| - 1]);
      assert a == a[..|a| - 1] + [a[|a| - 1]];
    }
  }

  lemma DistinctOfDistinct(a: seq<string>)
    ensures Distinct(Distinct(a)) == Distinct(a)
  {
    DistinctHasNoRepeats(a);
    DistinctKeeps(Distinct(a));
  }

  // ---------------------------------------------------------------- laws of the parser

  /** Spaces, newlines and punctuation: what can be part of neither a tag nor a handle. */
  predicate Separates(x: char, script: Script) {
    !script.word(x) && !HandleChar(x) && x != '#' && x != '@'
  }

  /** Per kind, parsing joined captions is the first-occurrence union of parsing them apart. */
  lemma {:induction false} ParseDistributes(c1: string, x: char, c2: string, script: Script)
    requires Separates(x, script)
    ensures var whole, p, q := Parsed(c1 + [x] + c2, script), Parsed(c1, script), Parsed(c2, script);
            whole == Arrays(Distinct(p.hashtags + q.hashtags), Distinct(p.mentions + q.mentions))
  {
    FoundDistributes(Hashtag, c1, x, c2, script);
    FoundDistributes(Mention, c1, x, c2, script);
  }

  lemma {:induction false} FoundDistributes(kind: EntityType, c1: string, x: char, c2: string, script: Script)
    requires Separates(x, script)
    ensures Found(kind, c1 + [x] + c2, script) == Distinct(Found(kind, c1, script) + Found(kind, c2, script))
  {
    hide Matches, Values, Distinct;
    if kind == Hashtag {
      MatchesSplit(c1, x, c2, '#', script.word, None);
    } else {
      MatchesSplit(c1, x, c2, '@', HandleChar, Some(MAX_HANDLE_LENGTH));
    }
    ValuesSplit(kind, Captured(kind, c1, script), Captured(kind, c2, script), script);
    DistinctAbsorbs(Values(kind, Captured(kind, c1, script), script), Values(kind, Captured(kind, c2, script), script));
  }

  predicate FitsColumn(kind: EntityType, v: string) {
    0 < |v| <= MAX_VALUE_LENGTH && (kind == Hashtag ==> !AllDigits(v))
  }

  lemma {:induction false} ValuesFit(kind: EntityType, captured: seq<string>, script: Script)
    ensures forall v :: v in Values(kind, captured, script) ==> FitsColumn(kind, v)
  {
    if captured != [] { ValuesFit(kind, captured[..|captured| - 1], script); }
  }

  /** Nothing repeats, nothing is empty or too long for the column, and no tag is a bare number. */
  lemma {:induction false} FoundIsClean(kind: EntityType, caption: string, script: Script)
    ensures NoRepeats(Found(kind, caption, script))
    ensures forall v :: v in Found(kind, caption, script) ==> FitsColumn(kind, v)
  {
    hide Values, Distinct, FitsColumn, NoRepeats;
    var values := Values(kind, Captured(kind, caption, script), script);
    DistinctHasNoRepeats(values);
    HasSame(values);
    ValuesFit(kind, Captured(kind, caption, script), script);
  }

  // ---------------------------------------------------------------- printing

  function Print(e: CaptionEntity): string {
    (if e.kind == Hashtag then "#" else "@") + e.value
  }

  /** The entities, each written with its mark, separated by spaces. */
  function PrintAll(es: seq<CaptionEntity>): string {
    if es == [] then "" else
    (if |es| == 1 then "" else PrintAll(es[..|es| - 1]) + " ") + Print(es[|es| - 1])
  }

  /** A value as the parser itself would produce it. */
  predicate Normal(e: CaptionEntity, script: Script) {
    FitsColumn(e.kind, e.value) && script.lower(e.value) == e.value
    && if e.kind == Hashtag then forall i :: 0 <= i < |e.value| ==> script.word(e.value[i])
       else |e.value| <= MAX_HANDLE_LENGTH && (forall i :: 0 <= i < |e.value| ==> HandleChar(e.value[i]))
            && e.value[|e.value| - 1] != '.'
  }

  /** The marks and the space are not word characters. */
  predicate Sane(script: Script) {
    Separates(' ', script) && !script.word('#') && !script.word('@')
  }

  function ValuesOf(kind: EntityType, es: seq<CaptionEntity>): seq<string> {
    if es == [] then [] else
    var e := es[|es| - 1];
    ValuesOf(kind, es[..|es| - 1]) + if e.kind == kind then [e.value] else []
  }

  lemma {:induction false} SpanOfRun(s: string, ok: char -> bool, most: Option<nat>)
    requires forall i :: 0 <= i < |s| ==> ok(s[i])
    requires most.Some? ==> |s| <= most.value
    ensures Span(s, ok, most) == |s|
  {
    if s != "" { SpanOfRun(s[1..], ok, if most.Some? then Some(most.value - 1) else None); }
  }

  lemma {:induction false} MatchesOne(mark: char, v: string, ok: char -> bool, most: Option<nat>)
    requires v != "" && (forall i :: 0 <= i < |v| ==> ok(v[i])) && (most.Some? ==> |v| <= most.value)
    ensures Matches([mark] + v, mark, ok, most) == [v]
  {
    var s := [mark] + v;
    assert s[1..] == v && s[1..|v| + 1] == v && s[|v| + 1..] == "";
    SpanOfRun(v, ok, most);
    FirstMatch(s, mark, ok, most, |v|);
  }

  lemma {:induction false} NoMark(s: string, mark: char, ok: char -> bool, most: Option<nat>)
    requires forall i :: 0 <= i < |s| ==> s[i] != mark
    ensures Matches(s, mark, ok, most) == []
    decreases |s|
  {
    if s != "" { NoMark(s[1..], mark, ok, most); }
  }

  lemma {:induction false} ParseOne(e: CaptionEntity, kind: EntityType, script: Script)
    requires Sane(script) && Normal(e, script)
    ensures Found(kind, Print(e), script) == if e.kind == kind then [e.value] else []
  {
    hide Matches, Value;
    var s := Print(e);
    assert s[1..] == e.value;
    if e.kind == kind {
      if kind == Hashtag {
        MatchesOne('#', e.value, script.word, None);
      } else {
        MatchesOne('@', e.value, HandleChar, Some(MAX_HANDLE_LENGTH));
      }
      NormalIsKept(e, script);
      ValuesPush(kind, [], e.value, script);
      DistinctPush([], e.value);
      assert [] + [e.value] == [e.value];
    } else if kind == Hashtag {
      NoMark(s, '#', script.word, None);
    } else {
      NoMark(s, '@', HandleChar, Some(MAX_HANDLE_LENGTH));
    }
  }

  lemma NormalIsKept(e: CaptionEntity, script: Script)
    requires Normal(e, script)
    ensures Value(e.kind, e.value, script) == Some(e.value)
  {
  }

  /** Printed entities parse back to themselves, first occurrences per kind, whatever their order. */
  lemma {:induction false} ParsePrint(kind: EntityType, es: seq<CaptionEntity>, script: Script)
    requires Sane(script) && forall e :: e in es ==> Normal(e, script)
    ensures Found(kind, PrintAll(es), script) == Distinct(ValuesOf(kind, es))
  {
    hide Found, Normal, Print;
    if es == [] {
      NothingFound(kind, script);
    } else {
      var e, before := es[|es| - 1], es[..|es| - 1];
      ParseOne(e, kind, script);
      var last := if e.kind == kind then [e.value] else [];
      DistinctKeeps(last);
      if |es| == 1 {
        assert PrintAll(es) == Print(e);
        assert ValuesOf(kind, before) == [];
        assert ValuesOf(kind, es) == last;
      } else {
        ParsePrint(kind, before, script);
        FoundDistributes(kind, PrintAll(before), ' ', Print(e), script);
        DistinctAbsorbs(ValuesOf(kind, before), last);
      }
    }
  }

  lemma NothingFound(kind: EntityType, script: Script)
    ensures Found(kind, "", script) == []
  {
  }

  /** Distinct normal tags and mentions survive a print and a parse unchanged. */
  lemma {:induction false} RoundTrip(tags: seq<string>, mentions: seq<string>, script: Script)
    requires Sane(script) && NoRepeats(tags) && NoRepeats(mentions)
    requires forall v :: v in tags ==> Normal(CaptionEntity(Hashtag, v), script)
    requires forall v :: v in mentions ==> Normal(CaptionEntity(Mention, v), script)
    ensures Parsed(PrintAll(Tagged(Hashtag, tags) + Tagged(Mention, mentions)), script) == Arrays(tags, mentions)
  {
    hide Found, Normal, PrintAll;
    var es := Tagged(Hashtag, tags) + Tagged(Mention, mentions);
    ParsePrint(Hashtag, es, script);
    ParsePrint(Mention, es, script);
    ValuesOfTagged(tags, mentions);
    DistinctKeeps(tags);
    DistinctKeeps(mentions);
  }

  lemma {:induction false} ValuesOfTagged(tags: seq<string>, mentions: seq<string>)
    ensures ValuesOf(Hashtag, Tagged(Hashtag, tags) + Tagged(Mention, mentions)) == tags
    ensures ValuesOf(Mention, Tagged(Hashtag, tags) + Tagged(Mention, mentions)) == mentions
    decreases |tags| + |mentions|
  {
    var es := Tagged(Hashtag, tags) + Tagged(Mention, mentions);
    if mentions != [] {
      var fewer := mentions[..|mentions| - 1];
      assert es[..|es| - 1] == Tagged(Hashtag, tags) + Tagged(Mention, fewer);
      ValuesOfTagged(tags, fewer);
      assert mentions == fewer + [mentions[|mentions| - 1]];
    } else if tags != [] {
      var fewer := tags[..|tags| - 1];
      assert es[..|es| - 1] == Tagged(Hashtag, fewer) + Tagged(Mention, mentions);
      ValuesOfTagged(fewer, mentions);
      assert tags == fewer + [tags[|tags| - 1]];
    }
  }

  // ---------------------------------------------------------------- what a match is worth

  /** By code point: the digits, both cases of the Latin letters, the dot and the underscore. */
  predicate InHandle(code: int) {
    48 <= code <= 57 || 65 <= code <= 90 || 97 <= code <= 122 || code == 46 || code == 95
  }

  /** A mention ends at the first character that is none of these. */
  lemma {:induction false} MentionEnds(run: string, x: char, rest: string, script: Script)
    requires 1 <= |run| <= 30 && (forall i :: 0 <= i < |run| ==> InHandle(run[i] as int)) && !InHandle(x as int)
    ensures Captured(Mention, "@" + run + [x] + rest, script) == [run] + Captured(Mention, [x] + rest, script)
  {
    hide Matches, Span;
    var s := "@" + run + [x] + rest;
    assert s[1..] == run + [x] + rest && s[1..|run| + 1] == run && s[|run| + 1..] == [x] + rest;
    SpanStops(run, x, rest, HandleChar, Some(30));
    SpanOfRun(run, HandleChar, Some(30));
    FirstMatch(s, '@', HandleChar, Some(30), |run|);
  }

  lemma {:induction false} DotsAreTrimmed(handle: string, dots: string)
    requires (forall i :: 0 <= i < |dots| ==> dots[i] == '.') && (handle == "" || handle[|handle| - 1] != '.')
    ensures TrimDots(handle + dots) == handle
  {
    if dots == "" {
      assert handle + dots == handle;
    } else {
      assert (handle + dots)[..|handle + dots| - 1] == handle + dots[..|dots| - 1];
      DotsAreTrimmed(handle, dots[..|dots| - 1]);
    }
  }

  lemma OneValue(kind: EntityType, captured: string, script: Script)
    ensures Distinct(Values(kind, [captured], script))
            == if Value(kind, captured, script).Some? then [Value(kind, captured, script).value] else []
  {
    hide Value;
    ValuesPush(kind, [], captured, script);
    assert [] + [captured] == [captured];
    if Value(kind, captured, script).Some? {
      DistinctPush([], Value(kind, captured, script).value);
      assert [] + [Value(kind, captured, script).value] == [Value(kind, captured, script).value];
    }
  }

  /** The first 255 characters, which is what the column holds. */
  predicate CutTo255(v: string, s: string) {
    v <= s && |v| == if |s| <= 255 then |s| else 255
  }

  lemma CutIsNormal(raw: string, v: string, script: Script)
    requires CutTo255(v, script.lower(raw))
    ensures Normalize(raw, script) == v
  {
  }

  /**
   * A run of word characters after the mark is one tag, lower-cased and cut to the column. It is
   * dropped when that leaves only digits, or nothing.
   */
  lemma {:induction false} LoneTag(run: string, v: string, script: Script)
    requires Sane(script) && run != "" && forall i :: 0 <= i < |run| ==> script.word(run[i])
    requires CutTo255(v, script.lower(run))
    ensures Found(Hashtag, "#" + run, script)
            == if forall i :: 0 <= i < |v| ==> '0' <= v[i] <= '9' then [] else [v]
  {
    hide Matches, Values, Distinct;
    assert "#" + run == ['#'] + run;
    MatchesOne('#', run, script.word, None);
    OneValue(Hashtag, run, script);
    CutIsNormal(run, v, script);
  }

  /**
   * A run of up to thirty handle characters after the mark is one mention: the dots that end it are
   * sentence punctuation and go, the rest is lower-cased and cut to the column. Digits alone are a
   * handle; dots alone are not.
   */
  lemma {:induction false} LoneMention(handle: string, dots: string, v: string, script: Script)
    requires 1 <= |handle + dots| <= 30 && forall i :: 0 <= i < |handle + dots| ==> InHandle((handle + dots)[i] as int)
    requires forall i :: 0 <= i < |dots| ==> dots[i] == '.'
    requires handle == "" || handle[|handle| - 1] != '.'
    requires CutTo255(v, script.lower(handle))
    ensures Found(Mention, "@" + handle + dots, script) == if v == "" then [] else [v]
  {
    hide Matches, Values, Distinct, TrimDots;
    assert "@" + handle + dots == ['@'] + (handle + dots);
    MatchesOne('@', handle + dots, HandleChar, Some(MAX_HANDLE_LENGTH));
    OneValue(Mention, handle + dots, script);
    DotsAreTrimmed(handle, dots);
    CutIsNormal(handle, v, script);
  }

  lemma {:induction false} SpanIsCapped(s: string, ok: char -> bool, most: nat)
    requires |s| >= most && forall i :: 0 <= i < |s| ==> ok(s[i])
    ensures Span(s, ok, Some(most)) == most
  {
    if most > 0 { SpanIsCapped(s[1..], ok, most - 1); }
  }

  /** A longer run of handle characters is cut at thirty, and the rest of it is no mention. */
  lemma {:induction false} LongMentionIsCut(run: string, script: Script)
    requires |run| >= 30 && forall i :: 0 <= i < |run| ==> InHandle(run[i] as int)
    ensures Captured(Mention, "@" + run, script) == [run[..30]]
  {
    hide Matches, Span;
    var s := "@" + run;
    assert s[1..] == run && s[1..31] == run[..30] && s[31..] == run[30..];
    SpanIsCapped(run, HandleChar, 30);
    FirstMatch(s, '@', HandleChar, Some(30), 30);
    NoMark(run[30..], '@', HandleChar, Some(30));
  }

  /** Position i holds the first occurrence of its value. */
  predicate IsFirst(values: seq<string>, i: nat) {
    i < |values| && forall j :: 0 <= j < i ==> values[j] != values[i]
  }

  /** What is kept is kept in the order of first occurrences. */
  lemma {:induction false} FirstsAreInOrder(values: seq<string>, i: nat, j: nat)
    requires IsFirst(values, i) && IsFirst(values, j) && i < j
    ensures exists a, b :: 0 <= a < b < |Distinct(values)| && Distinct(values)[a] == values[i]
                           && Distinct(values)[b] == values[j]
  {
    var n := |values| - 1;
    var before := values[..n];
    HasSame(before);
    HasSame(values);
    if j < n {
      FirstsAreInOrder(before, i, j);
      var a, b :| 0 <= a < b < |Distinct(before)|
                  && Distinct(before)[a] == before[i] && Distinct(before)[b] == before[j];
      assert Distinct(values)[a] == values[i] && Distinct(values)[b] == values[j];
    } else {
      assert before[i] == values[i];
      assert values[i] in Distinct(before);
      var a :| 0 <= a < |Distinct(before)| && Distinct(before)[a] == values[i];
      assert values[n] !in before;
      assert Distinct(values)[a] == values[i] && Distinct(values)[|Distinct(before)|] == values[j];
    }
  }

  /** Two tags need nothing between them, and a mark alone starts none. */
  lemma {:induction false} TagsCanTouch(a: string, b: string, script: Script)
    requires Sane(script) && a != "" && b != ""
    requires forall i :: 0 <= i < |a| ==> script.word(a[i])
    requires forall i :: 0 <= i < |b| ==> script.word(b[i])
    ensures Captured(Hashtag, "##" + a + "#" + b, script) == [a, b]
  {
    hide Matches, Span;
    var ok := script.word;
    var s := "##" + a + "#" + b;
    var t := "#" + a + "#" + b;
    assert s[1..] == t && t[0] == '#' && t[1..] == a + ['#'] + b;
    SpanStops("", '#', a + ['#'] + b, ok, None);
    assert "" + ['#'] + (a + ['#'] + b) == t;
    SpanOfNothing(ok);
    FirstMatch(s, '#', ok, None, 0);
    SpanStops(a, '#', b, ok, None);
    SpanOfRun(a, ok, None);
    FirstMatch(t, '#', ok, None, |a|);
    assert t[1..|a| + 1] == a && t[|a| + 1..] == ['#'] + b;
    MatchesOne('#', b, ok, None);
  }

  lemma SpanOfNothing(ok: char -> bool)
    ensures Span("", ok, None) == 0
  {
  }

  /** The two array columns: the entity list filtered by kind. */
  method ParseCaptionArrays(caption: Option<string>, script: Script) returns (r: Arrays)
    ensures r == if caption.None? then Arrays([], []) else Parsed(caption.value, script)
  {
    hide Tagged, Found;
    var entities := ParseCaptionEntities(caption, script);
    r := Arrays(ValuesOf(Hashtag, entities), ValuesOf(Mention, entities));
    if caption.Some? {
      ValuesOfTagged(Parsed(caption.value, script).hashtags, Parsed(caption.value, script).mentions);
    }
  }
}
