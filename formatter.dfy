/**
 * The mrkdwn helpers of src/Formatter.php: `escape` and `sub` (both
 * `strtr` over a table of replacements), the inline markers `bold`,
 * `italic`, `strike` and `code`, `link`, the block helpers `codeBlock`,
 * `blockQuote`, `bulletedList` and `numberedList`, and the `lines` and
 * `explode` they are built on.
 *
 * Each helper is paired with the reading a client makes of its output:
 * `Unescape` undoes `escape`, `ReadLink` reads a link back, `Split` (the
 * `explode` on "\n") undoes `Join` (the `implode` with "\n").
 */
module Formatting {
  import opened Outcomes
  import opened Wire

  // strtr

  /**
   * The key `strtr` replaces at the start of `text`: the longest non-empty
   * key of the table that starts it, the first of equals, with its
   * replacement.
   */
  function LongestMatch(text: string, table: Dict<string>): (r: Option<Entry<string>>)
    ensures r.Some? ==> HasKey(table, r.value.key) && r.value.key.Name?
    ensures r.Some? ==> r.value.key.s != [] && r.value.key.s <= text
    decreases |table|
  {
    if table == [] then None
    else
      var rest := LongestMatch(text, table[1..]);
      var k := table[0].key;
      assert Keys(table) == [k] + Keys(table[1..]);
      if k.Name? && k.s != [] && k.s <= text && (rest.None? || |k.s| >= |rest.value.key.s|) then Some(table[0])
      else rest
  }

  /**
   * `strtr($text, $table)`: one pass from left to right; where a key starts,
   * the longest one is replaced and the scan resumes after it, so what a
   * replacement writes is never looked at again.
   */
  function Strtr(text: string, table: Dict<string>): (r: string)
    decreases |text|
  {
    if text == [] then []
    else
      match LongestMatch(text, table)
      case Some(e) => e.val + Strtr(text[|e.key.s|..], table)
      case None => [text[0]] + Strtr(text[1..], table)
  }

  // escape

  /** One character as `escape` writes it. */
  function EscapeChar(c: char): string {
    if c == '&' then "&amp;" else if c == '<' then "&lt;" else if c == '>' then "&gt;" else [c]
  }

  /** A string free of the three characters `escape` replaces. */
  predicate Plain(s: string) {
    forall i :: 0 <= i < |s| ==> s[i] != '&' && s[i] != '<' && s[i] != '>'
  }

  /**
   * Escaping character by character. The result holds no angle bracket,
   * holds a bar exactly when the input does, and is the input itself when
   * the input is plain.
   */
  function CharEscaped(s: string): (r: string)
    ensures '<' !in r && '>' !in r
    ensures '|' in r <==> '|' in s
    ensures Plain(s) ==> r == s
    decreases |s|
  {
    if s == [] then []
    else
      assert s == [s[0]] + s[1..];
      assert Plain(s) ==> Plain(s[1..]);
      EscapeChar(s[0]) + CharEscaped(s[1..])
  }

  /** The table `escape` hands to `strtr`. */
  const ESCAPES: Dict<string> := [Entry(Name("&"), "&amp;"), Entry(Name("<"), "&lt;"), Entry(Name(">"), "&gt;")]

  /**
   * `escape`: `strtr` with the table above, which, its keys being single
   * characters, replaces character by character.
   */
  function Escape(s: string): (r: string)
    ensures r == CharEscaped(s)
  {
    EscapeIsCharwise(s);
    Strtr(s, ESCAPES)
  }

  /** Which entry of the escape table starts a non-empty string, if any. */
  lemma EscapeMatch(s: string)
    requires s != []
    ensures LongestMatch(s, ESCAPES) == if s[0] == '&' then Some(ESCAPES[0]) else if s[0] == '<' then Some(ESCAPES[1]) else if s[0] == '>' then Some(ESCAPES[2]) else None
  {
    assert ESCAPES[1..][1..] == ESCAPES[2..] && ESCAPES[2..][1..] == [];
    assert "&" <= s <==> s[0] == '&';
    assert "<" <= s <==> s[0] == '<';
    assert ">" <= s <==> s[0] == '>';
    var third := LongestMatch(s, ESCAPES[2..]);
    assert third == if s[0] == '>' then Some(ESCAPES[2]) else None;
    var second := LongestMatch(s, ESCAPES[1..]);
    assert second == if s[0] == '<' then Some(ESCAPES[1]) else third;
  }

  lemma {:induction false} EscapeIsCharwise(s: string)
    ensures Strtr(s, ESCAPES) == CharEscaped(s)
    decreases |s|
  {
    if s != [] {
      EscapeMatch(s);
      EscapeIsCharwise(s[1..]);
    }
  }

  /** How a reader decodes the three entities `escape` writes. */
  function Unescape(s: string): string
    decreases |s|
  {
    if s == [] then []
    else if |s| >= 5 && s[..5] == "&amp;" then "&" + Unescape(s[5..])
    else if |s| >= 4 && s[..4] == "&lt;" then "<" + Unescape(s[4..])
    else if |s| >= 4 && s[..4] == "&gt;" then ">" + Unescape(s[4..])
    else [s[0]] + Unescape(s[1..])
  }

  lemma UnescapeAmp(e: string)
    ensures Unescape("&amp;" + e) == "&" + Unescape(e)
  {
    var t := "&amp;" + e;
    assert t[..5] == "&amp;" && t[5..] == e;
  }

  lemma UnescapeLt(e: string)
    ensures Unescape("&lt;" + e) == "<" + Unescape(e)
  {
    var t := "&lt;" + e;
    assert t[1] == 'l';
    assert t[..4] == "&lt;" && t[4..] == e;
  }

  lemma UnescapeGt(e: string)
    ensures Unescape("&gt;" + e) == ">" + Unescape(e)
  {
    var t := "&gt;" + e;
    assert t[1] == 'g';
    assert t[..4] == "&gt;" && t[4..] == e;
  }

  lemma UnescapeOther(c: char, e: string)
    requires c != '&'
    ensures Unescape([c] + e) == [c] + Unescape(e)
  {
    var t := [c] + e;
    assert t[0] == c && t[1..] == e;
  }

  /** Decoding one escaped character, then the rest. */
  lemma UnescapeChar(c: char, e: string)
    ensures Unescape(EscapeChar(c) + e) == [c] + Unescape(e)
  {
    if c == '&' {
      UnescapeAmp(e);
    } else if c == '<' {
      UnescapeLt(e);
    } else if c == '>' {
      UnescapeGt(e);
    } else {
      UnescapeOther(c, e);
    }
  }

  /** Escaping loses nothing: decoding the entities gives back the input. */
  lemma {:induction false} UnescapeEscape(s: string)
    ensures Unescape(Escape(s)) == s
    decreases |s|
  {
    if s != [] {
      UnescapeEscape(s[1..]);
      UnescapeChar(s[0], Escape(s[1..]));
      assert s == [s[0]] + s[1..];
    }
  }

  // sub

  /** A key in braces. */
  predicate Braced(p: string) {
    |p| >= 2 && p[0] == '{' && p[|p| - 1] == '}'
  }

  /** A key in braces with no closing brace inside. */
  predicate Pattern(p: string) {
    Braced(p) && '}' !in p[1..|p| - 1]
  }

  /** `"{{$key}}"`: the placeholder `sub` replaces for a key. */
  function Placeholder(k: Key): (p: string)
    ensures Braced(p) && p[1..|p| - 1] == KeyText(k)
    ensures '}' !in KeyText(k) ==> Pattern(p)
  {
    var p := "{" + KeyText(k) + "}";
    assert p[1..|p| - 1] == KeyText(k);
    p
  }

  /** A table whose every key is a placeholder. */
  ghost predicate AllBraced(table: Dict<string>) {
    forall k :: HasKey(table, k) ==> k.Name? && Braced(k.s)
  }

  /** A table whose every key is a placeholder with no closing brace inside. */
  ghost predicate AllPatterns(table: Dict<string>) {
    forall k :: HasKey(table, k) ==> k.Name? && Pattern(k.s)
  }

  /** Values none of whose keys holds a closing brace. */
  predicate NoClosingBrace(values: Dict<string>) {
    forall i :: 0 <= i < |values| ==> '}' !in KeyText(values[i].key)
  }

  /** Values whose keys read as different strings, as PHP's array keys always do. */
  predicate TextsDistinct(values: Dict<string>) {
    forall i, j :: 0 <= i < j < |values| ==> KeyText(values[i].key) != KeyText(values[j].key)
  }

  /**
   * The table the `foreach` of `sub` builds, in the order of the values;
   * every key of it is a placeholder.
   */
  function Replacements(values: Dict<string>): (r: Dict<string>)
    ensures AllBraced(r)
    ensures NoClosingBrace(values) ==> AllPatterns(r)
    decreases |values|
  {
    if values == [] then []
    else
      var init := values[..|values| - 1];
      var last := values[|values| - 1];
      assert forall i :: 0 <= i < |init| ==> init[i] == values[i];
      PutPlaceholder(Replacements(init), last.key, last.val);
      Put(Replacements(init), Name(Placeholder(last.key)), last.val)
  }

  /** Writing a placeholder keeps every key of the table a placeholder. */
  lemma PutPlaceholder(table: Dict<string>, k: Key, v: string)
    requires AllBraced(table)
    ensures AllBraced(Put(table, Name(Placeholder(k)), v))
    ensures AllPatterns(table) && '}' !in KeyText(k) ==> AllPatterns(Put(table, Name(Placeholder(k)), v))
  {
    forall k' | HasKey(Put(table, Name(Placeholder(k)), v), k')
      ensures HasKey(table, k') || k' == Name(Placeholder(k))
    {
      PutHasKey(table, Name(Placeholder(k)), v, k');
    }
  }

  lemma PlaceholdersDiffer(k: Key, k': Key)
    requires KeyText(k) != KeyText(k')
    ensures Name(Placeholder(k)) != Name(Placeholder(k'))
  {
    var p, p' := Placeholder(k), Placeholder(k');
    assert p[1..|p| - 1] != p'[1..|p'| - 1];
  }

  /** Each value stands in the table under its key's placeholder. */
  lemma {:induction false} ReplacementOf(values: Dict<string>, i: nat)
    requires TextsDistinct(values) && i < |values|
    ensures Lookup(Replacements(values), Name(Placeholder(values[i].key))) == Some(values[i].val)
    decreases |values|
  {
    var n := |values| - 1;
    var init := values[..n];
    var last := values[n];
    PutLookupAll(Replacements(init), Name(Placeholder(last.key)), last.val);
    if i < n {
      assert init[i] == values[i];
      assert TextsDistinct(init) by {
        assert forall j :: 0 <= j < |init| ==> init[j] == values[j];
      }
      ReplacementOf(init, i);
      PlaceholdersDiffer(values[i].key, last.key);
    }
  }

  /** `sub`: `strtr` over the placeholders of the values; a text without an opening brace comes out unchanged. */
  function Sub(text: string, values: Dict<string>): (r: string)
    ensures '{' !in text ==> r == text
  {
    if '{' !in text then StrtrUntouched(text, Replacements(values)); Strtr(text, Replacements(values))
    else Strtr(text, Replacements(values))
  }

  lemma ReplacementsStep(values: Dict<string>, i: nat)
    requires i < |values|
    ensures Replacements(values[..i + 1]) == Put(Replacements(values[..i]), Name(Placeholder(values[i].key)), values[i].val)
  {
    var w := values[..i + 1];
    assert w != [] && w[..|w| - 1] == values[..i] && w[|w| - 1] == values[i];
  }

  /** `sub` as written: the `foreach` that builds the table, then `strtr`. */
  method Substitute(text: string, values: Dict<string>) returns (r: string)
    ensures r == Sub(text, values)
  {
    var table: Dict<string> := [];
    var i := 0;
    while i < |values|
      invariant 0 <= i <= |values|
      invariant table == Replacements(values[..i])
    {
      ReplacementsStep(values, i);
      table := Put(table, Name(Placeholder(values[i].key)), values[i].val);
      i := i + 1;
    }
    assert values[..|values|] == values;
    r := Strtr(text, table);
  }

  /** Two placeholders without an inner closing brace that both start a text are the same. */
  lemma PatternsStartOnce(a: string, b: string, text: string)
    requires Pattern(a) && Pattern(b) && a <= text && b <= text
    ensures a == b
  {
    if |a| == |b| {
      assert a == text[..|a|] == b;
    }
  }

  /** Where a placeholder of the table starts the text, `strtr` picks it. */
  lemma {:induction false} MatchOfPattern(text: string, table: Dict<string>, p: string, v: string)
    requires AllPatterns(table) && Pattern(p) && p <= text
    requires Lookup(table, Name(p)) == Some(v)
    ensures LongestMatch(text, table) == Some(Entry(Name(p), v))
    decreases |table|
  {
    var k := table[0].key;
    assert Keys(table) == [k] + Keys(table[1..]);
    assert AllPatterns(table[1..]);
    var rest := LongestMatch(text, table[1..]);
    if k == Name(p) {
      if rest.Some? {
        PatternsStartOnce(rest.value.key.s, p, text);
      }
    } else {
      MatchOfPattern(text, table[1..], p, v);
      if k.s <= text {
        PatternsStartOnce(k.s, p, text);
      }
    }
  }

  /**
   * `sub` replaces a placeholder by its value, and carries on after it,
   * when no key holds a closing brace (otherwise a longer placeholder
   * may win).
   */
  lemma SubReplaces(values: Dict<string>, i: nat, rest: string)
    requires TextsDistinct(values) && NoClosingBrace(values) && i < |values|
    ensures Sub(Placeholder(values[i].key) + rest, values) == values[i].val + Sub(rest, values)
  {
    var p := Placeholder(values[i].key);
    var text := p + rest;
    ReplacementOf(values, i);
    assert p <= text;
    MatchOfPattern(text, Replacements(values), p, values[i].val);
    assert text[|p|..] == rest;
  }

  lemma {:induction false} StrtrUntouched(text: string, table: Dict<string>)
    requires AllBraced(table) && '{' !in text
    ensures Strtr(text, table) == text
    decreases |text|
  {
    if text != [] {
      var m := LongestMatch(text, table);
      assert text[0] != '{';
      assert m.None?;
      assert '{' !in text[1..];
      StrtrUntouched(text[1..], table);
    }
  }


  // Inline markers and links

  /**
   * The text between two markers, as `bold` ('*'), `italic` ('_') and
   * `strike` ('~') write it: the text is what lies between them.
   */
  function Wrap(marker: char, text: string): (r: string)
    ensures |r| == |text| + 2 && r[0] == marker && r[|r| - 1] == marker
    ensures r[1..|r| - 1] == text
  {
    [marker] + text + [marker]
  }

  /** `bold`: the text between two '*', from which it reads back. */
  function Bold(text: string): (r: string)
    ensures |r| == |text| + 2 && r[0] == '*' && r[|r| - 1] == '*'
    ensures r[1..|r| - 1] == text
  {
    Wrap('*', text)
  }

  /** `italic`: the text between two '_', from which it reads back. */
  function Italic(text: string): (r: string)
    ensures |r| == |text| + 2 && r[0] == '_' && r[|r| - 1] == '_'
    ensures r[1..|r| - 1] == text
  {
    Wrap('_', text)
  }

  /** `strike`: the text between two '~', from which it reads back. */
  function Strike(text: string): (r: string)
    ensures |r| == |text| + 2 && r[0] == '~' && r[|r| - 1] == '~'
    ensures r[1..|r| - 1] == text
  {
    Wrap('~', text)
  }

  /** `code`: the escaped text in backticks, from which the text reads back. */
  function Code(text: string): (r: string)
    ensures |r| >= 2 && r[0] == '`' && r[|r| - 1] == '`'
    ensures '<' !in r && '>' !in r
    ensures Unescape(r[1..|r| - 1]) == text
  {
    UnescapeEscape(text);
    Wrap('`', Escape(text))
  }

  /** `codeBlock`: the escaped text between fence lines, from which the text reads back. */
  function CodeBlock(text: string): (r: string)
    ensures |r| >= 8 && r[..4] == "```\n" && r[|r| - 4..] == "\n```"
    ensures Unescape(r[4..|r| - 4]) == text
  {
    UnescapeEscape(text);
    var r := "```\n" + Escape(text) + "\n```";
    assert r[..4] == "```\n" && r[|r| - 4..] == "\n```" && r[4..|r| - 4] == Escape(text);
    r
  }

  /**
   * `link`: the escaped url, then a bar and the escaped text when the text
   * is set, in angle brackets; no other angle bracket appears, so neither
   * part can close the link early.
   */
  function Link(url: string, text: Option<string>): (r: string)
    ensures |r| >= 2 && r[0] == '<' && r[|r| - 1] == '>'
    ensures '<' !in r[1..|r| - 1] && '>' !in r[1..|r| - 1]
  {
    var inner := if text.Some? then Escape(url) + "|" + Escape(text.value) else Escape(url);
    assert '<' !in inner && '>' !in inner;
    var r := "<" + inner + ">";
    assert r[1..|r| - 1] == inner;
    r
  }

  /** The part before the first bar, and the part after it if there is one. */
  function SplitAtBar(s: string): (string, Option<string>)
    decreases |s|
  {
    if s == [] then ([], None)
    else if s[0] == '|' then ([], Some(s[1..]))
    else
      var (a, b) := SplitAtBar(s[1..]);
      ([s[0]] + a, b)
  }

  lemma {:induction false} SplitAtFirstBar(a: string, b: Option<string>)
    requires '|' !in a
    ensures SplitAtBar(if b.Some? then a + "|" + b.value else a) == (a, b)
    decreases |a|
  {
    if a != [] {
      var s := if b.Some? then a + "|" + b.value else a;
      var s' := if b.Some? then a[1..] + "|" + b.value else a[1..];
      assert s[0] == a[0] && s[1..] == s';
      assert a == [a[0]] + a[1..];
      assert '|' !in a[1..];
      SplitAtFirstBar(a[1..], b);
    } else if b.Some? {
      assert (a + "|" + b.value)[1..] == b.value;
    }
  }

  /** How a client reads a link: the url, and the text when a bar follows it. */
  function ReadLink(s: string): Option<(string, Option<string>)> {
    if |s| < 2 || s[0] != '<' || s[|s| - 1] != '>' then None
    else
      var (target, caption) := SplitAtBar(s[1..|s| - 1]);
      Some((Unescape(target), if caption.Some? then Some(Unescape(caption.value)) else None))
  }

  /** A link whose url holds no bar reads back as its url and text. */
  lemma LinkReadsBack(url: string, text: Option<string>)
    requires '|' !in url
    ensures ReadLink(Link(url, text)) == Some((url, text))
  {
    var l := Link(url, text);
    var caption := if text.Some? then Some(Escape(text.value)) else None;
    var inner := if text.Some? then Escape(url) + "|" + Escape(text.value) else Escape(url);
    assert l[1..|l| - 1] == inner;
    SplitAtFirstBar(Escape(url), caption);
    UnescapeEscape(url);
    if text.Some? {
      UnescapeEscape(text.value);
    }
  }

  // explode and implode

  /** `explode("\n", $s)`: the pieces between line breaks, at least one. */
  function Split(s: string): (r: seq<string>)
    ensures |r| >= 1
    ensures forall i :: 0 <= i < |r| ==> '\n' !in r[i]
    decreases |s|
  {
    if s == [] then [""]
    else
      var rest := Split(s[1..]);
      if s[0] == '\n' then [""] + rest
      else
        var r := [[s[0]] + rest[0]] + rest[1..];
        assert forall i :: 1 <= i < |r| ==> r[i] == rest[i];
        r
  }

  /** `implode("\n", $xs)`. */
  function Join(xs: seq<string>): string
    decreases |xs|
  {
    if xs == [] then "" else if |xs| == 1 then xs[0] else xs[0] + "\n" + Join(xs[1..])
  }

  /** Joining the pieces gives back the string. */
  lemma {:induction false} JoinSplit(s: string)
    ensures Join(Split(s)) == s
    decreases |s|
  {
    if s != [] {
      var rest := Split(s[1..]);
      JoinSplit(s[1..]);
      assert s == [s[0]] + s[1..];
      if s[0] != '\n' && |rest| > 1 {
        var r := Split(s);
        assert r[1..] == rest[1..];
      }
    }
  }

  lemma {:induction false} SplitAfterLine(a: string, s: string)
    requires '\n' !in a
    ensures Split(a + s) == [a + Split(s)[0]] + Split(s)[1..]
    decreases |a|
  {
    if a != [] {
      assert (a + s)[0] == a[0] && (a + s)[1..] == a[1..] + s;
      assert '\n' !in a[1..];
      SplitAfterLine(a[1..], s);
      assert [a[0]] + (a[1..] + Split(s)[0]) == a + Split(s)[0];
    } else {
      assert a + s == s && a + Split(s)[0] == Split(s)[0];
      assert Split(s) == [Split(s)[0]] + Split(s)[1..];
    }
  }

  /** Splitting joined lines that hold no line break gives back the lines. */
  lemma {:induction false} SplitJoin(xs: seq<string>)
    requires |xs| >= 1 && forall i :: 0 <= i < |xs| ==> '\n' !in xs[i]
    ensures Split(Join(xs)) == xs
    decreases |xs|
  {
    if |xs| == 1 {
      SplitAfterLine(xs[0], "");
      assert xs[0] + "" == xs[0];
    } else {
      var tail := Join(xs[1..]);
      SplitJoin(xs[1..]);
      assert xs[0] + "\n" + tail == xs[0] + ("\n" + tail);
      SplitAfterLine(xs[0], "\n" + tail);
      assert ("\n" + tail)[1..] == tail;
      assert xs[0] + "" == xs[0];
      assert xs == [xs[0]] + xs[1..];
    }
  }

  /** What the list helpers accept: a string of lines, an array of them, or anything else. */
  datatype Items = ItemText(text: string) | ItemArray(lines: seq<string>) | OtherItems

  /** `explode`: a string is split on line breaks, an array passes through, anything else is refused. */
  function Explode(items: Items): (r: Result<seq<string>>)
    ensures r.Err? <==> items.OtherItems?
    ensures r.Err? ==> r.error == InvalidItems
    ensures items.ItemText? ==> r.Ok? && Join(r.value) == items.text
  {
    match items
    case ItemText(s) => JoinSplit(s); Ok(Split(s))
    case ItemArray(ls) => Ok(ls)
    case OtherItems => Err(InvalidItems)
  }

  // lines

  /**
   * The prefix `lines` is given: none, a string, a callable (which may
   * depend on how many lines it has seen, as the one of `numberedList`
   * does, so it is given the position), or a value of another kind.
   */
  datatype Prefix = NoPrefix | Fixed(p: string) | Each(f: (nat, string) -> string) | NotCallable

  /** The line at position i after the prefix. */
  function PrefixLine(prefix: Prefix, i: nat, line: string): string {
    match prefix
    case Fixed(p) => p + line
    case Each(f) => f(i, line)
    case _ => line
  }

  /** The `array_map` of `lines`. */
  function Prefixed(lines: seq<string>, prefix: Prefix): (r: seq<string>)
    ensures |r| == |lines|
    ensures forall i :: 0 <= i < |lines| ==> r[i] == PrefixLine(prefix, i, lines[i])
  {
    seq(|lines|, i requires 0 <= i < |lines| => PrefixLine(prefix, i, lines[i]))
  }

  /** The `array_filter` of `lines`: the non-empty lines, in order. */
  function NonEmpty(xs: seq<string>): (r: seq<string>)
    ensures forall x :: x in r <==> x in xs && x != ""
    ensures (forall i :: 0 <= i < |xs| ==> xs[i] != "") ==> r == xs
    decreases |xs|
  {
    if xs == [] then []
    else
      assert xs == [xs[0]] + xs[1..];
      if xs[0] == "" then NonEmpty(xs[1..]) else [xs[0]] + NonEmpty(xs[1..])
  }

  /** Filtering keeps a single line exactly when it is not empty. */
  lemma NonEmptySingle(x: string)
    ensures NonEmpty([x]) == if x == "" then [] else [x]
  {
    assert [x][1..] == [];
  }

  /** Filtering works line by line: it keeps the order and every copy of a kept line. */
  lemma {:induction false} NonEmptyAppend(a: seq<string>, b: seq<string>)
    ensures NonEmpty(a + b) == NonEmpty(a) + NonEmpty(b)
    decreases |a|
  {
    if a == [] {
      assert a + b == b;
    } else {
      assert (a + b)[0] == a[0];
      assert (a + b)[1..] == a[1..] + b;
      NonEmptyAppend(a[1..], b);
    }
  }

  /** The lines `lines` keeps: all of them, or the non-empty ones when filtering. */
  function Kept(lines: seq<string>, prefix: Prefix, filter: bool): seq<string> {
    if filter then NonEmpty(Prefixed(lines, prefix)) else Prefixed(lines, prefix)
  }

  /**
   * `lines`: refused for a prefix that is neither a string nor a callable;
   * otherwise the kept lines, joined, and a final line break.
   */
  function Lines(lines: seq<string>, prefix: Prefix, filter: bool): (r: Result<string>)
    ensures r.Err? <==> prefix.NotCallable?
    ensures r.Err? ==> r.error == InvalidPrefix
    ensures r.Ok? ==> |r.value| >= 1 && r.value[|r.value| - 1] == '\n'
  {
    if prefix.NotCallable? then Err(InvalidPrefix)
    else Ok(Join(Kept(lines, prefix, filter)) + "\n")
  }

  /**
   * Read back line by line, the output of `lines` is the kept lines, each on
   * its own line, when no prefixed line holds a line break.
   */
  lemma LinesReadBack(lines: seq<string>, prefix: Prefix, filter: bool)
    requires !prefix.NotCallable? && Kept(lines, prefix, filter) != []
    requires forall i :: 0 <= i < |lines| ==> '\n' !in PrefixLine(prefix, i, lines[i])
    ensures Lines(lines, prefix, filter).Ok?
    ensures var r := Lines(lines, prefix, filter).value; Split(r[..|r| - 1]) == Kept(lines, prefix, filter)
  {
    var kept := Kept(lines, prefix, filter);
    var r := Lines(lines, prefix, filter).value;
    assert r[..|r| - 1] == Join(kept);
    assert forall i :: 0 <= i < |kept| ==> kept[i] in Prefixed(lines, prefix);
    SplitJoin(kept);
  }

  /** With a prefix that makes every line non-empty, filtering drops nothing. */
  lemma FilterKeepsPrefixed(lines: seq<string>, prefix: Prefix)
    requires forall i :: 0 <= i < |lines| ==> PrefixLine(prefix, i, lines[i]) != ""
    ensures Kept(lines, prefix, true) == Prefixed(lines, prefix)
  {
  }

  // The block helpers

  /** The default bullet of `bulletedList`. */
  const BULLET: string := "•"

  /** `blockQuote`: every line quoted, none filtered. */
  function BlockQuote(items: Items): (r: Result<string>)
    ensures r.Err? <==> items.OtherItems?
    ensures r.Err? ==> r.error == InvalidItems
  {
    var ls :- Explode(items);
    Lines(ls, Fixed("> "), false)
  }

  /** `bulletedList`: every item after the bullet and a space. */
  function BulletedList(items: Items, bullet: string): (r: Result<string>)
    ensures r.Err? <==> items.OtherItems?
    ensures r.Err? ==> r.error == InvalidItems
  {
    var ls :- Explode(items);
    Lines(ls, Fixed(bullet + " "), true)
  }

  /** The line the closure of `numberedList` writes for the item at position i, counting from 0. */
  function Numbered(i: nat, item: string): string {
    NatToString(i + 1) + ". " + item
  }

  /** `numberedList`: every item after its number, a dot and a space. */
  function NumberedList(items: Items): (r: Result<string>)
    ensures r.Err? <==> items.OtherItems?
    ensures r.Err? ==> r.error == InvalidItems
  {
    var ls :- Explode(items);
    Lines(ls, Each(Numbered), true)
  }

  /**
   * The `array_map` of `numberedList`: its closure raises the counter it
   * shares by reference before each item, so the items are numbered 1, 2,
   * 3, ... in order, as `Numbered` says.
   */
  method NumberItems(items: seq<string>) returns (r: seq<string>)
    ensures |r| == |items|
    ensures forall i :: 0 <= i < |items| ==> r[i] == NatToString(i + 1) + ". " + items[i]
    ensures r == Prefixed(items, Each(Numbered))
  {
    var index := 0;
    var i := 0;
    r := [];
    while i < |items|
      invariant 0 <= i <= |items| && index == i && |r| == i
      invariant forall j :: 0 <= j < i ==> r[j] == NatToString(j + 1) + ". " + items[j]
    {
      index := index + 1;
      r := r + [NatToString(index) + ". " + items[i]];
      i := i + 1;
    }
  }

  /**
   * A block quote keeps every line of its text, empty ones included, each
   * after "> ".
   */
  lemma BlockQuoteKeepsEveryLine(s: string)
    ensures BlockQuote(ItemText(s)).Ok?
    ensures var r := BlockQuote(ItemText(s)).value; Split(r[..|r| - 1]) == Prefixed(Split(s), Fixed("> "))
  {
    var ls := Split(s);
    assert forall i :: 0 <= i < |ls| ==> PrefixLine(Fixed("> "), i, ls[i]) == "> " + ls[i];
    LinesReadBack(ls, Fixed("> "), false);
  }

  /**
   * A bulleted list keeps every item, empty ones included, since the
   * filter of `lines` runs after the bullet is written.
   */
  lemma BulletedListKeepsEveryItem(items: seq<string>, bullet: string)
    requires items != [] && '\n' !in bullet
    requires forall i :: 0 <= i < |items| ==> '\n' !in items[i]
    ensures BulletedList(ItemArray(items), bullet).Ok?
    ensures var r := BulletedList(ItemArray(items), bullet).value; Split(r[..|r| - 1]) == Prefixed(items, Fixed(bullet + " "))
  {
    var p := Fixed(bullet + " ");
    assert forall i :: 0 <= i < |items| ==> PrefixLine(p, i, items[i]) == bullet + " " + items[i];
    assert forall i :: 0 <= i < |items| ==> |PrefixLine(p, i, items[i])| > 0;
    FilterKeepsPrefixed(items, p);
    LinesReadBack(items, p, true);
  }

  /** A numbered list numbers every item 1, 2, 3, ... in order, on a line of its own. */
  lemma NumberedListNumbersEveryItem(items: seq<string>)
    requires items != []
    requires forall i :: 0 <= i < |items| ==> '\n' !in items[i]
    ensures NumberedList(ItemArray(items)).Ok?
    ensures var r := NumberedList(ItemArray(items)).value; Split(r[..|r| - 1]) == Prefixed(items, Each(Numbered))
    ensures forall i :: 0 <= i < |items| ==> Prefixed(items, Each(Numbered))[i] == NatToString(i + 1) + ". " + items[i]
  {
    var p := Each(Numbered);
    forall i | 0 <= i < |items|
      ensures '\n' !in PrefixLine(p, i, items[i]) && PrefixLine(p, i, items[i]) != ""
    {
      var d := NatToString(i + 1);
      var line := d + ". " + items[i];
      assert forall j :: 0 <= j < |line| ==> line[j] != '\n' by {
        forall j | 0 <= j < |line| ensures line[j] != '\n' {
          if j < |d| {
            assert line[j] == d[j];
          } else if j >= |d| + 2 {
            assert line[j] == items[i][j - |d| - 2];
          }
        }
      }
    }
    FilterKeepsPrefixed(items, p);
    LinesReadBack(items, p, true);
  }
}
