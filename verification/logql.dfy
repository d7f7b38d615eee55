/** LokiService's LogQL builder, and a parser that recovers what a query was built from. */
module LogQl {
  import opened Options

  // ------------------------------------------------------------------ the builder

  /** str.replace for a single character. */
  function Replace(s: string, c: char, with: string): string {
    if s == "" then "" else (if s[0] == c then with else [s[0]]) + Replace(s[1..], c, with)
  }

  /** _escape_logql */
  function Escape(v: string): string {
    Replace(Replace(Replace(Replace(v, '\\', "\\\\"), '"', "\\\""), '\n', "\\n"), '\r', "\\r")
  }

  datatype Matcher = Matcher(name: string, value: string)

  function Quoted(v: string): string { "\"" + Escape(v) + "\"" }

  function Pair(matcher: Matcher): string { matcher.name + "=" + Quoted(matcher.value) }

  function Pairs(labels: seq<Matcher>): string {
    if labels == [] then "" else if |labels| == 1 then Pair(labels[0]) else Pair(labels[0]) + ", " + Pairs(labels[1..])
  }

  /** _label_selector; a dict's items in insertion order. */
  function Selector(labels: seq<Matcher>): string { if labels == [] then "{}" else "{" + Pairs(labels) + "}" }

  const CONTAINS := " |= "

  /** The query of search_logs_by_pattern. */
  function PatternQuery(labels: seq<Matcher>, pattern: string): string { Selector(labels) + CONTAINS + Quoted(pattern) }

  function Filters(filters: seq<string>): string {
    if filters == [] then "" else CONTAINS + Quoted(filters[0]) + Filters(filters[1..])
  }

  /** The query of filter_logs. */
  function FilterQuery(labels: seq<Matcher>, filters: seq<string>): string { Selector(labels) + Filters(filters) }

  // ------------------------------------------------------------------ escaping in one pass

  function EscapeChar(c: char): string {
    if c == '\\' then "\\\\" else if c == '"' then "\\\""
    else if c == '\n' then "\\n" else if c == '\r' then "\\r"
    else [c]
  }

  function EscapePass(v: string): string { if v == "" then "" else EscapeChar(v[0]) + EscapePass(v[1..]) }

  lemma {:induction false} ReplaceConcat(a: string, b: string, c: char, with: string)
    ensures Replace(a + b, c, with) == Replace(a, c, with) + Replace(b, c, with)
  {
    if a == "" {
      assert a + b == b;
    } else {
      assert (a + b)[1..] == a[1..] + b;
      ReplaceConcat(a[1..], b, c, with);
    }
  }

  lemma EscapeConcat(a: string, b: string)
    ensures Escape(a + b) == Escape(a) + Escape(b)
  {
    ReplaceConcat(a, b, '\\', "\\\\");
    var a1, b1 := Replace(a, '\\', "\\\\"), Replace(b, '\\', "\\\\");
    ReplaceConcat(a1, b1, '"', "\\\"");
    var a2, b2 := Replace(a1, '"', "\\\""), Replace(b1, '"', "\\\"");
    ReplaceConcat(a2, b2, '\n', "\\n");
    ReplaceConcat(Replace(a2, '\n', "\\n"), Replace(b2, '\n', "\\n"), '\r', "\\r");
  }

  lemma ReplaceOne(c: char, d: char, with: string)
    ensures Replace([c], d, with) == if c == d then with else [c]
  {
    assert [c][1..] == "";
  }

  lemma ReplaceTwo(a: char, b: char, d: char, with: string)
    requires a != d && b != d
    ensures Replace([a, b], d, with) == [a, b]
  {
    assert [a, b][1..] == [b];
    ReplaceOne(b, d, with);
  }

  /** No replacement touches what an earlier one produced. */
  lemma EscapeOne(c: char)
    ensures Escape([c]) == EscapeChar(c)
  {
    ReplaceOne(c, '\\', "\\\\");
    ReplaceOne(c, '"', "\\\"");
    ReplaceOne(c, '\n', "\\n");
    ReplaceOne(c, '\r', "\\r");
    ReplaceTwo('\\', '\\', '"', "\\\"");
    ReplaceTwo('\\', '\\', '\n', "\\n");
    ReplaceTwo('\\', '\\', '\r', "\\r");
    ReplaceTwo('\\', '"', '\n', "\\n");
    ReplaceTwo('\\', '"', '\r', "\\r");
    ReplaceTwo('\\', 'n', '\r', "\\r");
  }

  /** The four chained replacements are one left-to-right pass. */
  lemma {:induction false} EscapeIsOnePass(v: string)
    ensures Escape(v) == EscapePass(v)
  {
    if v != "" {
      assert v == [v[0]] + v[1..];
      EscapeConcat([v[0]], v[1..]);
      EscapeOne(v[0]);
      EscapeIsOnePass(v[1..]);
    }
  }

  // ------------------------------------------------------------------ the parser

  function Unescape(c: char): Option<char> {
    if c == '\\' || c == '"' then Some(c) else if c == 'n' then Some('\n') else if c == 'r' then Some('\r') else None
  }

  /** The text up to the closing quote, and what follows it. */
  function Unquote(s: string): (r: Option<(string, string)>)
    ensures r.Some? ==> |r.value.1| < |s|
  {
    if s == "" || s[0] == '\n' || s[0] == '\r' then None
    else if s[0] == '"' then Some(("", s[1..]))
    else if s[0] != '\\' then Push(s[0], Unquote(s[1..]))
    else if |s| < 2 || Unescape(s[1]).None? then None
    else Push(Unescape(s[1]).value, Unquote(s[2..]))
  }

  function Push(c: char, r: Option<(string, string)>): Option<(string, string)> {
    if r.Some? then Some(([c] + r.value.0, r.value.1)) else None
  }

  /** An equals sign and a quote: where a name ends and its value begins. */
  predicate Opens(s: string, i: nat) { i + 1 < |s| && s[i] == '=' && s[i + 1] == '"' }

  /** The name up to the first opening quote, and what follows it. */
  function TakeName(s: string): (r: Option<(string, string)>)
    ensures r.Some? ==> |r.value.1| < |s|
  {
    if s == "" then None else if Opens(s, 0) then Some(("", s[1..])) else Push(s[0], TakeName(s[1..]))
  }

  function TakeLabel(s: string): (r: Option<(Matcher, string)>)
    ensures r.Some? ==> |r.value.1| < |s|
  {
    var name := TakeName(s);
    if name.None? || name.value.1 == "" || name.value.1[0] != '"' then None
    else
      var value := Unquote(name.value.1[1..]);
      if value.None? then None else Some((Matcher(name.value.0, value.value.0), value.value.1))
  }

  predicate Starts(s: string, c: char) { s != "" && s[0] == c }

  function TakeLabels(s: string): Option<(seq<Matcher>, string)>
    decreases |s|
  {
    var first := TakeLabel(s);
    if first.None? then None
    else if Starts(first.value.1, '}') then Some(([first.value.0], first.value.1[1..]))
    else if !Starts(first.value.1, ',') || !Starts(first.value.1[1..], ' ') then None
    else
      var rest := TakeLabels(first.value.1[2..]);
      if rest.None? then None else Some(([first.value.0] + rest.value.0, rest.value.1))
  }

  function TakeSelector(s: string): Option<(seq<Matcher>, string)> {
    if !Starts(s, '{') then None
    else if Starts(s[1..], '}') then Some(([], s[2..]))
    else TakeLabels(s[1..])
  }

  // LogQL's operators, as a server reads them. The four of a label are =, !=, =~ and !~, the
  // four of a line filter |=, !=, |~ and !~.

  datatype Comparison = Equal | Different | Matching | NotMatching

  datatype Test = Test(name: string, op: Comparison, value: string)

  datatype LineFilter = Contains(text: string) | Excludes(text: string) | Matches(text: string) | Rejects(text: string)

  /** The text of a name holds one of the pattern operators with its quote. */
  predicate HoldsPattern(name: string) {
    exists i | 0 <= i < |name| - 2 :: (name[i] == '=' || name[i] == '!') && name[i + 1] == '~' && name[i + 2] == '"'
  }

  /** What stands before an equals sign and a quote: a name, or a name and the first half of
      `!=`. A pattern operator in it is one this parser does not read on from. */
  function Typed(raw: Matcher): Option<Test> {
    var n := |raw.name|;
    if HoldsPattern(raw.name) then None
    else if n > 0 && raw.name[n - 1] == '!' then Some(Test(raw.name[..n - 1], Different, raw.value))
    else Some(Test(raw.name, Equal, raw.value))
  }

  function TypedAll(raws: seq<Matcher>): Option<seq<Test>> {
    if raws == [] then Some([])
    else
      var first, rest := Typed(raws[0]), TypedAll(raws[1..]);
      if first.None? || rest.None? then None else Some([first.value] + rest.value)
  }

  function ParseSelector(s: string): Option<(seq<Test>, string)> {
    var raw := TakeSelector(s);
    if raw.None? then None
    else
      var tests := TypedAll(raw.value.0);
      if tests.None? then None else Some((tests.value, raw.value.1))
  }

  function TypedFilter(s: string, text: string): Option<LineFilter> {
    if " |= \"" <= s then Some(Contains(text))
    else if " != \"" <= s then Some(Excludes(text))
    else if " |~ \"" <= s then Some(Matches(text))
    else if " !~ \"" <= s then Some(Rejects(text))
    else None
  }

  function ParseFilters(s: string): Option<seq<LineFilter>>
    decreases |s|
  {
    if s == "" then Some([])
    else if |s| < 5 then None
    else
      var text := Unquote(s[5..]);
      if text.None? || TypedFilter(s, text.value.0).None? then None
      else
        var rest := ParseFilters(text.value.1);
        if rest.None? then None else Some([TypedFilter(s, text.value.0).value] + rest.value)
  }

  datatype Query = Query(labels: seq<Test>, filters: seq<LineFilter>)

  function Parse(s: string): Option<Query> {
    var selector := ParseSelector(s);
    if selector.None? then None
    else
      var filters := ParseFilters(selector.value.1);
      if filters.None? then None else Some(Query(selector.value.0, filters.value))
  }

  /** What the builder means: every label equal to its value, every filter contained. */
  function Equalities(labels: seq<Matcher>): seq<Test> {
    if labels == [] then [] else [Test(labels[0].name, Equal, labels[0].value)] + Equalities(labels[1..])
  }

  function Containing(filters: seq<string>): seq<LineFilter> {
    if filters == [] then [] else [Contains(filters[0])] + Containing(filters[1..])
  }

  // ------------------------------------------------------------------ round trips

  /** A label name the selector keeps apart from its value; every identifier is one. */
  predicate IsName(name: string) { forall i: nat :: i < |name| ==> !Opens(name, i) }

  predicate AllNames(labels: seq<Matcher>) { forall i | 0 <= i < |labels| :: IsName(labels[i].name) }

  /** A name that does not pass for a name and an operator of its own. */
  predicate IsBare(name: string) { !HoldsPattern(name) && (name != "" ==> name[|name| - 1] != '!') }

  /** For the parser the first name must not pass for the end of the selector either. */
  predicate Named(labels: seq<Matcher>) {
    AllNames(labels) && (forall i | 0 <= i < |labels| :: IsBare(labels[i].name)) &&
    (labels != [] ==> !Starts(labels[0].name, '}'))
  }

  lemma UnquotePush(c: char, s: string, v: string, rest: string)
    requires Unquote(s) == Some((v, rest))
    ensures Unquote(EscapeChar(c) + s) == Some(([c] + v, rest))
  {
    var t := EscapeChar(c) + s;
    if |EscapeChar(c)| == 1 { assert t[1..] == s; } else { assert t[2..] == s; }
  }

  lemma {:induction false} UnquotePass(v: string, rest: string)
    ensures Unquote(EscapePass(v) + ("\"" + rest)) == Some((v, rest))
  {
    if v == "" {
      UnquoteEnd(rest);
    } else {
      var (c, more) := (v[0], v[1..]);
      UnquotePass(more, rest);
      UnquotePush(c, EscapePass(more) + ("\"" + rest), more, rest);
      Assoc(EscapeChar(c), EscapePass(more), "\"" + rest);
      assert [c] + more == v;
    }
  }

  lemma UnquoteEnd(rest: string)
    ensures Unquote("" + ("\"" + rest)) == Some(("", rest))
  {
    assert "" + ("\"" + rest) == "\"" + rest && ("\"" + rest)[1..] == rest;
  }

  /** A quoted value is read back whatever it contains and whatever follows. */
  lemma QuotedReadsBack(v: string, rest: string)
    ensures (Quoted(v) + rest)[0] == '"' && Unquote((Quoted(v) + rest)[1..]) == Some((v, rest))
  {
    EscapeIsOnePass(v);
    UnquotePass(v, rest);
    assert (Quoted(v) + rest)[1..] == EscapePass(v) + ("\"" + rest);
  }

  lemma NameTail(name: string)
    requires name != "" && IsName(name)
    ensures IsName(name[1..])
  {
    forall i: nat | i < |name| - 1 ensures !Opens(name[1..], i) { assert !Opens(name, i + 1); }
  }

  lemma {:induction false} TakeNameReadsBack(name: string, rest: string)
    requires IsName(name) && Starts(rest, '"')
    ensures TakeName(name + ("=" + rest)) == Some((name, rest))
  {
    var s := name + ("=" + rest);
    if name == "" {
      assert s == "=" + rest && s[1..] == rest;
    } else {
      assert s[1..] == name[1..] + ("=" + rest);
      assert !Opens(name, 0);
      NameTail(name);
      TakeNameReadsBack(name[1..], rest);
      assert [name[0]] + name[1..] == name;
    }
  }

  lemma TakeLabelReadsBack(matcher: Matcher, rest: string)
    requires IsName(matcher.name)
    ensures TakeLabel(Pair(matcher) + rest) == Some((matcher, rest))
  {
    var tail := Quoted(matcher.value) + rest;
    assert Pair(matcher) + rest == matcher.name + ("=" + tail);
    TakeNameReadsBack(matcher.name, tail);
    QuotedReadsBack(matcher.value, rest);
  }

  lemma TakeLast(matcher: Matcher, rest: string)
    requires IsName(matcher.name)
    ensures TakeLabels(Pair(matcher) + ("}" + rest)) == Some(([matcher], rest))
  {
    TakeLabelReadsBack(matcher, "}" + rest);
    assert ("}" + rest)[1..] == rest;
  }

  lemma TakeMore(s: string, matcher: Matcher, t: string, more: seq<Matcher>, rest: string)
    requires TakeLabel(s) == Some((matcher, t)) && |t| >= 2 && t[0] == ',' && t[1] == ' '
    requires TakeLabels(t[2..]) == Some((more, rest))
    ensures TakeLabels(s) == Some(([matcher] + more, rest))
  {
    assert Starts(t[1..], ' ');
  }

  lemma Assoc(a: string, b: string, c: string)
    ensures a + b + c == a + (b + c)
  {
  }

  lemma {:induction false} TakeLabelsReadsBack(labels: seq<Matcher>, rest: string)
    requires labels != [] && AllNames(labels)
    ensures TakeLabels(Pairs(labels) + ("}" + rest)) == Some((labels, rest))
  {
    if |labels| == 1 {
      TakeLast(labels[0], rest);
      assert [labels[0]] == labels;
    } else {
      var tail := Pairs(labels[1..]) + ("}" + rest);
      TakeLabelsReadsBack(labels[1..], rest);
      PairsSplit(labels, "}" + rest);
      TakeLabelReadsBack(labels[0], ", " + tail);
      assert (", " + tail)[2..] == tail;
      TakeMore(Pairs(labels) + ("}" + rest), labels[0], ", " + tail, labels[1..], rest);
      assert [labels[0]] + labels[1..] == labels;
    }
  }

  lemma PairsSplit(labels: seq<Matcher>, rest: string)
    requires |labels| > 1
    ensures Pairs(labels) + rest == Pair(labels[0]) + (", " + (Pairs(labels[1..]) + rest))
  {
    var a, b := Pair(labels[0]), Pairs(labels[1..]);
    Assoc(a + ", ", b, rest);
    Assoc(a, ", ", b + rest);
  }

  lemma PairsStart(labels: seq<Matcher>)
    requires labels != [] && Named(labels)
    ensures Pairs(labels) != "" && Pairs(labels)[0] != '}'
  {
    assert Pair(labels[0]) != "" && Pair(labels[0])[0] != '}';
    assert Pairs(labels)[0] == Pair(labels[0])[0];
  }

  lemma Braced(pairs: string, rest: string)
    requires pairs != "" && pairs[0] != '}'
    ensures var s := "{" + pairs + "}" + rest;
            Starts(s, '{') && s[1..] == pairs + ("}" + rest) && !Starts(s[1..], '}')
  {
  }

  lemma {:induction false} EqualitiesAreTyped(labels: seq<Matcher>)
    ensures TypedAll(labels) == Some(Equalities(labels)) <==> forall i | 0 <= i < |labels| :: IsBare(labels[i].name)
  {
    if labels != [] {
      var rest := labels[1..];
      EqualitiesAreTyped(rest);
      assert forall i | 0 <= i < |rest| :: rest[i] == labels[i + 1];
      assert Equalities(labels)[1..] == Equalities(rest);
      if TypedAll(labels).Some? { assert TypedAll(labels).value[1..] == TypedAll(rest).value; }
      if (forall i | 0 <= i < |rest| :: IsBare(rest[i].name)) && IsBare(labels[0].name) {
        forall i | 0 <= i < |labels| ensures IsBare(labels[i].name) {
          if i > 0 { assert IsBare(rest[i - 1].name); }
        }
      }
    }
  }

  /** The parser recovers the labels of any selector, each with the operator for equality. */
  lemma SelectorReadsBack(labels: seq<Matcher>, rest: string)
    requires Named(labels)
    ensures ParseSelector(Selector(labels) + rest) == Some((Equalities(labels), rest))
  {
    RawSelectorReadsBack(labels, rest);
    EqualitiesAreTyped(labels);
  }

  lemma RawSelectorReadsBack(labels: seq<Matcher>, rest: string)
    requires Named(labels)
    ensures TakeSelector(Selector(labels) + rest) == Some((labels, rest))
  {
    var s := Selector(labels) + rest;
    if labels == [] {
      assert s[1..] == "}" + rest && s[2..] == rest;
    } else {
      PairsStart(labels);
      TakeLabelsReadsBack(labels, rest);
      Braced(Pairs(labels), rest);
    }
  }

  lemma {:induction false} FiltersReadBack(filters: seq<string>)
    ensures ParseFilters(Filters(filters)) == Some(Containing(filters))
  {
    if filters != [] {
      var s, tail := Filters(filters), Filters(filters[1..]);
      var quoted := Quoted(filters[0]) + tail;
      assert s == CONTAINS + quoted;
      QuotedReadsBack(filters[0], tail);
      assert s[4..] == quoted && s[5..] == quoted[1..];
      assert " |= \"" <= s;
      FiltersReadBack(filters[1..]);
    }
  }

  /** filter_logs: the parser recovers the labels and the filters of every query, for any
      values and filters at all: labels equal to their values, and lines that contain every
      one of the filters. */
  lemma FilterQueryReadsBack(labels: seq<Matcher>, filters: seq<string>)
    requires Named(labels)
    ensures Parse(FilterQuery(labels, filters)) == Some(Query(Equalities(labels), Containing(filters)))
  {
    SelectorReadsBack(labels, Filters(filters));
    FiltersReadBack(filters);
  }

  lemma {:induction false} TakenName(s: string)
    requires TakeName(s).Some?
    ensures IsName(TakeName(s).value.0)
    ensures TakeName(s).value.0 != "" ==> TakeName(s).value.0[0] == s[0]
    ensures Starts(TakeName(s).value.1, '"') && s == TakeName(s).value.0 + ("=" + TakeName(s).value.1)
  {
    if !Opens(s, 0) {
      TakenName(s[1..]);
      var name, rest := TakeName(s[1..]).value.0, TakeName(s[1..]).value.1;
      assert s == ([s[0]] + name) + ("=" + rest);
      forall i: nat | i < |name| + 1 ensures !Opens([s[0]] + name, i) {
        if i > 0 { assert !Opens(name, i - 1); }
      }
    }
  }

  lemma {:induction false} TakenLabels(s: string)
    requires TakeLabels(s).Some?
    ensures var labels := TakeLabels(s).value.0;
            labels != [] && AllNames(labels) &&
            (Starts(labels[0].name, '}') ==> Starts(s, '}'))
    decreases |s|
  {
    TakenName(s);
    var first := TakeLabel(s).value;
    if !Starts(first.1, '}') { TakenLabels(first.1[2..]); }
  }

  lemma {:induction false} TypedNames(raws: seq<Matcher>, labels: seq<Matcher>)
    requires TypedAll(raws) == Some(Equalities(labels))
    ensures raws == labels
  {
    if raws == [] {
      assert labels == [];
    } else {
      assert labels != [];
      assert TypedAll(raws).value[1..] == TypedAll(raws[1..]).value;
      assert Equalities(labels)[1..] == Equalities(labels[1..]);
      TypedNames(raws[1..], labels[1..]);
      assert raws == [raws[0]] + raws[1..] && labels == [labels[0]] + labels[1..];
    }
  }

  /** The names the parser gets right are exactly those without an opening quote inside and
      without an operator of their own, a first one not beginning with the closing brace. */
  lemma FilterQueryReadsBackIff(labels: seq<Matcher>, filters: seq<string>)
    ensures Parse(FilterQuery(labels, filters)) == Some(Query(Equalities(labels), Containing(filters))) <==>
            Named(labels)
  {
    if Named(labels) { FilterQueryReadsBack(labels, filters); }
    var s := FilterQuery(labels, filters);
    if Parse(s) == Some(Query(Equalities(labels), Containing(filters))) && labels != [] {
      var raws := TakeSelector(s).value.0;
      TypedNames(raws, labels);
      EqualitiesAreTyped(labels);
      TakenLabels(s[1..]);
    }
  }

  /** search_logs_by_pattern builds the query filter_logs builds for one filter. */
  lemma PatternQueryReadsBack(labels: seq<Matcher>, pattern: string)
    requires Named(labels)
    ensures Parse(PatternQuery(labels, pattern)) == Some(Query(Equalities(labels), [Contains(pattern)]))
  {
    FilterQueryReadsBack(labels, [pattern]);
    OnePattern(labels, pattern);
    assert Containing([pattern]) == [Contains(pattern)] + Containing([pattern][1..]);
    assert Containing([pattern]) == [Contains(pattern)];
  }

  lemma OnePattern(labels: seq<Matcher>, pattern: string)
    ensures PatternQuery(labels, pattern) == FilterQuery(labels, [pattern])
  {
    assert [pattern][1..] == [];
    assert Filters([pattern]) == CONTAINS + Quoted(pattern);
    assert Selector(labels) + CONTAINS + Quoted(pattern) == Selector(labels) + (CONTAINS + Quoted(pattern));
  }

  // ------------------------------------------------------------------ any names at all

  lemma {:induction false} QuotesAreEscaped(v: string, i: nat)
    requires i < |EscapePass(v)| && EscapePass(v)[i] == '"'
    ensures i > 0 && EscapePass(v)[i - 1] == '\\'
  {
    var first := EscapeChar(v[0]);
    if i >= |first| { QuotesAreEscaped(v[1..], i - |first|); }
  }

  /** The character a quoted value can follow. */
  predicate BeforeQuote(s: string) { s != "" && (s[|s| - 1] == '=' || s[|s| - 1] == ' ') }

  lemma InsideIsEscaped(u: string, v: string, i: nat)
    requires |u| < i < |u + Quoted(v)| - 1 && (u + Quoted(v))[i] == '"'
    ensures (u + Quoted(v))[i - 1] == '\\'
  {
    EscapeIsOnePass(v);
    assert (u + Quoted(v))[i] == EscapePass(v)[i - |u| - 1];
    QuotesAreEscaped(v, i - |u| - 1);
  }

  lemma OpenerIsNotInside(u: string, v: string, u': string, v': string)
    requires BeforeQuote(u) && BeforeQuote(u') && |u'| < |u|
    ensures u + Quoted(v) != u' + Quoted(v')
  {
    var s, s' := u + Quoted(v), u' + Quoted(v');
    assert |u| < |s| - 1 && s[|u|] == '"' && s[|u| - 1] == u[|u| - 1];
    if |u| < |s'| - 1 && s'[|u|] == '"' { InsideIsEscaped(u', v', |u|); }
  }

  /** Read from the right, the last quoted value of a text is always the same. */
  lemma LastQuoted(u: string, v: string, u': string, v': string)
    requires BeforeQuote(u) && BeforeQuote(u') && u + Quoted(v) == u' + Quoted(v')
    ensures u == u' && v == v'
  {
    if |u'| < |u| { OpenerIsNotInside(u, v, u', v'); }
    if |u| < |u'| { OpenerIsNotInside(u', v', u, v); }
    var s := u + Quoted(v);
    assert u == s[..|u|] && u' == s[..|u|] && Quoted(v) == s[|u|..] && Quoted(v') == s[|u|..];
    QuotedReadsBack(v, "");
    QuotedReadsBack(v', "");
    assert Quoted(v) + "" == Quoted(v) && Quoted(v') + "" == Quoted(v');
  }

  lemma {:induction false} FiltersSnoc(filters: seq<string>, last: string)
    ensures Filters(filters + [last]) == Filters(filters) + (CONTAINS + Quoted(last))
  {
    if filters == [] {
      assert [last][1..] == [] && filters + [last] == [last];
    } else {
      assert (filters + [last])[1..] == filters[1..] + [last];
      FiltersSnoc(filters[1..], last);
      Assoc(CONTAINS + Quoted(filters[0]), Filters(filters[1..]), CONTAINS + Quoted(last));
    }
  }

  lemma EndSnoc(s: string, filters: seq<string>)
    requires filters != []
    ensures var n := |filters| - 1;
            s + Filters(filters) == (s + Filters(filters[..n]) + CONTAINS) + Quoted(filters[n])
  {
    var n := |filters| - 1;
    assert filters == filters[..n] + [filters[n]];
    FiltersSnoc(filters[..n], filters[n]);
    Assoc(s, Filters(filters[..n]), CONTAINS + Quoted(filters[n]));
    Assoc(s + Filters(filters[..n]), CONTAINS, Quoted(filters[n]));
  }

  lemma EndsQuoted(s: string, filters: seq<string>)
    requires filters != []
    ensures var t := s + Filters(filters); t != "" && t[|t| - 1] == '"'
  {
    var u := s + Filters(filters[..|filters| - 1]) + CONTAINS;
    var v := filters[|filters| - 1];
    EndSnoc(s, filters);
    assert (u + Quoted(v))[|u + Quoted(v)| - 1] == '"';
  }

  lemma TakeOffFilter(q: string, v: string, q': string, v': string)
    requires (q + CONTAINS) + Quoted(v) == (q' + CONTAINS) + Quoted(v')
    ensures q == q' && v == v'
  {
    LastQuoted(q + CONTAINS, v, q' + CONTAINS, v');
    assert q == (q + CONTAINS)[..|q|] && q' == (q' + CONTAINS)[..|q|];
  }

  lemma {:induction false} EndsAreCertain(s: string, filters: seq<string>, s': string, filters': seq<string>)
    requires s + Filters(filters) == s' + Filters(filters')
    requires s != "" && s[|s| - 1] == '}' && s' != "" && s'[|s'| - 1] == '}'
    ensures filters == filters' && s == s'
  {
    assert s + "" == s && s' + "" == s';
    if filters != [] { EndsQuoted(s, filters); }
    if filters' != [] { EndsQuoted(s', filters'); }
    if filters != [] && filters' != [] {
      var (n, m) := (|filters| - 1, |filters'| - 1);
      EndSnoc(s, filters);
      EndSnoc(s', filters');
      TakeOffFilter(s + Filters(filters[..n]), filters[n], s' + Filters(filters'[..m]), filters'[m]);
      EndsAreCertain(s, filters[..n], s', filters'[..m]);
      assert filters == filters[..n] + [filters[n]] && filters' == filters'[..m] + [filters'[m]];
    }
  }

  /** Whatever the names, the filters and the selector of a query are never in doubt. */
  lemma FiltersAreCertain(labels: seq<Matcher>, filters: seq<string>, labels': seq<Matcher>, filters': seq<string>)
    requires FilterQuery(labels, filters) == FilterQuery(labels', filters')
    ensures filters == filters' && Selector(labels) == Selector(labels')
  {
    EndsAreCertain(Selector(labels), filters, Selector(labels'), filters');
  }

  lemma SameBraces(a: string, b: string)
    requires "{" + a + "}" == "{" + b + "}"
    ensures a == b
  {
    var s := "{" + a + "}";
    assert a == s[1..|s| - 1] && b == s[1..|s| - 1];
  }

  lemma SameSelector(labels: seq<Matcher>, labels': seq<Matcher>)
    requires AllNames(labels) && AllNames(labels') && Selector(labels) == Selector(labels')
    ensures labels == labels'
  {
    if labels != [] { assert |Pairs(labels)| > 0; }
    if labels' != [] { assert |Pairs(labels')| > 0; }
    if labels != [] && labels' != [] {
      SameBraces(Pairs(labels), Pairs(labels'));
      TakeLabelsReadsBack(labels, "");
      TakeLabelsReadsBack(labels', "");
    }
  }

  /** Different requests never send the same query, for any values and filters. */
  lemma BuilderIsInjective(labels: seq<Matcher>, filters: seq<string>, labels': seq<Matcher>, filters': seq<string>)
    requires AllNames(labels) && AllNames(labels')
    requires FilterQuery(labels, filters) == FilterQuery(labels', filters')
    ensures labels == labels' && filters == filters'
  {
    FiltersAreCertain(labels, filters, labels', filters');
    SameSelector(labels, labels');
  }

  /** A dict's items: no name occurs twice. */
  predicate Distinct(labels: seq<Matcher>) {
    forall i, j | 0 <= i < j < |labels| :: labels[i].name != labels[j].name
  }

  /** A name that reads as a label, a comma and the name of another one. */
  ghost predicate Splits(name: string) {
    exists m: Matcher, rest: string :: name == Pair(m) + (", " + rest) && m.name != rest
  }

  lemma {:induction false} PairsSnoc(labels: seq<Matcher>, last: Matcher)
    requires labels != []
    ensures Pairs(labels + [last]) == Pairs(labels) + (", " + Pair(last))
  {
    assert (labels + [last])[1..] == labels[1..] + [last];
    if |labels| == 1 {
      assert labels[1..] + [last] == [last];
      Assoc(Pair(labels[0]), ", ", Pair(last));
    } else {
      PairsSnoc(labels[1..], last);
      Assoc(Pair(labels[0]) + ", ", Pairs(labels[1..]), ", " + Pair(last));
    }
  }

  lemma PairEnds(lead: string, m: Matcher)
    ensures lead + Pair(m) == (lead + m.name + "=") + Quoted(m.value)
  {
    Assoc(lead + m.name, "=", Quoted(m.value));
    Assoc(lead, m.name, "=" + Quoted(m.value));
    Assoc(m.name, "=", Quoted(m.value));
  }

  /** Several labels print what a single one prints, whose name begins with the first's. */
  lemma {:induction false} Merged(labels: seq<Matcher>) returns (m: Matcher)
    requires labels != []
    ensures Pair(m) == Pairs(labels) && |m.name| >= |labels[0].name| && (|labels| > 1 ==> |m.name| > |labels[0].name|)
  {
    var n := |labels| - 1;
    m := labels[n];
    if n > 0 {
      var front := Merged(labels[..n]);
      assert labels == labels[..n] + [labels[n]];
      PairsSnoc(labels[..n], labels[n]);
      m := Matcher(Pair(front) + (", " + labels[n].name), labels[n].value);
      Regroup(Pair(front), labels[n].name, Quoted(labels[n].value));
      Assoc(Pair(front), ", ", Pair(labels[n]));
    }
  }

  /** The name that several labels read as splits after the first of them, or, if what is
      left is the first's name again, before the last. */
  lemma FrontSplits(labels: seq<Matcher>, name: string)
    requires labels != [] && labels[0].name != name
    ensures Splits(Pairs(labels) + (", " + name))
  {
    if |labels| == 1 {
      assert Pairs(labels) == Pair(labels[0]);
    } else {
      PairsSplit(labels, ", " + name);
      var rest := Pairs(labels[1..]) + (", " + name);
      if labels[0].name == rest {
        var m := Merged(labels);
        assert |m.name| > |rest| > |name|;
      }
    }
  }

  lemma SeveralSplit(name: string, value: string, labels: seq<Matcher>)
    requires |labels| > 1 && Distinct(labels) && Pairs(labels) == Pair(Matcher(name, value))
    ensures Splits(name)
  {
    var n := |labels| - 1;
    var front, last := Pairs(labels[..n]), labels[n];
    assert labels == labels[..n] + [last];
    PairsSnoc(labels[..n], last);
    Assoc(front, ", ", Pair(last));
    PairEnds(front + ", ", last);
    PairEnds("", Matcher(name, value));
    assert "" + Pair(Matcher(name, value)) == Pair(Matcher(name, value)) && "" + name + "=" == name + "=";
    LastQuoted(front + ", " + last.name + "=", last.value, name + "=", value);
    var lead := front + ", " + last.name;
    assert lead == (lead + "=")[..|lead|] && name == (name + "=")[..|lead|];
    Assoc(front, ", ", last.name);
    FrontSplits(labels[..n], last.name);
  }

  /** A single label passes for several of different names exactly if its name reads as a
      label, a comma and another name, whatever its value. */
  lemma PassesForSeveralIff(name: string, value: string)
    ensures (exists labels: seq<Matcher> ::
               |labels| > 1 && Distinct(labels) && Selector(labels) == Selector([Matcher(name, value)])) <==>
            Splits(name)
  {
    var one := [Matcher(name, value)];
    if labels: seq<Matcher> :| |labels| > 1 && Distinct(labels) && Selector(labels) == Selector(one) {
      SameBraces(Pairs(labels), Pairs(one));
      SeveralSplit(name, value, labels);
    }
    if Splits(name) {
      var m: Matcher, rest: string :| name == Pair(m) + (", " + rest) && m.name != rest;
      SplitNamePasses(m, rest, value);
      assert |[m, Matcher(rest, value)]| > 1 && Distinct([m, Matcher(rest, value)]);
    }
  }

  lemma OnlyLabel(a: Matcher, b: Matcher)
    requires Selector([a]) == Selector([b])
    ensures a == b
  {
    SameBraces(Pairs([a]), Pairs([b]));
    PairEnds("", a);
    PairEnds("", b);
    assert "" + Pair(a) == Pair(a) && "" + Pair(b) == Pair(b);
    assert "" + a.name + "=" == a.name + "=" && "" + b.name + "=" == b.name + "=";
    LastQuoted(a.name + "=", a.value, b.name + "=", b.value);
    assert a.name == (a.name + "=")[..|a.name|] && b.name == (b.name + "=")[..|b.name|];
  }

  /** Some other dict of labels, of whatever names, prints the same selector exactly if
      there are several labels, which one label can imitate, or one whose name splits. So
      nothing short of a condition on both dicts' names keeps selectors apart. */
  lemma ImitatedIff(labels: seq<Matcher>)
    requires Distinct(labels)
    ensures (exists other: seq<Matcher> ::
               Distinct(other) && other != labels && Selector(other) == Selector(labels)) <==>
            |labels| > 1 || (|labels| == 1 && Splits(labels[0].name))
  {
    if |labels| > 1 {
      var m := Merged(labels);
      assert Pairs([m]) == Pairs(labels);
      assert Distinct([m]) && [m] != labels && Selector([m]) == Selector(labels);
    } else if labels == [] {
      forall other: seq<Matcher> | other != [] ensures Selector(other) != Selector(labels) {
        assert |Pairs(other)| > 0;
      }
    } else {
      PassesForSeveralIff(labels[0].name, labels[0].value);
      assert labels == [labels[0]];
      if other: seq<Matcher> :| Distinct(other) && other != labels && Selector(other) == Selector(labels) {
        if |other| == 1 {
          assert other == [other[0]];
          OnlyLabel(other[0], labels[0]);
        } else if other == [] {
          assert |Pairs(labels)| > 0;
        }
      }
    }
  }

  lemma Regroup(a: string, r: string, q: string)
    ensures a + ", " + (r + "=" + q) == a + (", " + r) + "=" + q
  {
    Assoc(a + ", ", r + "=", q);
    Assoc(a + ", ", r, "=");
    Assoc(a, ", ", r);
  }

  lemma SplitNamePasses(m: Matcher, rest: string, value: string)
    ensures Selector([m, Matcher(rest, value)]) == Selector([Matcher(Pair(m) + (", " + rest), value)])
  {
    var labels := [m, Matcher(rest, value)];
    assert labels[1..] == [Matcher(rest, value)];
    assert Pairs(labels) == Pair(m) + ", " + Pair(Matcher(rest, value));
    Regroup(Pair(m), rest, Quoted(value));
  }
}
