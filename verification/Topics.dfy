/** Which topics of the cluster a Kafka session selects: names that contain one of its
    subscriptions, and among names of trading results only the well-formed ones. */
module Topics {
  import opened Wrappers

  const PREFIX := "trading_result."

  predicate OccursAt(s: string, sub: string, i: nat) {
    i <= |s| && sub <= s[i..]
  }

  /** `std::string::find` of `sub` finds something. */
  predicate Contains(s: string, sub: string) {
    exists i :: 0 <= i <= |s| && OccursAt(s, sub, i)
  }

  lemma ContainsSelf(s: string)
    ensures Contains(s, s)
  {
    assert OccursAt(s, s, 0);
  }

  lemma ContainsTransitive(a: string, b: string, c: string)
    requires Contains(a, b) && Contains(b, c)
    ensures Contains(a, c)
  {
    var i :| 0 <= i <= |a| && OccursAt(a, b, i);
    var j :| 0 <= j <= |b| && OccursAt(b, c, j);
    assert forall k :: 0 <= k < |c| ==> a[i + j..][k] == a[i..][j + k] == b[j..][k];
    assert OccursAt(a, c, i + j);
  }

  // ----- The regular expression trading_result\.\w+\.\d+_\d+

  datatype Class = Word | Digit

  predicate In(k: Class, c: char) {
    match k
    case Digit => '0' <= c <= '9'
    case Word => 'a' <= c <= 'z' || 'A' <= c <= 'Z' || '0' <= c <= '9' || c == '_'
  }

  predicate AllIn(k: Class, s: string) {
    forall i :: 0 <= i < |s| ==> In(k, s[i])
  }

  datatype Regex =
    | Lit(text: string)
    | Plus(class_: Class)              // one or more characters of a class
    | Then(first: Regex, rest: Regex)

  /** `std::regex_match`: the expression matches the whole string. */
  ghost predicate Accepts(r: Regex, s: string) {
    match r
    case Lit(text) => s == text
    case Plus(k) => s != "" && AllIn(k, s)
    case Then(first, rest) =>
      exists i :: 0 <= i <= |s| && Accepts(first, s[..i]) && Accepts(rest, s[i..])
  }

  const PATTERN :=
    Then(Lit(PREFIX), Then(Plus(Word), Then(Lit("."), Then(Plus(Digit), Then(Lit("_"), Plus(Digit))))))

  // ----- The names that it stands for

  datatype Trading = Trading(word: string, major: string, minor: string)

  predicate WellFormed(t: Trading) {
    && t.word != "" && AllIn(Word, t.word)
    && t.major != "" && AllIn(Digit, t.major)
    && t.minor != "" && AllIn(Digit, t.minor)
  }

  function Print(t: Trading): string {
    PREFIX + (t.word + ("." + (t.major + ("_" + t.minor))))
  }

  /** Length of the longest prefix of `s` in a class. */
  function Span(k: Class, s: string): (n: nat)
    ensures n <= |s| && AllIn(k, s[..n]) && (n < |s| ==> !In(k, s[n]))
  {
    if s != "" && In(k, s[0]) then 1 + Span(k, s[1..]) else 0
  }

  /** A field in a class that ends at a separator: the field and what follows the separator. */
  function Field(k: Class, sep: char, s: string): Option<(string, string)> {
    var n := Span(k, s);
    if 0 < n < |s| && s[n] == sep then Some((s[..n], s[n + 1..])) else None
  }

  /** A matcher for the expression that goes through the name once, without backtracking. */
  function Parse(name: string): Option<Trading> {
    if !(PREFIX <= name) then None
    else match Field(Word, '.', name[|PREFIX|..])
      case None => None
      case Some((word, rest)) =>
        match Field(Digit, '_', rest)
        case None => None
        case Some((major, minor)) =>
          if minor != "" && Span(Digit, minor) == |minor| then Some(Trading(word, major, minor))
          else None
  }

  lemma {:induction false} SpanOfField(k: Class, sep: char, field: string, rest: string)
    requires AllIn(k, field) && !In(k, sep)
    ensures Span(k, field + ([sep] + rest)) == |field|
    ensures Span(k, field) == |field|
  {
    var s := field + ([sep] + rest);
    if field != "" {
      SpanOfField(k, sep, field[1..], rest);
      assert s[1..] == field[1..] + ([sep] + rest);
    } else {
      assert s[0] == sep;
    }
  }

  lemma FieldOf(k: Class, sep: char, field: string, rest: string)
    requires field != "" && AllIn(k, field) && !In(k, sep)
    ensures Field(k, sep, field + ([sep] + rest)) == Some((field, rest))
  {
    SpanOfField(k, sep, field, rest);
    var s := field + ([sep] + rest);
    assert s[..|field|] == field && s[|field|] == sep && s[|field| + 1..] == rest;
  }

  lemma FieldSplits(k: Class, sep: char, s: string)
    requires Field(k, sep, s).Some?
    ensures var (field, rest) := Field(k, sep, s).value;
            field != "" && AllIn(k, field) && s == field + ([sep] + rest)
  {
    var n := Span(k, s);
    assert s == s[..n] + ([s[n]] + s[n + 1..]);
  }

  /** Parsing undoes printing; so a name has at most one decomposition. */
  lemma ParseOfPrint(t: Trading)
    requires WellFormed(t)
    ensures Parse(Print(t)) == Some(t)
  {
    var s2 := t.major + ("_" + t.minor);
    var s1 := t.word + ("." + s2);
    assert Print(t)[|PREFIX|..] == s1;
    FieldOf(Word, '.', t.word, s2);
    FieldOf(Digit, '_', t.major, t.minor);
    SpanOfField(Digit, '_', t.minor, "");
  }

  /** Printing undoes parsing. */
  lemma PrintOfParse(name: string)
    requires Parse(name).Some?
    ensures WellFormed(Parse(name).value) && Print(Parse(name).value) == name
  {
    hide Field, AllIn, In;
    var t := Parse(name).value;
    var s1 := name[|PREFIX|..];
    FieldSplits(Word, '.', s1);
    var s2 := Field(Word, '.', s1).value.1;
    FieldSplits(Digit, '_', s2);
    assert t.minor[..|t.minor|] == t.minor;
    assert name == PREFIX + s1;
  }

  lemma ThenAccepts(first: Regex, rest: Regex, a: string, b: string)
    requires Accepts(first, a) && Accepts(rest, b)
    ensures Accepts(Then(first, rest), a + b)
  {
    assert (a + b)[..|a|] == a && (a + b)[|a|..] == b;
  }

  lemma ThenIsSplit(first: Regex, rest: Regex, s: string)
    ensures Accepts(Then(first, rest), s) <==>
            exists i :: 0 <= i <= |s| && Accepts(first, s[..i]) && Accepts(rest, s[i..])
  {
  }

  lemma ThenSplits(first: Regex, rest: Regex, s: string) returns (a: string, b: string)
    requires Accepts(Then(first, rest), s)
    ensures s == a + b && Accepts(first, a) && Accepts(rest, b)
  {
    hide Accepts;
    ThenIsSplit(first, rest, s);
    var i :| 0 <= i <= |s| && Accepts(first, s[..i]) && Accepts(rest, s[i..]);
    a, b := s[..i], s[i..];
  }

  lemma PatternMatchesPrinted(t: Trading)
    requires WellFormed(t)
    ensures Accepts(PATTERN, Print(t))
  {
    var p4 := Then(Lit("_"), Plus(Digit));
    var p3 := Then(Plus(Digit), p4);
    var p2 := Then(Lit("."), p3);
    var p1 := Then(Plus(Word), p2);
    ThenAccepts(Lit("_"), Plus(Digit), "_", t.minor);
    ThenAccepts(Plus(Digit), p4, t.major, "_" + t.minor);
    ThenAccepts(Lit("."), p3, ".", t.major + ("_" + t.minor));
    ThenAccepts(Plus(Word), p2, t.word, "." + (t.major + ("_" + t.minor)));
    ThenAccepts(Lit(PREFIX), p1, PREFIX, t.word + ("." + (t.major + ("_" + t.minor))));
  }

  lemma PatternSplits(name: string) returns (t: Trading)
    requires Accepts(PATTERN, name)
    ensures WellFormed(t) && Print(t) == name
  {
    var p4 := Then(Lit("_"), Plus(Digit));
    var p3 := Then(Plus(Digit), p4);
    var p2 := Then(Lit("."), p3);
    var p1 := Then(Plus(Word), p2);
    var a0, b0 := ThenSplits(Lit(PREFIX), p1, name);
    var a1, b1 := ThenSplits(Plus(Word), p2, b0);
    var a2, b2 := ThenSplits(Lit("."), p3, b1);
    var a3, b3 := ThenSplits(Plus(Digit), p4, b2);
    var a4, b4 := ThenSplits(Lit("_"), Plus(Digit), b3);
    t := Trading(a1, a3, b4);
  }

  /** The matcher without backtracking accepts exactly the language of the expression. */
  lemma MatcherIsExact(name: string)
    ensures Parse(name).Some? <==> Accepts(PATTERN, name)
  {
    if Parse(name).Some? {
      PrintOfParse(name);
      PatternMatchesPrinted(Parse(name).value);
    }
    if Accepts(PATTERN, name) {
      var t := PatternSplits(name);
      ParseOfPrint(t);
    }
  }

  // ----- Selection

  /** The filter of `Sub`. */
  predicate Selected(name: string, sub: string) {
    Contains(name, sub) && (Contains(name, PREFIX) ==> Parse(name).Some?)
  }

  /** A name with the prefix anywhere in it is selected only if all of it is a trading-result name. */
  lemma TradingFilterIsExact(name: string, sub: string)
    requires Contains(name, PREFIX)
    ensures Selected(name, sub) <==>
            Contains(name, sub) && exists t: Trading :: WellFormed(t) && Print(t) == name
  {
    if Parse(name).Some? {
      PrintOfParse(name);
    }
    if t: Trading :| WellFormed(t) && Print(t) == name {
      ParseOfPrint(t);
    }
  }

  function Matching(metadata: seq<string>, sub: string): seq<string> {
    if metadata == [] then []
    else
      var name := metadata[|metadata| - 1];
      Matching(metadata[..|metadata| - 1], sub) + if Selected(name, sub) then [name] else []
  }

  /** The topics selected for a list of subscriptions, subscription by subscription. */
  function Expand(subs: seq<string>, metadata: seq<string>): seq<string> {
    if subs == [] then []
    else Expand(subs[..|subs| - 1], metadata) + Matching(metadata, subs[|subs| - 1])
  }

  lemma {:induction false} MatchingHas(metadata: seq<string>, sub: string, name: string)
    ensures name in Matching(metadata, sub) <==> name in metadata && Selected(name, sub)
  {
    hide Selected;
    if metadata != [] {
      MatchingHas(metadata[..|metadata| - 1], sub, name);
      assert metadata == metadata[..|metadata| - 1] + [metadata[|metadata| - 1]];
    }
  }

  /** Some subscription selects the name. */
  predicate Wanted(name: string, subs: seq<string>) {
    exists sub :: sub in subs && Selected(name, sub)
  }

  lemma WantedAppend(name: string, subs: seq<string>, sub: string)
    ensures Wanted(name, subs + [sub]) <==> Wanted(name, subs) || Selected(name, sub)
  {
    hide Selected;
    if s :| s in subs && Selected(name, s) {
      assert s in subs + [sub];
    }
    assert sub in subs + [sub];
  }

  lemma {:induction false} ExpandHas(subs: seq<string>, metadata: seq<string>, name: string)
    ensures name in Expand(subs, metadata) <==> name in metadata && Wanted(name, subs)
  {
    hide Selected;
    if subs != [] {
      hide Wanted;
      var init, last := subs[..|subs| - 1], subs[|subs| - 1];
      ExpandHas(init, metadata, name);
      MatchingHas(metadata, last, name);
      WantedAppend(name, init, last);
      assert subs == init + [last];
    }
  }

  /** Selection is idempotent: the names selected, taken as subscriptions, select the same names. */
  lemma SelectionIsIdempotent(subs: seq<string>, metadata: seq<string>, name: string)
    ensures var once := Expand(subs, metadata);
            name in Expand(once, metadata) <==> name in once
  {
    var once := Expand(subs, metadata);
    ExpandHas(subs, metadata, name);
    ExpandHas(once, metadata, name);
    if name in once {
      ContainsSelf(name);
      assert Selected(name, name);
    }
    if name in Expand(once, metadata) {
      var mid :| mid in once && Selected(name, mid);
      ExpandHas(subs, metadata, mid);
      var sub :| sub in subs && Selected(mid, sub);
      ContainsTransitive(name, mid, sub);
      assert Selected(name, sub);
    }
  }
  // ----- What selection means, on the names themselves

  /** The name is something, then the part, then something. */
  ghost predicate HasPart(name: string, part: string) {
    exists a: string, b: string :: name == a + part + b
  }

  lemma ContainsIsPart(name: string, part: string)
    ensures Contains(name, part) <==> HasPart(name, part)
  {
    if i :| 0 <= i <= |name| && OccursAt(name, part, i) {
      assert name == name[..i] + part + name[i + |part|..];
    }
    if a, b :| name == a + part + b {
      assert name[|a|..] == part + b;
      assert OccursAt(name, part, |a|);
    }
  }

  /** One or more decimal digits. */
  predicate IsNumber(s: string) {
    s != "" && forall i :: 0 <= i < |s| ==> '0' <= s[i] <= '9'
  }

  /** One or more letters, digits and underscores. */
  predicate IsWord(s: string) {
    s != "" && forall i :: 0 <= i < |s| ==>
      'a' <= s[i] <= 'z' || 'A' <= s[i] <= 'Z' || '0' <= s[i] <= '9' || s[i] == '_'
  }

  /** The name of a trading result: prefix, word, dot, number, underscore, number. */
  ghost predicate IsTradingName(name: string) {
    exists t: Trading ::
      && IsWord(t.word) && IsNumber(t.major) && IsNumber(t.minor)
      && name == "trading_result." + (t.word + ("." + (t.major + ("_" + t.minor))))
  }

  lemma PartsAreWords(t: Trading)
    ensures WellFormed(t) <==> IsWord(t.word) && IsNumber(t.major) && IsNumber(t.minor)
  {
  }

  lemma TradingNames(name: string)
    ensures IsTradingName(name) <==> Parse(name).Some?
  {
    hide Parse, WellFormed, IsWord, IsNumber;
    if Parse(name).Some? {
      PrintOfParse(name);
      PartsAreWords(Parse(name).value);
      assert name == Print(Parse(name).value);
    }
    if t: Trading :| IsWord(t.word) && IsNumber(t.major) && IsNumber(t.minor)
                     && name == "trading_result." + (t.word + ("." + (t.major + ("_" + t.minor)))) {
      PartsAreWords(t);
      assert name == Print(t);
      ParseOfPrint(t);
    }
  }

  /** What is selected: the names of the metadata that have a subscription as a part; but a name that
      has the trading prefix as a part must be the name of a trading result. */
  ghost predicate Picked(name: string, subs: seq<string>, metadata: seq<string>) {
    && name in metadata
    && (exists sub :: sub in subs && HasPart(name, sub))
    && (HasPart(name, "trading_result.") ==> IsTradingName(name))
  }

  lemma ExpandPicks(subs: seq<string>, metadata: seq<string>, name: string)
    ensures name in Expand(subs, metadata) <==> Picked(name, subs, metadata)
  {
    hide Contains, HasPart, IsTradingName;
    ExpandHas(subs, metadata, name);
    ContainsIsPart(name, PREFIX);
    TradingNames(name);
    forall sub ensures Contains(name, sub) <==> HasPart(name, sub) {
      ContainsIsPart(name, sub);
    }
    if sub :| sub in subs && HasPart(name, sub) {
      assert Contains(name, sub);
    }
  }

  /** The expression is that of trading-result names. */
  lemma PatternIsTradingName(name: string)
    ensures Accepts(PATTERN, name) <==> IsTradingName(name)
  {
    MatcherIsExact(name);
    TradingNames(name);
  }

  /** `names` are the metadata at the indices `ix`, which are, in order, those of the selected names. */
  ghost predicate Filters(metadata: seq<string>, sub: string, ix: seq<nat>, names: seq<string>) {
    && |names| == |ix|
    && (forall k :: 0 < k < |ix| ==> ix[k - 1] < ix[k])
    && (forall k :: 0 <= k < |ix| ==> ix[k] < |metadata| && names[k] == metadata[ix[k]])
    && (forall i: nat :: i in ix <==> i < |metadata| && Selected(metadata[i], sub))
  }

  lemma FiltersNext(metadata: seq<string>, sub: string, ix: seq<nat>, names: seq<string>,
                    name: string)
    requires Filters(metadata, sub, ix, names)
    ensures Selected(name, sub) ==>
              Filters(metadata + [name], sub, ix + [|metadata|], names + [name])
    ensures !Selected(name, sub) ==> Filters(metadata + [name], sub, ix, names)
  {
    hide Selected;
    forall i: nat ensures i in ix + [|metadata|] <==> i in ix || i == |metadata| {
    }
  }

  /** The names selected by one subscription stand in the order of the metadata, each as often as
      there. */
  lemma {:induction false} MatchingInOrder(metadata: seq<string>, sub: string)
      returns (ix: seq<nat>)
    ensures Filters(metadata, sub, ix, Matching(metadata, sub))
  {
    hide Selected;
    if metadata == [] {
      ix := [];
    } else {
      hide Filters;
      var init, name := metadata[..|metadata| - 1], metadata[|metadata| - 1];
      ix := MatchingInOrder(init, sub);
      FiltersNext(init, sub, ix, Matching(init, sub), name);
      assert init + [name] == metadata;
      if Selected(name, sub) {
        ix := ix + [|init|];
      } else {
        assert Matching(metadata, sub) == Matching(init, sub);
      }
    }
  }

  /** Expanding goes subscription by subscription. */
  lemma {:induction false} ExpandAppends(subs: seq<string>, more: seq<string>,
                                         metadata: seq<string>)
    ensures Expand(subs + more, metadata) == Expand(subs, metadata) + Expand(more, metadata)
  {
    hide Matching;
    if more == [] {
      assert subs + more == subs;
    } else {
      var init, last := more[..|more| - 1], more[|more| - 1];
      ExpandAppends(subs, init, metadata);
      assert (subs + more)[..|subs + more| - 1] == subs + init;
      assert Expand(subs + more, metadata) == Expand(subs + init, metadata) + Matching(metadata, last);
    }
  }
}
