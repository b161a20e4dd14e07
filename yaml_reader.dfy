/** The YAML configuration reader: descend into a dotted base key, then
    substitute `${NAME}` / `${NAME:DEFAULT}` tokens from the environment.
    The file system and the YAML parser are not modelled: the reader is
    handed the outcome of opening and parsing the file. */
module YamlReader {
  import opened Wrappers

  /** A parsed YAML document. Mapping keys are strings. */
  datatype Yaml =
    | Map(entries: map<string, Yaml>)
    | List(items: seq<Yaml>)
    | Str(s: string)
    | Other(atom: Atom)

  /** Scalars other than strings; the reader never looks inside them. */
  datatype Atom = Null | Boolean(b: bool) | Integer(i: int) | Floating(text: string)

  /** The environment the process sees, as a name-to-value table. */
  type Environment = map<string, string>

  // ---------------------------------------------------------------------
  // Splitting the base key on '.'
  // ---------------------------------------------------------------------

  /** Index of the first occurrence of `c` in `s`. */
  function IndexOf(s: string, c: char): (i: nat)
    requires c in s
    ensures i < |s| && s[i] == c && c !in s[..i]
  {
    if s[0] == c then 0
    else
      var j := IndexOf(s[1..], c);
      assert s[..j + 1] == [s[0]] + s[1..][..j];
      j + 1
  }

  /** The pieces glued back together with `sep` between them. */
  function Join(parts: seq<string>, sep: char): string
    decreases |parts|
  {
    if |parts| == 0 then ""
    else if |parts| == 1 then parts[0]
    else parts[0] + [sep] + Join(parts[1..], sep)
  }

  /** Python's `str.split(sep)` for a one-character separator: the
      pieces between separators, empty ones included. */
  function Split(s: string, sep: char): (parts: seq<string>)
    ensures |parts| >= 1
    ensures forall i :: 0 <= i < |parts| ==> sep !in parts[i]
    ensures Join(parts, sep) == s
    decreases |s|
  {
    if sep !in s then [s]
    else
      var i := IndexOf(s, sep);
      var rest := Split(s[i + 1..], sep);
      assert ([s[..i]] + rest)[1..] == rest;
      assert s == s[..i] + [sep] + s[i + 1..];
      [s[..i]] + rest
  }

  /** The first occurrence is the only index before which `c` is absent. */
  lemma IndexOfIsFirst(s: string, c: char, p: nat)
    requires p < |s| && s[p] == c && c !in s[..p]
    ensures IndexOf(s, c) == p
  {
  }

  /** Splitting undoes joining: pieces that hold no separator come back
      exactly, so Split and Join are inverse on such pieces. */
  lemma {:induction false} SplitJoin(parts: seq<string>, sep: char)
    requires |parts| >= 1
    requires forall i :: 0 <= i < |parts| ==> sep !in parts[i]
    ensures Split(Join(parts, sep), sep) == parts
    decreases |parts|
  {
    if |parts| > 1 {
      var s := Join(parts, sep);
      var rest := parts[1..];
      var p := |parts[0]|;
      assert s == parts[0] + [sep] + Join(rest, sep);
      assert s[..p] == parts[0];
      IndexOfIsFirst(s, sep, p);
      assert s[p + 1..] == Join(rest, sep);
      SplitJoin(rest, sep);
    }
  }

  // ---------------------------------------------------------------------
  // Walking the base key
  // ---------------------------------------------------------------------

  /** Why a walk down the base key stopped: a segment missing from a
      mapping (Python's KeyError), or a segment applied to a value that is
      not a mapping (Python's TypeError). */
  datatype WalkError = KeyNotFound(key: string) | NotSubscriptable(key: string)

  /** `data[keys[0]][keys[1]]...`, segment by segment from the left. */
  function Walk(data: Yaml, keys: seq<string>): Result<Yaml, WalkError>
    decreases |keys|
  {
    if keys == [] then Success(data)
    else
      match data
      case Map(m) =>
        if keys[0] in m then Walk(m[keys[0]], keys[1..]) else Failure(KeyNotFound(keys[0]))
      case _ => Failure(NotSubscriptable(keys[0]))
  }

  /** What `_filter_data_with_base_key` computes: no base key leaves the
      document alone, otherwise the walk along its dot-separated segments. */
  function Filter(data: Yaml, baseKey: Option<string>): Result<Yaml, WalkError>
  {
    match baseKey
    case None => Success(data)
    case Some(key) => Walk(data, Split(key, '.'))
  }

  /** Walking a path in two stretches is walking it in one: the walk goes
      segment by segment, left to right, and stops at the first failure. */
  lemma {:induction false} WalkAppend(data: Yaml, first: seq<string>, second: seq<string>)
    ensures Walk(data, first + second) ==
            match Walk(data, first)
            case Success(v) => Walk(v, second)
            case Failure(e) => Failure(e)
    decreases |first|
  {
    if first == [] {
      assert first + second == second;
    } else {
      assert (first + second)[0] == first[0];
      assert (first + second)[1..] == first[1..] + second;
      match data
      case Map(m) =>
        if first[0] in m {
          WalkAppend(m[first[0]], first[1..], second);
        }
      case _ =>
    }
  }

  /** Any absent segment ends the walk with KeyNotFound for that segment,
      whatever the segments after it are. */
  lemma WalkMissingSegment(data: Yaml, keys: seq<string>, i: nat, m: map<string, Yaml>)
    requires i < |keys|
    requires Walk(data, keys[..i]) == Success(Map(m))
    requires keys[i] !in m
    ensures Walk(data, keys) == Failure(KeyNotFound(keys[i]))
  {
    assert keys == keys[..i] + keys[i..];
    WalkAppend(data, keys[..i], keys[i..]);
  }

  /** A two-level base key "a.b" selects exactly `doc[a][b]`. */
  lemma FilterTwoLevels(doc: map<string, Yaml>, a: string, b: string, inner: map<string, Yaml>)
    requires '.' !in a && '.' !in b
    requires a in doc && doc[a] == Map(inner) && b in inner
    ensures Filter(Map(doc), Some(a + "." + b)) == Success(inner[b])
  {
    var parts := [a, b];
    assert parts[1..] == [b];
    assert Join(parts, '.') == a + "." + b;
    SplitJoin(parts, '.');
    assert Split(a + "." + b, '.') == parts;
    assert [b][1..] == [];
    assert Walk(Map(inner), [b]) == Success(inner[b]);
    assert Walk(Map(doc), parts) == Walk(Map(inner), [b]);
  }

  /** `_filter_data_with_base_key`: pop the segments one at a time and
      descend. */
  method FilterWithBaseKey(data: Yaml, baseKey: Option<string>) returns (r: Result<Yaml, WalkError>)
    ensures r == Filter(data, baseKey)
  {
    if baseKey.None? {
      return Success(data);
    }
    var keys := Split(baseKey.value, '.');
    ghost var path := keys;
    var current := data;
    while |keys| != 0
      invariant Walk(data, path) == Walk(current, keys)
      decreases |keys|
    {
      var key := keys[0];
      keys := keys[1..];
      match current
      case Map(m) =>
        if key !in m {
          return Failure(KeyNotFound(key));
        }
        current := m[key];
      case _ =>
        return Failure(NotSubscriptable(key));
    }
    return Success(current);
  }

  // ---------------------------------------------------------------------
  // The token grammar
  // ---------------------------------------------------------------------

  /** The class `[A-Za-z0-9\-\_]` of the token pattern. */
  predicate IsNameChar(c: char)
  {
    ('A' <= c <= 'Z') || ('a' <= c <= 'z') || ('0' <= c <= '9') || c == '-' || c == '_'
  }

  predicate IsName(s: string)
  {
    forall i :: 0 <= i < |s| ==> IsNameChar(s[i])
  }

  /** `${` + body + `}` */
  function Braced(body: string): string
  {
    "${" + body + "}"
  }

  /** A braced name, colon and default, split after the colon. */
  lemma BracedAfterColon(name: string, default: string)
    ensures Braced(name + ":" + default) == ("${" + name + ":") + default + "}"
  {
    var open := "${" + name + ":";
    var text := Braced(name + ":" + default);
    assert |text| == |open| + |default| + 1;
    forall k | 0 <= k < |text| ensures text[k] == (open + default + "}")[k] {
      if k < |open| {
        assert open[k] == ("${" + name + ":")[k];
      }
    }
  }

  /** The strings the token pattern matches, stated declaratively: a
      non-empty name in braces, or a name, a colon and a possibly empty
      default in braces. A token without a colon has the empty default. */
  predicate IsTokenText(text: string, name: string, default: string)
  {
    |name| > 0 && IsName(name) && IsName(default) &&
    (text == Braced(name + ":" + default) || (default == "" && text == Braced(name)))
  }

  /** End of the longest run of name characters starting at `i`. */
  function RunEnd(s: string, i: nat): (j: nat)
    requires i <= |s|
    ensures i <= j <= |s|
    ensures forall k :: i <= k < j ==> IsNameChar(s[k])
    ensures j == |s| || !IsNameChar(s[j])
    decreases |s| - i
  {
    if i < |s| && IsNameChar(s[i]) then RunEnd(s, i + 1) else i
  }

  /** The slice from `$` to `}` is that of a braced body. */
  lemma BracedSlice(s: string, i: nat, j: nat)
    requires i + 2 <= j < |s| && s[i] == '$' && s[i + 1] == '{' && s[j] == '}'
    ensures s[i..j + 1] == Braced(s[i + 2..j])
  {
    assert s[i..j + 1] == [s[i], s[i + 1]] + s[i + 2..j] + [s[j]];
  }

  /** The slice from `$` to `}` is that of a braced name, colon and default. */
  lemma BracedDefaultSlice(s: string, i: nat, j: nat, k: nat)
    requires i + 2 <= j < k < |s| && s[i] == '$' && s[i + 1] == '{' && s[j] == ':' && s[k] == '}'
    ensures s[i..k + 1] == Braced(s[i + 2..j] + ":" + s[j + 1..k])
  {
    assert s[i..k + 1] == [s[i], s[i + 1]] + s[i + 2..j] + [s[j]] + s[j + 1..k] + [s[k]];
  }

  /** A match of the token pattern: it covers `s[start..end]`. */
  datatype Token = Token(start: nat, end: nat, name: string, default: string)

  /** The token that starts at index `i`, if any. The name is the longest
      run of name characters after `${`, which is what the greedy first
      group of the pattern takes; no other split of the same text matches. */
  function TokenAt(s: string, i: nat): (t: Option<Token>)
    requires i <= |s|
    ensures t.Some? ==> t.value.start == i && i < t.value.end <= |s|
  {
    if i + 1 < |s| && s[i] == '$' && s[i + 1] == '{' then
      var j := RunEnd(s, i + 2);
      if j == i + 2 || j == |s| then None
      else if s[j] == '}' then
        Some(Token(i, j + 1, s[i + 2..j], ""))
      else if s[j] == ':' then
        var k := RunEnd(s, j + 1);
        if k < |s| && s[k] == '}' then
          Some(Token(i, k + 1, s[i + 2..j], s[j + 1..k]))
        else None
      else None
    else None
  }

  /** Every match is a text of the token language: TokenAt is sound. */
  lemma TokenAtSound(s: string, i: nat)
    requires i <= |s|
    ensures TokenAt(s, i).Some? ==>
              IsTokenText(s[i..TokenAt(s, i).value.end], TokenAt(s, i).value.name, TokenAt(s, i).value.default)
  {
    if i + 1 < |s| && s[i] == '$' && s[i + 1] == '{' {
      var j := RunEnd(s, i + 2);
      if j != i + 2 && j != |s| {
        if s[j] == '}' {
          BracedSlice(s, i, j);
        } else if s[j] == ':' {
          var k := RunEnd(s, j + 1);
          if k < |s| && s[k] == '}' {
            BracedDefaultSlice(s, i, j, k);
          }
        }
      }
    }
  }

  lemma RunEndStopsAt(s: string, i: nat, j: nat)
    requires i <= j <= |s|
    requires forall k :: i <= k < j ==> IsNameChar(s[k])
    requires j == |s| || !IsNameChar(s[j])
    ensures RunEnd(s, i) == j
    decreases j - i
  {
    if i < j {
      RunEndStopsAt(s, i + 1, j);
    }
  }

  /** A slice of a slice is a slice. */
  lemma SubSlice(s: string, i: nat, text: string, a: nat, b: nat)
    requires i + |text| <= |s| && s[i..i + |text|] == text && a <= b <= |text|
    ensures s[i + a..i + b] == text[a..b]
  {
    forall m | 0 <= m < b - a ensures s[i + a..i + b][m] == text[a..b][m] {
      assert s[i..i + |text|][a + m] == s[i + a + m];
    }
  }

  /** The first and middle parts of a concatenation are slices of it. */
  lemma MiddleSlice(a: string, b: string, c: string)
    ensures (a + b + c)[..|a|] == a
    ensures (a + b + c)[|a|..|a| + |b|] == b
  {
  }

  /** One character of a slice. */
  lemma SliceAt(s: string, i: nat, text: string, m: nat)
    requires i + |text| <= |s| && s[i..i + |text|] == text && m < |text|
    ensures s[i + m] == text[m]
  {
    assert s[i..i + |text|][m] == s[i + m];
  }

  /** A run of name characters ends where a non-name character stands. */
  lemma RunEndOverName(s: string, a: nat, name: string)
    requires a + |name| <= |s| && s[a..a + |name|] == name && IsName(name)
    requires a + |name| == |s| || !IsNameChar(s[a + |name|])
    ensures RunEnd(s, a) == a + |name|
  {
    forall m | a <= m < a + |name| ensures IsNameChar(s[m]) {
      assert s[m] == s[a..a + |name|][m - a];
    }
    RunEndStopsAt(s, a, a + |name|);
  }

  /** Where the parts of a token with a default stand in its text. */
  lemma DefaultTokenParts(name: string, default: string)
    ensures var text := Braced(name + ":" + default);
            var n := |name|;
            |text| == n + |default| + 4 &&
            text[0] == '$' && text[1] == '{' && text[2 + n] == ':' && text[|text| - 1] == '}' &&
            text[2..2 + n] == name && text[3 + n..3 + n + |default|] == default
  {
    var text := Braced(name + ":" + default);
    assert text == "${" + name + ":" + default + "}";
    assert text == ("${" + name) + ":" + default + "}";
  }

  /** Where the parts of a token without a default stand in its text. */
  lemma PlainTokenParts(name: string)
    ensures var text := Braced(name);
            |text| == |name| + 3 &&
            text[0] == '$' && text[1] == '{' && text[|text| - 1] == '}' &&
            text[2..2 + |name|] == name
  {
    var text := Braced(name);
    assert text == "${" + name + "}";
  }

  /** A token is recognised from its delimiters and its two runs. */
  lemma TokenFromParts(s: string, i: nat, name: string, default: string)
    requires |name| > 0 && IsName(name) && IsName(default)
    requires i + |name| + |default| + 4 <= |s|
    requires s[i] == '$' && s[i + 1] == '{'
    requires s[i + 2 + |name|] == ':' && s[i + 3 + |name| + |default|] == '}'
    requires s[i + 2..i + 2 + |name|] == name
    requires s[i + 3 + |name|..i + 3 + |name| + |default|] == default
    ensures TokenAt(s, i) == Some(Token(i, i + |name| + |default| + 4, name, default))
  {
    RunEndOverName(s, i + 2, name);
    RunEndOverName(s, i + 3 + |name|, default);
  }

  /** A plain token is recognised from its delimiters and its name run. */
  lemma PlainTokenFromParts(s: string, i: nat, name: string)
    requires |name| > 0 && IsName(name)
    requires i + |name| + 3 <= |s|
    requires s[i] == '$' && s[i + 1] == '{' && s[i + 2 + |name|] == '}'
    requires s[i + 2..i + 2 + |name|] == name
    ensures TokenAt(s, i) == Some(Token(i, i + |name| + 3, name, ""))
  {
    RunEndOverName(s, i + 2, name);
  }

  lemma TokenWithDefaultAt(s: string, i: nat, name: string, default: string)
    requires |name| > 0 && IsName(name) && IsName(default)
    requires var text := Braced(name + ":" + default);
             i + |text| <= |s| && s[i..i + |text|] == text
    ensures TokenAt(s, i) == Some(Token(i, i + |name| + |default| + 4, name, default))
  {
    var text := Braced(name + ":" + default);
    DefaultTokenParts(name, default);
    var n := |name|;
    SliceAt(s, i, text, 0);
    SliceAt(s, i, text, 1);
    SliceAt(s, i, text, 2 + n);
    SliceAt(s, i, text, |text| - 1);
    SubSlice(s, i, text, 2, 2 + n);
    SubSlice(s, i, text, 3 + n, 3 + n + |default|);
    TokenFromParts(s, i, name, default);
  }

  lemma PlainTokenAt(s: string, i: nat, name: string)
    requires |name| > 0 && IsName(name)
    requires var text := Braced(name);
             i + |text| <= |s| && s[i..i + |text|] == text
    ensures TokenAt(s, i) == Some(Token(i, i + |name| + 3, name, ""))
  {
    var text := Braced(name);
    PlainTokenParts(name);
    SliceAt(s, i, text, 0);
    SliceAt(s, i, text, 1);
    SliceAt(s, i, text, |text| - 1);
    SubSlice(s, i, text, 2, 2 + |name|);
    PlainTokenFromParts(s, i, name);
  }

  /** Every text the pattern describes is found where it stands, with its
      own name and default: TokenAt matches exactly the token language. */
  lemma TokenAtComplete(s: string, i: nat, text: string, name: string, default: string)
    requires IsTokenText(text, name, default)
    requires i + |text| <= |s| && s[i..i + |text|] == text
    ensures TokenAt(s, i) == Some(Token(i, i + |text|, name, default))
  {
    if text == Braced(name + ":" + default) {
      TokenWithDefaultAt(s, i, name, default);
    } else {
      PlainTokenAt(s, i, name);
    }
  }

  /** Whether no substring of `s` matches the token pattern. */
  predicate NoToken(s: string)
  {
    forall i :: 0 <= i <= |s| ==> TokenAt(s, i).None?
  }

  /** `re.search`: the leftmost token at or after `from`. */
  function FindToken(s: string, from: nat): (t: Option<Token>)
    requires from <= |s|
    ensures t.Some? ==> from <= t.value.start <= |s| && TokenAt(s, t.value.start) == t
    ensures t.Some? ==> forall i :: from <= i < t.value.start ==> TokenAt(s, i).None?
    ensures t.None? ==> forall i :: from <= i <= |s| ==> TokenAt(s, i).None?
    decreases |s| - from
  {
    if TokenAt(s, from).Some? then TokenAt(s, from)
    else if from == |s| then None
    else FindToken(s, from + 1)
  }

  // ---------------------------------------------------------------------
  // str.replace and the substitution loop
  // ---------------------------------------------------------------------

  /** Python's `str.replace(pat, rep)`: every non-overlapping occurrence of
      `pat`, scanning from the left, becomes `rep`. */
  function ReplaceAll(s: string, pat: string, rep: string): string
    requires |pat| > 0
    decreases |s|
  {
    if |s| < |pat| then s
    else if s[..|pat|] == pat then rep + ReplaceAll(s[|pat|..], pat, rep)
    else [s[0]] + ReplaceAll(s[1..], pat, rep)
  }

  /** A string in which some character of `pat` never occurs is left alone. */
  lemma {:induction false} ReplaceAllAbsent(s: string, pat: string, rep: string, c: char)
    requires |pat| > 0 && c in pat && c !in s
    ensures ReplaceAll(s, pat, rep) == s
    decreases |s|
  {
    if |s| >= |pat| {
      ReplaceAllAbsent(s[1..], pat, rep, c);
      assert s == [s[0]] + s[1..];
    }
  }

  /** `pat` starts with the only '$' it contains, as every token text does. */
  predicate DollarOnlyAtHead(pat: string)
  {
    |pat| > 0 && pat[0] == '$' && forall k :: 0 < k < |pat| ==> pat[k] != '$'
  }

  /** Each occurrence is replaced, independently of what surrounds it: no
      occurrence can straddle one that is replaced, because a second '$'
      would have to fall inside `pat`. */
  /** An occurrence of `pat` at the head of `a + pat + b` cannot reach
      into the later `pat`, whose head is a '$'. */
  lemma MatchAtHeadIsLong(a: string, pat: string, b: string)
    requires DollarOnlyAtHead(pat) && |a| > 0
    requires |a + pat + b| >= |pat| && (a + pat + b)[..|pat|] == pat
    ensures |a| >= |pat|
  {
    var s := a + pat + b;
    assert s[|a|] == '$';
    forall k | 0 < k < |pat| ensures s[k] != '$' {
      assert s[k] == s[..|pat|][k];
    }
  }

  /** The step of ReplaceAllSplit where `a` starts with `pat`. */
  lemma SplitMatchStep(a: string, b: string, pat: string, rep: string)
    requires 0 < |pat| <= |a| && a[..|pat|] == pat
    requires ReplaceAll(a[|pat|..] + pat + b, pat, rep) ==
             ReplaceAll(a[|pat|..], pat, rep) + rep + ReplaceAll(b, pat, rep)
    ensures ReplaceAll(a + pat + b, pat, rep) == ReplaceAll(a, pat, rep) + rep + ReplaceAll(b, pat, rep)
  {
    var s := a + pat + b;
    var n := |pat|;
    assert s[..n] == pat;
    assert s[n..] == a[n..] + pat + b;
  }

  /** The step of ReplaceAllSplit where `a` does not start with `pat`. */
  lemma SplitSkipStep(a: string, b: string, pat: string, rep: string)
    requires 0 < |pat| && 0 < |a|
    requires (a + pat + b)[..|pat|] != pat
    requires ReplaceAll(a[1..] + pat + b, pat, rep) ==
             ReplaceAll(a[1..], pat, rep) + rep + ReplaceAll(b, pat, rep)
    ensures ReplaceAll(a + pat + b, pat, rep) == ReplaceAll(a, pat, rep) + rep + ReplaceAll(b, pat, rep)
  {
    var s := a + pat + b;
    var n := |pat|;
    DropFirst(a, pat, b);
    assert ReplaceAll(s, pat, rep) == [a[0]] + ReplaceAll(a[1..] + pat + b, pat, rep);
    if |a| >= n {
      assert a[..n] == s[..n];
    }
    SkipHead(a, pat, rep);
  }

  lemma DropFirst(a: string, pat: string, b: string)
    requires 0 < |a|
    ensures (a + pat + b)[0] == a[0] && (a + pat + b)[1..] == a[1..] + pat + b
  {
  }

  /** A string without an occurrence of `pat` at its head keeps its first
      character. */
  lemma SkipHead(a: string, pat: string, rep: string)
    requires 0 < |pat| && 0 < |a|
    requires |a| < |pat| || a[..|pat|] != pat
    ensures ReplaceAll(a, pat, rep) == [a[0]] + ReplaceAll(a[1..], pat, rep)
  {
    if |a| < |pat| {
      assert a == [a[0]] + a[1..];
    }
  }

  lemma {:induction false} ReplaceAllSplit(a: string, b: string, pat: string, rep: string)
    requires DollarOnlyAtHead(pat)
    ensures ReplaceAll(a + pat + b, pat, rep) == ReplaceAll(a, pat, rep) + rep + ReplaceAll(b, pat, rep)
    decreases |a|
  {
    var n := |pat|;
    if |a| == 0 {
      assert a + pat + b == pat + b;
      assert (pat + b)[..n] == pat && (pat + b)[n..] == b;
    } else if (a + pat + b)[..n] == pat {
      MatchAtHeadIsLong(a, pat, b);
      assert a[..n] == (a + pat + b)[..n];
      ReplaceAllSplit(a[n..], b, pat, rep);
      SplitMatchStep(a, b, pat, rep);
    } else {
      ReplaceAllSplit(a[1..], b, pat, rep);
      SplitSkipStep(a, b, pat, rep);
    }
  }

  /** The whole string is one occurrence. */
  lemma ReplaceAllWhole(pat: string, rep: string)
    requires |pat| > 0
    ensures ReplaceAll(pat, pat, rep) == rep
  {
    assert pat[..|pat|] == pat && pat[|pat|..] == [];
  }

  /** One occurrence between texts that each lack some character of
      `pat` is the only one replaced. */
  lemma ReplaceAllOnce(pre: string, pat: string, post: string, rep: string, c1: char, c2: char)
    requires DollarOnlyAtHead(pat) && c1 in pat && c1 !in pre && c2 in pat && c2 !in post
    ensures ReplaceAll(pre + pat + post, pat, rep) == pre + rep + post
  {
    ReplaceAllSplit(pre, post, pat, rep);
    ReplaceAllAbsent(pre, pat, rep, c1);
    ReplaceAllAbsent(post, pat, rep, c2);
  }

  /** Two occurrences among '$'-free text are both replaced. */
  lemma ReplaceAllTwice(pre: string, pat: string, mid: string, post: string, rep: string)
    requires DollarOnlyAtHead(pat) && '$' !in pre && '$' !in mid && '$' !in post
    ensures ReplaceAll(pre + pat + mid + pat + post, pat, rep) == pre + rep + mid + rep + post
  {
    var rest := mid + pat + post;
    assert pre + pat + mid + pat + post == pre + pat + rest;
    ReplaceAllSplit(pre, rest, pat, rep);
    ReplaceAllAbsent(pre, pat, rep, '$');
    ReplaceAllOnce(mid, pat, post, rep, '$', '$');
    assert pre + rep + (mid + rep + post) == pre + rep + mid + rep + post;
  }

  /** Number of '$' characters. */
  function DollarCount(s: string): nat
  {
    multiset(s)['$']
  }

  lemma DollarCountConcat(x: string, y: string)
    ensures DollarCount(x + y) == DollarCount(x) + DollarCount(y)
  {
    assert multiset(x + y) == multiset(x) + multiset(y);
  }

  /** Replacing by a '$'-free string never adds a '$'. */
  lemma {:induction false} ReplaceAllKeepsDollars(s: string, pat: string, rep: string)
    requires |pat| > 0 && '$' !in rep
    ensures DollarCount(ReplaceAll(s, pat, rep)) <= DollarCount(s)
    decreases |s|
  {
    var n := |pat|;
    if |s| >= n {
      if s[..n] == pat {
        ReplaceAllKeepsDollars(s[n..], pat, rep);
        DollarCountConcat(rep, ReplaceAll(s[n..], pat, rep));
        assert s == s[..n] + s[n..];
        DollarCountConcat(s[..n], s[n..]);
      } else {
        ReplaceAllKeepsDollars(s[1..], pat, rep);
        DollarCountConcat([s[0]], ReplaceAll(s[1..], pat, rep));
        assert s == [s[0]] + s[1..];
        DollarCountConcat([s[0]], s[1..]);
      }
    }
  }

  /** When `pat` holds a '$' and occurs at `p`, replacing it by a '$'-free
      string strictly lowers the number of '$': the measure of the loop. */
  lemma {:induction false} ReplaceAllDropsDollar(s: string, pat: string, rep: string, p: nat)
    requires |pat| > 0 && '$' in pat && '$' !in rep
    requires p + |pat| <= |s| && s[p..p + |pat|] == pat
    ensures DollarCount(ReplaceAll(s, pat, rep)) < DollarCount(s)
    decreases |s|
  {
    var n := |pat|;
    assert s[..n] == s[0..n];
    assert DollarCount(pat) > 0;
    if s[..n] == pat {
      ReplaceAllKeepsDollars(s[n..], pat, rep);
      DollarCountConcat(rep, ReplaceAll(s[n..], pat, rep));
      assert s == s[..n] + s[n..];
      DollarCountConcat(s[..n], s[n..]);
    } else {
      assert s[1..][p - 1..p - 1 + n] == s[p..p + n];
      ReplaceAllDropsDollar(s[1..], pat, rep, p - 1);
      DollarCountConcat([s[0]], ReplaceAll(s[1..], pat, rep));
      assert s == [s[0]] + s[1..];
      DollarCountConcat([s[0]], s[1..]);
    }
  }

  /** No value of the environment contains '$'. Under this condition the
      substitution loop terminates; see StepLoopsOnSelfReference for a
      value that makes it spin. */
  predicate EnvDollarFree(env: Environment)
  {
    forall n :: n in env ==> '$' !in env[n]
  }

  /** `os.getenv(name, default)`: the variable's value if it is set, the
      token's default (possibly empty) otherwise. */
  function Lookup(env: Environment, t: Token): string
  {
    if t.name in env then env[t.name] else t.default
  }

  /** One turn of the loop: find the leftmost token and replace every
      occurrence of its text by its value. */
  function Step(s: string, env: Environment): string
  {
    match FindToken(s, 0)
    case None => s
    case Some(t) => ReplaceAll(s, s[t.start..t.end], Lookup(env, t))
  }

  /** The values a step puts in have no '$', and the step removes at
      least one. */
  lemma StepDropsDollar(s: string, env: Environment)
    requires EnvDollarFree(env) && FindToken(s, 0).Some?
    ensures DollarCount(Step(s, env)) < DollarCount(s)
  {
    var t := FindToken(s, 0).value;
    var text := s[t.start..t.end];
    assert text[0] == '$';
    assert '$' !in Lookup(env, t) by {
      if t.name !in env {
        assert IsName(t.default);
      }
    }
    ReplaceAllDropsDollar(s, text, Lookup(env, t), t.start);
  }

  /** What the string branch of `_inject_environment_variables` returns:
      the loop run until `search` finds nothing. */
  function Substitute(s: string, env: Environment): (r: string)
    requires EnvDollarFree(env)
    ensures NoToken(r)
    decreases DollarCount(s)
  {
    if FindToken(s, 0).None? then s
    else
      StepDropsDollar(s, env);
      Substitute(Step(s, env), env)
  }

  /** The string branch: `while True`, `search`, `replace`. */
  method InjectString(s: string, env: Environment) returns (r: string)
    requires EnvDollarFree(env)
    ensures r == Substitute(s, env)
    ensures NoToken(r)
  {
    r := s;
    while true
      invariant Substitute(r, env) == Substitute(s, env)
      decreases DollarCount(r)
    {
      var found := FindToken(r, 0);
      if found.None? {
        break;
      }
      var t := found.value;
      var value := if t.name in env then env[t.name] else t.default;
      StepDropsDollar(r, env);
      r := ReplaceAll(r, r[t.start..t.end], value);
    }
  }

  /** A string with no '$' holds no token. */
  lemma NoDollarNoToken(s: string)
    requires '$' !in s
    ensures FindToken(s, 0) == None
  {
  }

  /** Every token starts with '$'. */
  lemma TokenStartsWithDollar(s: string, i: nat)
    requires i <= |s|
    ensures TokenAt(s, i).Some? ==> s[i] == '$'
  {
  }

  /** The leftmost token is the one at `p` when none starts before it. */
  lemma FirstTokenAt(s: string, p: nat, text: string, name: string, default: string)
    requires p + |text| <= |s| && s[p..p + |text|] == text && IsTokenText(text, name, default)
    requires forall i :: 0 <= i < p ==> TokenAt(s, i).None?
    ensures FindToken(s, 0) == Some(Token(p, p + |text|, name, default))
  {
    TokenAtComplete(s, p, text, name, default);
  }

  /** No token starts inside a '$'-free prefix. */
  lemma NoTokenInDollarFreePrefix(s: string, pre: string)
    requires |pre| <= |s| && s[..|pre|] == pre && '$' !in pre
    ensures forall i :: 0 <= i < |pre| ==> TokenAt(s, i).None?
  {
    forall i | 0 <= i < |pre| ensures TokenAt(s, i).None? {
      TokenStartsWithDollar(s, i);
      assert s[i] == s[..|pre|][i];
    }
  }

  /** The leftmost token of `pre + text + post`, when `pre` has no '$', is
      `text` itself. */
  lemma FirstTokenAfterDollarFree(pre: string, text: string, post: string, name: string, default: string)
    requires '$' !in pre && IsTokenText(text, name, default)
    ensures FindToken(pre + text + post, 0) == Some(Token(|pre|, |pre| + |text|, name, default))
  {
    var s := pre + text + post;
    MiddleSlice(pre, text, post);
    FirstTokenBehindPrefix(s, pre, text, name, default);
  }

  lemma FirstTokenBehindPrefix(s: string, pre: string, text: string, name: string, default: string)
    requires |pre| + |text| <= |s| && s[..|pre|] == pre && s[|pre|..|pre| + |text|] == text
    requires '$' !in pre && IsTokenText(text, name, default)
    ensures FindToken(s, 0) == Some(Token(|pre|, |pre| + |text|, name, default))
  {
    NoTokenInDollarFreePrefix(s, pre);
    FirstTokenAt(s, |pre|, text, name, default);
  }

  /** The value a token takes: the variable's, else the default. */
  function ValueOf(env: Environment, name: string, default: string): (v: string)
    ensures name in env ==> v == env[name]
    ensures name !in env ==> v == default
  {
    Lookup(env, Token(0, 0, name, default))
  }

  /** A token's text holds '$' only at its head, and its value no '$'. */
  lemma TokenTextDollars(text: string, name: string, default: string, env: Environment)
    requires EnvDollarFree(env) && IsTokenText(text, name, default)
    ensures DollarOnlyAtHead(text) && '$' !in ValueOf(env, name, default)
  {
    assert '$' !in name && '$' !in default;
    var body := if text == Braced(name + ":" + default) then name + ":" + default else name;
    assert '$' !in body;
    assert text == "${" + body + "}";
    forall k | 0 < k < |text| ensures text[k] != '$' {
      if 1 < k < |text| - 1 {
        assert text[k] == body[k - 2];
      }
    }
  }

  /** A step replaces the text of the leftmost token by its value. */
  lemma StepReplaces(s: string, t: Token, text: string, env: Environment)
    requires FindToken(s, 0) == Some(t) && s[t.start..t.end] == text
    ensures Step(s, env) == ReplaceAll(s, text, ValueOf(env, t.name, t.default))
  {
  }

  /** Text without '$' is left as it is. */
  lemma SubstituteDollarFree(s: string, env: Environment)
    requires EnvDollarFree(env) && '$' !in s
    ensures Substitute(s, env) == s
  {
    NoDollarNoToken(s);
  }

  /** A string that one step turns into '$'-free text ends there. */
  lemma SubstituteOneStep(s: string, s1: string, env: Environment)
    requires EnvDollarFree(env) && FindToken(s, 0).Some? && Step(s, env) == s1 && '$' !in s1
    ensures Substitute(s, env) == s1
  {
    SubstituteDollarFree(s1, env);
  }

  /** A step does not change what the loop ends with. */
  lemma SubstituteThroughStep(s: string, s1: string, env: Environment)
    requires EnvDollarFree(env) && FindToken(s, 0).Some? && Step(s, env) == s1
    ensures Substitute(s, env) == Substitute(s1, env)
  {
  }

  /** A single token among '$'-free text: `${NAME}` and `${NAME:DEF}` become
      the variable's value when it is set (the default loses), else the
      default, else the empty string. */
  lemma SubstituteOneToken(pre: string, text: string, post: string, name: string, default: string, env: Environment)
    requires EnvDollarFree(env)
    requires '$' !in pre && '$' !in post && IsTokenText(text, name, default)
    ensures Substitute(pre + text + post, env) ==
            pre + (if name in env then env[name] else default) + post
  {
    var s := pre + text + post;
    var t := Token(|pre|, |pre| + |text|, name, default);
    var v := ValueOf(env, name, default);
    FirstTokenAfterDollarFree(pre, text, post, name, default);
    assert s[t.start..t.end] == text;
    StepReplaces(s, t, text, env);
    TokenTextDollars(text, name, default, env);
    ReplaceAllOnce(pre, text, post, v, '$', '$');
    SubstituteOneStep(s, pre + v + post, env);
  }

  /** A string that is one token becomes that token's value. */
  lemma SubstituteSingleToken(text: string, name: string, default: string, env: Environment)
    requires EnvDollarFree(env) && IsTokenText(text, name, default)
    ensures Substitute(text, env) == ValueOf(env, name, default)
  {
    var t := Token(0, |text|, name, default);
    var v := ValueOf(env, name, default);
    assert text[0..|text|] == text;
    FirstTokenAt(text, 0, text, name, default);
    StepReplaces(text, t, text, env);
    ReplaceAllWhole(text, v);
    TokenTextDollars(text, name, default, env);
    SubstituteOneStep(text, v, env);
  }

  /** Every occurrence of a token's text goes in the same step: two copies
      of one token among '$'-free text both take its value. */
  lemma SubstituteRepeatedToken(pre: string, text: string, mid: string, post: string,
                                name: string, default: string, env: Environment)
    requires EnvDollarFree(env)
    requires '$' !in pre && '$' !in mid && '$' !in post && IsTokenText(text, name, default)
    ensures Substitute(pre + text + mid + text + post, env) ==
            var v := if name in env then env[name] else default;
            pre + v + mid + v + post
  {
    var s := pre + text + mid + text + post;
    var t := Token(|pre|, |pre| + |text|, name, default);
    var v := ValueOf(env, name, default);
    assert s == pre + text + (mid + text + post);
    FirstTokenAfterDollarFree(pre, text, mid + text + post, name, default);
    assert s[t.start..t.end] == text;
    StepReplaces(s, t, text, env);
    TokenTextDollars(text, name, default, env);
    ReplaceAllTwice(pre, text, mid, post, v);
    SubstituteOneStep(s, pre + v + mid + v + post, env);
  }

  /** In `${OUTER:${INNER}}` no token starts before the inner one: at the
      head the default run stops at the inner '$', which is no '}'. */
  lemma NestedOpeningHasNoToken(outer: string, inner: string)
    requires |outer| > 0 && IsName(outer) && |inner| > 0 && IsName(inner)
    ensures var s := Braced(outer + ":" + Braced(inner));
            forall i :: 0 <= i < |outer| + 3 ==> TokenAt(s, i).None?
  {
    var s := Braced(outer + ":" + Braced(inner));
    var n := |outer|;
    DefaultTokenParts(outer, Braced(inner));
    PlainTokenParts(inner);
    assert s[3 + n] == Braced(inner)[0];
    RunEndOverName(s, 2, outer);
    RunEndStopsAt(s, 3 + n, 3 + n);
    forall i | 0 < i < n + 3 ensures TokenAt(s, i).None? {
      TokenStartsWithDollar(s, i);
      if 2 <= i < 2 + n {
        assert s[i] == s[2..2 + n][i - 2];
      }
    }
  }

  /** The leftmost token of `${OUTER:${INNER}}` is the inner one. */
  lemma NestedFirstToken(outer: string, inner: string)
    requires |outer| > 0 && IsName(outer) && |inner| > 0 && IsName(inner)
    ensures FindToken(Braced(outer + ":" + Braced(inner)), 0) ==
            Some(Token(|outer| + 3, |outer| + |inner| + 6, inner, ""))
  {
    var pre := "${" + outer + ":";
    var innerText := Braced(inner);
    var s := pre + innerText + "}";
    assert s == Braced(outer + ":" + Braced(inner));
    NestedOpeningHasNoToken(outer, inner);
    assert IsTokenText(innerText, inner, "");
    assert s[|pre|..|pre| + |innerText|] == innerText;
    FirstTokenAt(s, |pre|, innerText, inner, "");
  }

  /** The closing brace of the inner token is its first '}'. */
  lemma ClosingBrace(outer: string, inner: string)
    requires IsName(outer)
    ensures '}' in Braced(inner) && '}' !in "${" + outer + ":"
  {
    assert Braced(inner)[|inner| + 2] == '}';
    assert '}' !in outer;
  }

  /** The first step on `${OUTER:${INNER}}` leaves `${OUTER:value}`. */
  lemma NestedStep(outer: string, inner: string, env: Environment)
    requires EnvDollarFree(env)
    requires |outer| > 0 && IsName(outer) && |inner| > 0 && IsName(inner)
    ensures Step(Braced(outer + ":" + Braced(inner)), env) == Braced(outer + ":" + ValueOf(env, inner, ""))
  {
    var pre := "${" + outer + ":";
    var innerText := Braced(inner);
    var s := pre + innerText + "}";
    var t := Token(|pre|, |pre| + |innerText|, inner, "");
    var vb := ValueOf(env, inner, "");
    BracedAfterColon(outer, innerText);
    BracedAfterColon(outer, vb);
    NestedFirstToken(outer, inner);
    MiddleSlice(pre, innerText, "}");
    StepReplaces(s, t, innerText, env);
    assert IsTokenText(innerText, inner, "");
    TokenTextDollars(innerText, inner, "", env);
    ClosingBrace(outer, inner);
    ReplaceAllOnce(pre, innerText, "}", vb, '}', '$');
  }

  /** `${A:${B}}` is resolved innermost first: the outer text is no token
      until `${B}` has been replaced, after which it is one whose default is
      B's value. When that value is a name (as a set variable's value
      usually is, or empty when B is unset), the result is A's value if A is
      set and B's value otherwise. */
  lemma SubstituteNested(outer: string, inner: string, env: Environment)
    requires EnvDollarFree(env)
    requires |outer| > 0 && IsName(outer) && |inner| > 0 && IsName(inner)
    requires IsName(if inner in env then env[inner] else "")
    ensures Substitute(Braced(outer + ":" + Braced(inner)), env) ==
            if outer in env then env[outer] else if inner in env then env[inner] else ""
  {
    var s := Braced(outer + ":" + Braced(inner));
    var vb := ValueOf(env, inner, "");
    var s1 := Braced(outer + ":" + vb);
    NestedFirstToken(outer, inner);
    NestedStep(outer, inner, env);
    SubstituteThroughStep(s, s1, env);
    SubstituteSingleToken(s1, outer, vb, env);
  }

  /** A braced name and colon followed by a value that is not a name has
      no token: the default run stops at a character that is not `}`. */
  lemma BracedNonNameHasNoToken(outer: string, v: string)
    requires |outer| > 0 && IsName(outer)
    requires '$' !in v && '}' !in v && !IsName(v)
    ensures FindToken(Braced(outer + ":" + v), 0) == None
  {
    var s := Braced(outer + ":" + v);
    BracedNonNameNoTokenAtHead(outer, v);
    assert '$' !in s[1..] by {
      assert s[1..] == "{" + outer + ":" + v + "}";
      assert forall m :: 0 <= m < |outer| ==> IsNameChar(outer[m]);
    }
    forall i | 0 < i < |s| ensures TokenAt(s, i).None? {
      TokenStartsWithDollar(s, i);
      assert s[i] == s[1..][i - 1];
    }
  }

  /** The token pattern fails at the `$` that opens `${outer:v}`. */
  lemma BracedNonNameNoTokenAtHead(outer: string, v: string)
    requires |outer| > 0 && IsName(outer)
    requires '}' !in v && !IsName(v)
    ensures TokenAt(Braced(outer + ":" + v), 0).None?
  {
    var s := Braced(outer + ":" + v);
    var n := |outer|;
    var pre := "${" + outer + ":";
    assert s == pre + v + "}";
    assert s[2..2 + n] == outer;
    assert s[2 + n] == ':';
    RunEndOverName(s, 2, outer);
    var p :| 0 <= p < |v| && !IsNameChar(v[p]);
    assert s[3 + n + p] == v[p];
    var k := RunEnd(s, 3 + n);
    assert k <= 3 + n + p;
    assert s[k] == v[k - 3 - n];
  }

  /** The nested default when the inner variable's value is not a name:
      the inner token is replaced, and what is left, `${A:value}`, is no
      token, so the loop stops with it as it stands. */
  lemma SubstituteNestedNotAName(outer: string, inner: string, env: Environment)
    requires EnvDollarFree(env)
    requires |outer| > 0 && IsName(outer) && |inner| > 0 && IsName(inner)
    requires inner in env && !IsName(env[inner]) && '}' !in env[inner]
    ensures Substitute(Braced(outer + ":" + Braced(inner)), env) == Braced(outer + ":" + env[inner])
  {
    var s := Braced(outer + ":" + Braced(inner));
    var s1 := Braced(outer + ":" + env[inner]);
    NestedFirstToken(outer, inner);
    NestedStep(outer, inner, env);
    SubstituteThroughStep(s, s1, env);
    BracedNonNameHasNoToken(outer, env[inner]);
  }

  /** The case the design leaves open, with `B` set to `a.b`. */
  lemma SubstituteNestedDotted()
    ensures Substitute("${A:${B}}", map["B" := "a.b"]) == "${A:a.b}"
  {
    assert "${A:${B}}" == Braced("A" + ":" + Braced("B"));
    assert "${A:a.b}" == Braced("A" + ":" + "a.b");
    assert !IsNameChar("a.b"[1]);
    SubstituteNestedNotAName("A", "B", map["B" := "a.b"]);
  }

  /** Why the environment must be '$'-free: a variable whose value is its
      own token is a fixed point of the step, so the loop never ends. */
  lemma StepLoopsOnSelfReference()
    ensures var env := map["A" := Braced("A")];
            Step(Braced("A"), env) == Braced("A") && !NoToken(Braced("A"))
  {
    var s := Braced("A");
    assert IsTokenText(s, "A", "");
    assert s[0..|s|] == s;
    TokenAtComplete(s, 0, s, "A", "");
    var pat := s;
    assert s[..|pat|] == pat;
    assert s[|pat|..] == [];
  }

  // ---------------------------------------------------------------------
  // Substitution over the whole document
  // ---------------------------------------------------------------------

  /** Every string in the value is free of tokens. */
  predicate TokenFree(y: Yaml)
  {
    match y
    case Map(m) => forall k :: k in m ==> TokenFree(m[k])
    case List(xs) => forall i :: 0 <= i < |xs| ==> TokenFree(xs[i])
    case Str(s) => NoToken(s)
    case Other(_) => true
  }

  /** Same keys in every mapping, same length in every list, strings where
      there were strings and the very same other scalars. */
  predicate SameShape(a: Yaml, b: Yaml)
  {
    match a
    case Map(m) => b.Map? && b.entries.Keys == m.Keys && forall k :: k in m ==> SameShape(m[k], b.entries[k])
    case List(xs) => b.List? && |b.items| == |xs| && forall i :: 0 <= i < |xs| ==> SameShape(xs[i], b.items[i])
    case Str(_) => b.Str?
    case Other(_) => b == a
  }

  /** What `_inject_environment_variables` returns. */
  function Inject(data: Yaml, env: Environment): (r: Yaml)
    requires EnvDollarFree(env)
    ensures TokenFree(r)
  {
    match data
    case Map(m) => Map(map k | k in m :: Inject(m[k], env))
    case List(xs) => List(seq(|xs|, i requires 0 <= i < |xs| => Inject(xs[i], env)))
    case Str(s) => Str(Substitute(s, env))
    case Other(_) => data
  }

  /** Substitution keeps the document's shape and touches only strings. */
  lemma {:induction false} InjectPreservesShape(data: Yaml, env: Environment)
    requires EnvDollarFree(env)
    ensures SameShape(data, Inject(data, env))
  {
    match data
    case Map(m) =>
      forall k | k in m ensures SameShape(m[k], Inject(data, env).entries[k]) {
        InjectPreservesShape(m[k], env);
      }
    case List(xs) =>
      forall i | 0 <= i < |xs| ensures SameShape(xs[i], Inject(data, env).items[i]) {
        InjectPreservesShape(xs[i], env);
      }
    case Str(_) =>
    case Other(_) =>
  }

  /** A string without tokens comes out of the loop as it went in. */
  lemma SubstituteNoToken(s: string, env: Environment)
    requires EnvDollarFree(env) && NoToken(s)
    ensures Substitute(s, env) == s
  {
    assert FindToken(s, 0).None?;
  }

  /** Injection leaves token-free data alone. */
  lemma {:induction false} InjectTokenFree(data: Yaml, env: Environment)
    requires EnvDollarFree(env) && TokenFree(data)
    ensures Inject(data, env) == data
  {
    match data
    case Map(m) =>
      forall k | k in m ensures Inject(m[k], env) == m[k] {
        InjectTokenFree(m[k], env);
      }
      assert Inject(data, env).entries == m;
    case List(xs) =>
      forall i | 0 <= i < |xs| ensures Inject(xs[i], env) == xs[i] {
        InjectTokenFree(xs[i], env);
      }
      assert Inject(data, env).items == xs;
    case Str(s) =>
      SubstituteNoToken(s, env);
    case Other(_) =>
  }

  /** Injecting twice is injecting once. */
  lemma InjectIdempotent(data: Yaml, env: Environment)
    requires EnvDollarFree(env)
    ensures Inject(Inject(data, env), env) == Inject(data, env)
  {
    InjectTokenFree(Inject(data, env), env);
  }

  /** `_inject_environment_variables`: mappings are rewritten key by key,
      lists element by element, strings by the substitution loop. */
  method InjectEnvironmentVariables(data: Yaml, env: Environment) returns (r: Yaml)
    requires EnvDollarFree(env)
    ensures r == Inject(data, env)
    decreases data, 1
  {
    match data
    case Map(m) =>
      var out := InjectMapping(m, env);
      r := Map(out);
    case List(xs) =>
      var out := InjectList(xs, env);
      r := List(out);
    case Str(s) =>
      var value := InjectString(s, env);
      r := Str(value);
    case Other(_) =>
      r := data;
  }

  /** The mapping branch: each value is replaced by its injected form. */
  method InjectMapping(m: map<string, Yaml>, env: Environment) returns (out: map<string, Yaml>)
    requires EnvDollarFree(env)
    ensures out == Inject(Map(m), env).entries
    decreases Map(m), 0
  {
    out := m;
    var pending := m.Keys;
    while pending != {}
      invariant pending <= m.Keys && out.Keys == m.Keys
      invariant forall k :: k in m && k !in pending ==> out[k] == Inject(m[k], env)
      invariant forall k :: k in pending ==> out[k] == m[k]
      decreases pending
    {
      var key :| key in pending;
      var value := InjectEnvironmentVariables(m[key], env);
      out := out[key := value];
      pending := pending - {key};
    }
  }

  /** The list branch: each element is replaced by its injected form. */
  method InjectList(xs: seq<Yaml>, env: Environment) returns (out: seq<Yaml>)
    requires EnvDollarFree(env)
    ensures out == Inject(List(xs), env).items
    decreases List(xs), 0
  {
    out := [];
    for i := 0 to |xs|
      invariant |out| == i
      invariant forall j :: 0 <= j < i ==> out[j] == Inject(xs[j], env)
    {
      var value := InjectEnvironmentVariables(xs[i], env);
      out := out + [value];
    }
  }

  // ---------------------------------------------------------------------
  // read()
  // ---------------------------------------------------------------------

  /** What opening and parsing the file gave. */
  datatype YamlFile = FileMissing | Unparseable | Parsed(document: Yaml)

  /** Why the reader's own error was raised. */
  datatype ReadCause = FileNotFound | ParseFailure | BaseKeyNotFound(key: string)

  /** The failures of `read`. Only the first is `UnableToReadYamlFileError`;
      the others escape it: indexing a non-mapping with a segment, and
      converting a result that `dict` rejects. */
  datatype ReadError =
    | UnableToReadYamlFile(cause: ReadCause)
    | BaseKeyNotSubscriptable(key: string)
    | NotAMapping

  /** `dict(data)` on the values the model represents: a mapping is itself,
      an empty string or an empty list is the empty mapping (there is
      nothing to iterate over), and anything else is rejected. */
  function DictOf(y: Yaml): (r: Option<map<string, Yaml>>)
    ensures r.Some? <==> y.Map? || y == Str("") || y == List([])
    ensures y.Map? ==> r == Some(y.entries)
    ensures r.Some? && !y.Map? ==> r.value == map[]
  {
    match y
    case Map(m) => Some(m)
    case Str(s) => if s == "" then Some(map[]) else None
    case List(xs) => if xs == [] then Some(map[]) else None
    case Other(_) => None
  }

  /** What `read` hands to `dict`: the selected section, injected when
      injection is on. */
  function Selected(data: Yaml, injection: bool, env: Environment): Yaml
    requires injection ==> EnvDollarFree(env)
  {
    if injection then Inject(data, env) else data
  }

  /** `YamlFileReader(file, base key, injection).read()` on a file whose
      opening and parsing gave `file`. */
  function Read(file: YamlFile, baseKey: Option<string>, injection: bool, env: Environment)
    : (r: Result<map<string, Yaml>, ReadError>)
    requires injection ==> EnvDollarFree(env)
    ensures r == Failure(UnableToReadYamlFile(FileNotFound)) <==> file.FileMissing?
    ensures r == Failure(UnableToReadYamlFile(ParseFailure)) <==> file.Unparseable?
    ensures file.Parsed? ==>
              var section := Filter(file.document, baseKey);
              && (section.Failure? && section.error.KeyNotFound? <==>
                    r.Failure? && r.error.UnableToReadYamlFile? && r.error.cause.BaseKeyNotFound?)
              && (section.Failure? && section.error.KeyNotFound? ==>
                    r == Failure(UnableToReadYamlFile(BaseKeyNotFound(section.error.key))))
              && (section.Failure? && section.error.NotSubscriptable? <==>
                    r.Failure? && r.error.BaseKeyNotSubscriptable?)
              && (section.Failure? && section.error.NotSubscriptable? ==>
                    r == Failure(BaseKeyNotSubscriptable(section.error.key)))
              && (section.Success? && section.value.Map? ==> r.Success?)
              && (r == Failure(NotAMapping) <==>
                    section.Success? && DictOf(Selected(section.value, injection, env)).None?)
    ensures r.Success? ==> file.Parsed? && Filter(file.document, baseKey).Success?
    ensures r.Success? && !injection && Filter(file.document, baseKey).value.Map? ==>
              Filter(file.document, baseKey) == Success(Map(r.value))
    ensures r.Success? && injection && Filter(file.document, baseKey).value.Map? ==>
              Map(r.value) == Inject(Filter(file.document, baseKey).value, env) &&
              SameShape(Filter(file.document, baseKey).value, Map(r.value))
    ensures r.Success? && !Filter(file.document, baseKey).value.Map? ==> r.value == map[]
    ensures r.Success? && injection ==> TokenFree(Map(r.value))
  {
    match file
    case FileMissing => Failure(UnableToReadYamlFile(FileNotFound))
    case Unparseable => Failure(UnableToReadYamlFile(ParseFailure))
    case Parsed(doc) =>
      match Filter(doc, baseKey)
      case Failure(KeyNotFound(key)) => Failure(UnableToReadYamlFile(BaseKeyNotFound(key)))
      case Failure(NotSubscriptable(key)) => Failure(BaseKeyNotSubscriptable(key))
      case Success(data) =>
        var out := Selected(data, injection, env);
        assert injection ==> SameShape(data, out) by {
          if injection { InjectPreservesShape(data, env); }
        }
        match DictOf(out)
        case Some(m) => Success(m)
        case None => Failure(NotAMapping)
  }

  /** A segment of the base key missing from the mapping the segments
      before it reach is an error of the reader naming that segment, not an
      empty mapping, whatever segments follow it. */
  lemma ReadMissingBaseKey(doc: Yaml, key: string, i: nat, m: map<string, Yaml>, injection: bool, env: Environment)
    requires injection ==> EnvDollarFree(env)
    requires i < |Split(key, '.')| && Walk(doc, Split(key, '.')[..i]) == Success(Map(m))
    requires Split(key, '.')[i] !in m
    ensures Read(Parsed(doc), Some(key), injection, env) ==
            Failure(UnableToReadYamlFile(BaseKeyNotFound(Split(key, '.')[i])))
  {
    WalkMissingSegment(doc, Split(key, '.'), i, m);
  }

  /** Base key "a.b" where `doc["a"]` is a mapping without "b": the reader
      reports the missing "b". */
  lemma ReadMissingInnerKey(doc: map<string, Yaml>, a: string, b: string, inner: map<string, Yaml>,
                            injection: bool, env: Environment)
    requires injection ==> EnvDollarFree(env)
    requires '.' !in a && '.' !in b
    requires a in doc && doc[a] == Map(inner) && b !in inner
    ensures Read(Parsed(Map(doc)), Some(a + "." + b), injection, env) ==
            Failure(UnableToReadYamlFile(BaseKeyNotFound(b)))
  {
    var parts := [a, b];
    assert parts[1..] == [b];
    assert Join(parts, '.') == a + "." + b;
    SplitJoin(parts, '.');
    assert Split(a + "." + b, '.') == parts;
    assert parts[..1] == [a];
    assert [a][1..] == [];
    assert Walk(Map(doc), [a]) == Success(Map(inner));
    ReadMissingBaseKey(Map(doc), a + "." + b, 1, inner, injection, env);
  }

  /** Without injection, `read` returns the selected section untouched. */
  lemma ReadWithoutInjection(doc: Yaml, baseKey: Option<string>, section: map<string, Yaml>, env: Environment)
    requires Filter(doc, baseKey) == Success(Map(section))
    ensures Read(Parsed(doc), baseKey, false, env) == Success(section)
  {
  }

  /** A section that is a single token of an unset variable without a
      default, such as `plugins: ${UNSET}`, becomes the empty string, which
      `dict` turns into the empty mapping. */
  lemma ReadUnsetTokenSection(doc: Yaml, baseKey: Option<string>, name: string, env: Environment)
    requires EnvDollarFree(env) && |name| > 0 && IsName(name) && name !in env
    requires Filter(doc, baseKey) == Success(Str(Braced(name)))
    ensures Read(Parsed(doc), baseKey, true, env) == Success(map[])
  {
    assert IsTokenText(Braced(name), name, "");
    SubstituteSingleToken(Braced(name), name, "", env);
  }
}
