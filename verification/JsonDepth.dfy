/** The nesting check made before JSON is parsed (integrations/workiq/mcp.py:46-88), against the grammar of
    JSON texts (sections 2 to 7 of RFC 8259). */
module JsonDepth {
  import opened Basics

  const MAX_RESPONSE_BYTES := 1024 * 1024

  const MAX_JSON_DEPTH := 20

  // --- The scanner ---------------------------------------------------------------------------

  /** The scanner's variables, and the greatest depth so far. */
  datatype Scanner = Scanner(depth: int, quoted: bool, escaped: bool, peak: int)

  const START := Scanner(0, false, false, 0)

  function Feed(s: Scanner, c: char): Scanner {
    if s.quoted then
      if s.escaped then s.(escaped := false)
      else if c == '\\' then s.(escaped := true)
      else if c == '"' then s.(quoted := false)
      else s
    else if c == '"' then s.(quoted := true)
    else if c == '[' || c == '{' then s.(depth := s.depth + 1, peak := Max(s.peak, s.depth + 1))
    else if c == ']' || c == '}' then s.(depth := s.depth - 1)
    else s
  }

  function Scan(s: Scanner, text: string): Scanner
    decreases |text|
  {
    if |text| == 0 then s else Scan(Feed(s, text[0]), text[1..])
  }

  lemma {:induction false} ScanSplits(s: Scanner, a: string, b: string)
    ensures Scan(s, a + b) == Scan(Scan(s, a), b)
    decreases |a|
  {
    if |a| == 0 {
      assert a + b == b;
    } else {
      assert (a + b)[1..] == a[1..] + b;
      ScanSplits(Feed(s, a[0]), a[1..], b);
    }
  }

  lemma {:induction false} PeakGrows(s: Scanner, text: string)
    ensures Scan(s, text).peak >= s.peak
    decreases |text|
  {
    if |text| > 0 { PeakGrows(Feed(s, text[0]), text[1..]); }
  }

  function EncodedLength(text: string): nat {
    if |text| == 0 then 0
    else
      var n := text[0] as int;
      (if n < 0x80 then 1 else if n < 0x800 then 2 else if n < 0x10000 then 3 else 4) + EncodedLength(text[1..])
  }

  datatype JsonError = TooLarge | TooDeep | Malformed

  /** Checks size and nesting, then hands the text to the parser. Of a JSON text that fits the size limit the depth
      error says exactly that it is nested too deep. */
  method BoundedJson<T>(text: string, parse: string -> Option<T>) returns (r: Result<T, JsonError>)
    ensures EncodedLength(text) > 1_048_576 ==> r == Err(TooLarge)
    ensures r == Err(TooLarge) ==> EncodedLength(text) > 1_048_576
    ensures r == Err(TooDeep) <==> EncodedLength(text) <= 1_048_576 && Scan(START, text).peak > 20
    ensures r == Err(Malformed) <==> r != Err(TooLarge) && r != Err(TooDeep) && parse(text).None?
    ensures r.Ok? ==> parse(text) == Some(r.value)
    ensures forall e | ValidElement(e) && WriteElement(e) == text ::
      r == Err(TooDeep) <==> EncodedLength(text) <= 1_048_576 && Nesting(e.value) > 20
  {
    forall e | ValidElement(e) && WriteElement(e) == text ensures Scan(START, text).peak == Nesting(e.value) {
      PeakIsNesting(e);
    }
    if EncodedLength(text) > MAX_RESPONSE_BYTES { return Err(TooLarge); }
    var depth, quoted, escaped := 0, false, false;
    ghost var peak := 0;
    for i := 0 to |text|
      invariant Scanner(depth, quoted, escaped, peak) == Scan(START, text[..i])
      invariant peak <= MAX_JSON_DEPTH
    {
      var ch := text[i];
      assert text[..i + 1] == text[..i] + [ch];
      ScanSplits(START, text[..i], [ch]);
      assert text == text[..i + 1] + text[i + 1..];
      ScanSplits(START, text[..i + 1], text[i + 1..]);
      PeakGrows(Scan(START, text[..i + 1]), text[i + 1..]);
      if quoted {
        if escaped {
          escaped := false;
        } else if ch == '\\' {
          escaped := true;
        } else if ch == '"' {
          quoted := false;
        }
      } else if ch == '"' {
        quoted := true;
      } else if ch == '[' || ch == '{' {
        depth := depth + 1;
        peak := Max(peak, depth);
        if depth > MAX_JSON_DEPTH { return Err(TooDeep); }
      } else if ch == ']' || ch == '}' {
        depth := depth - 1;
      }
    }
    assert text[..|text|] == text;
    var value := parse(text);
    if value.None? { return Err(Malformed); }
    return Ok(value.value);
  }

  // --- JSON texts ------------------------------------------------------------------------------

  datatype Sign = Plus | Minus | Unsigned

  datatype Exponent = Exponent(mark: char, sign: Sign, digits: string)

  datatype Scalar =
    | True | False | Null
    | Number(minus: bool, whole: string, fraction: Option<string>, exponent: Option<Exponent>)

  /** A character of a string: as it is, by a two-character escape, or by \u and four digits. */
  datatype Piece = Plain(c: char) | Escaped(c: char) | Unicode(digits: string)

  /** A JSON text as written, with the white space around its tokens. */
  datatype Text =
    | Leaf(scalar: Scalar)
    | Quoted(pieces: seq<Piece>)
    | Array(inner: string, elements: seq<Element>)
    | Object(inner: string, members: seq<Member>)

  datatype Element = Element(before: string, value: Text, after: string)

  datatype Member = Member(before: string, name: seq<Piece>, gap: string, element: Element)

  predicate IsBlank(s: string) { forall c | c in s :: c == ' ' || c == '\t' || c == '\n' || c == '\r' }

  predicate IsDigits(s: string) { |s| > 0 && forall c | c in s :: '0' <= c <= '9' }

  predicate IsHex(c: char) { '0' <= c <= '9' || 'a' <= c <= 'f' || 'A' <= c <= 'F' }

  predicate ValidScalar(s: Scalar) {
    s.Number? ==>
      && IsDigits(s.whole) && (|s.whole| > 1 ==> s.whole[0] != '0')
      && (s.fraction.Some? ==> IsDigits(s.fraction.value))
      && (s.exponent.Some? ==> IsDigits(s.exponent.value.digits) && s.exponent.value.mark in "eE")
  }

  predicate ValidPiece(p: Piece) {
    match p
    case Plain(c) => c as int >= 0x20 && c != '"' && c != '\\'
    case Escaped(c) => c in "\"\\/bfnrt"
    case Unicode(digits) => |digits| == 4 && forall c | c in digits :: IsHex(c)
  }

  ghost predicate ValidText(t: Text) {
    match t
    case Leaf(s) => ValidScalar(s)
    case Quoted(pieces) => forall p | p in pieces :: ValidPiece(p)
    case Array(inner, elements) => IsBlank(inner) && ValidElements(elements)
    case Object(inner, members) => IsBlank(inner) && ValidMembers(members)
  }

  ghost predicate ValidElement(e: Element) { IsBlank(e.before) && IsBlank(e.after) && ValidText(e.value) }

  ghost predicate ValidElements(es: seq<Element>) {
    |es| > 0 ==> ValidElement(es[0]) && ValidElements(es[1..])
  }

  ghost predicate ValidMembers(ms: seq<Member>) {
    |ms| > 0 ==>
      && IsBlank(ms[0].before) && IsBlank(ms[0].gap) && (forall p | p in ms[0].name :: ValidPiece(p))
      && ValidElement(ms[0].element) && ValidMembers(ms[1..])
  }

  function WriteSign(sign: Sign): string { match sign case Plus => "+" case Minus => "-" case Unsigned => "" }

  function WriteScalar(s: Scalar): string {
    match s
    case True => "true"
    case False => "false"
    case Null => "null"
    case Number(minus, whole, fraction, exponent) =>
      (if minus then "-" else "") + whole
      + (if fraction.Some? then "." + fraction.value else "")
      + (if exponent.Some? then
           [exponent.value.mark] + WriteSign(exponent.value.sign) + exponent.value.digits
         else "")
  }

  function WritePieces(ps: seq<Piece>): string {
    if |ps| == 0 then ""
    else
      (match ps[0] case Plain(c) => [c] case Escaped(c) => ['\\', c] case Unicode(d) => "\\u" + d)
      + WritePieces(ps[1..])
  }

  function WriteString(ps: seq<Piece>): string { "\"" + WritePieces(ps) + "\"" }

  function Write(t: Text): string {
    match t
    case Leaf(s) => WriteScalar(s)
    case Quoted(pieces) => WriteString(pieces)
    case Array(inner, elements) => "[" + inner + WriteElements(elements) + "]"
    case Object(inner, members) => "{" + inner + WriteMembers(members) + "}"
  }

  function WriteElement(e: Element): string { e.before + Write(e.value) + e.after }

  function WriteElements(es: seq<Element>): string {
    if |es| == 0 then "" else WriteElement(es[0]) + (if |es| == 1 then "" else ",") + WriteElements(es[1..])
  }

  function WriteMembers(ms: seq<Member>): string {
    if |ms| == 0 then ""
    else
      ms[0].before + WriteString(ms[0].name) + ms[0].gap + ":" + WriteElement(ms[0].element)
      + (if |ms| == 1 then "" else ",") + WriteMembers(ms[1..])
  }

  /** How deeply arrays and objects are nested in the value. */
  function Nesting(t: Text): nat {
    match t
    case Leaf(_) | Quoted(_) => 0
    case Array(_, elements) => 1 + NestingOfElements(elements)
    case Object(_, members) => 1 + NestingOfMembers(members)
  }

  function NestingOfElements(es: seq<Element>): nat {
    if |es| == 0 then 0 else Max(Nesting(es[0].value), NestingOfElements(es[1..]))
  }

  function NestingOfMembers(ms: seq<Member>): nat {
    if |ms| == 0 then 0 else Max(Nesting(ms[0].element.value), NestingOfMembers(ms[1..]))
  }

  // --- The scanner sees the nesting ----------------------------------------------------------------

  predicate Unnoticed(c: char) { c !in "\"[]{}" }

  lemma {:induction false} ScanUnnoticed(s: Scanner, text: string)
    requires !s.quoted && forall c | c in text :: Unnoticed(c)
    ensures Scan(s, text) == s
  {
    if |text| > 0 {
      assert text[0] in text && forall c | c in text[1..] :: c in text;
      ScanUnnoticed(s, text[1..]);
    }
  }

  lemma {:induction false} ScanInside(s: Scanner, text: string)
    requires s.quoted && !s.escaped && forall c | c in text :: c != '"' && c != '\\'
    ensures Scan(s, text) == s
  {
    if |text| > 0 {
      assert text[0] in text && forall c | c in text[1..] :: c in text;
      ScanInside(s, text[1..]);
    }
  }

  lemma ScanPiece(s: Scanner, p: Piece)
    requires s.quoted && !s.escaped && ValidPiece(p)
    ensures Scan(s, match p case Plain(c) => [c] case Escaped(c) => ['\\', c] case Unicode(d) => "\\u" + d) == s
  {
    match p {
      case Plain(c) => ScanInside(s, [c]);
      case Escaped(c) =>
        assert ['\\', c][1..] == [c] && [c][1..] == [];
        assert Scan(s, ['\\', c]) == Scan(s.(escaped := true), [c]) == Scan(s, []);
      case Unicode(d) =>
        ScanSplits(s, "\\u", d);
        assert "\\u"[1..] == "u" && "u"[1..] == "";
        assert Scan(s, "\\u") == Scan(s.(escaped := true), "u") == Scan(s, "");
        ScanInside(s, d);
    }
  }

  lemma {:induction false} ScanPieces(s: Scanner, ps: seq<Piece>)
    requires s.quoted && !s.escaped && forall p | p in ps :: ValidPiece(p)
    ensures Scan(s, WritePieces(ps)) == s
  {
    if |ps| > 0 {
      assert ps[0] in ps;
      ScanPiece(s, ps[0]);
      ScanSplits(s, match ps[0] case Plain(c) => [c] case Escaped(c) => ['\\', c] case Unicode(d) => "\\u" + d,
                 WritePieces(ps[1..]));
      ScanPieces(s, ps[1..]);
    }
  }

  /** Whatever brackets, quotes and backslashes a string holds, the scanner passes over it. */
  lemma ScanString(s: Scanner, ps: seq<Piece>)
    requires !s.quoted && !s.escaped && forall p | p in ps :: ValidPiece(p)
    ensures Scan(s, WriteString(ps)) == s
  {
    ScanSplits(s, "\"" + WritePieces(ps), "\"");
    ScanSplits(s, "\"", WritePieces(ps));
    ScanOne(s, '"');
    ScanPieces(s.(quoted := true), ps);
    ScanOne(s.(quoted := true), '"');
  }

  lemma ScanOne(s: Scanner, c: char)
    ensures Scan(s, [c]) == Feed(s, c)
  {
    assert [c][1..] == [];
  }

  ghost predicate AllUnnoticed(text: string) { forall c | c in text :: Unnoticed(c) }

  lemma JoinUnnoticed(a: string, b: string)
    requires AllUnnoticed(a) && AllUnnoticed(b)
    ensures AllUnnoticed(a + b)
  {
  }

  lemma DigitsUnnoticed(s: string)
    requires IsDigits(s)
    ensures AllUnnoticed(s)
  {
  }

  lemma MarksUnnoticed(mark: char, sign: Sign)
    ensures AllUnnoticed("-") && AllUnnoticed(".") && AllUnnoticed("") && AllUnnoticed(WriteSign(sign))
    ensures mark in "eE" ==> AllUnnoticed([mark])
    ensures AllUnnoticed("true") && AllUnnoticed("false") && AllUnnoticed("null")
  {
  }

  lemma ExponentUnnoticed(e: Exponent)
    requires e.mark in "eE" && IsDigits(e.digits)
    ensures AllUnnoticed([e.mark] + WriteSign(e.sign) + e.digits)
  {
    hide AllUnnoticed, IsDigits, WriteSign;
    MarksUnnoticed(e.mark, e.sign);
    DigitsUnnoticed(e.digits);
    JoinUnnoticed([e.mark], WriteSign(e.sign));
    JoinUnnoticed([e.mark] + WriteSign(e.sign), e.digits);
  }

  lemma ScalarUnnoticed(s: Scalar)
    requires ValidScalar(s)
    ensures AllUnnoticed(WriteScalar(s))
  {
    hide AllUnnoticed, IsDigits, WriteSign;
    MarksUnnoticed('e', Plus);
    if s.Number? {
      var minus := if s.minus then "-" else "";
      var fraction := if s.fraction.Some? then "." + s.fraction.value else "";
      var exponent := if s.exponent.Some? then
        [s.exponent.value.mark] + WriteSign(s.exponent.value.sign) + s.exponent.value.digits else "";
      DigitsUnnoticed(s.whole);
      if s.fraction.Some? {
        DigitsUnnoticed(s.fraction.value);
        JoinUnnoticed(".", s.fraction.value);
      }
      if s.exponent.Some? { ExponentUnnoticed(s.exponent.value); }
      JoinUnnoticed(minus, s.whole);
      JoinUnnoticed(minus + s.whole, fraction);
      JoinUnnoticed(minus + s.whole + fraction, exponent);
    }
  }

  /** The scanner in the middle of a text, at some depth. */
  ghost predicate Outside(s: Scanner) { !s.quoted && !s.escaped }

  function Deeper(s: Scanner, nesting: nat): Scanner { s.(peak := Max(s.peak, s.depth + nesting)) }

  lemma {:induction false} ScanText(s: Scanner, t: Text)
    requires Outside(s) && ValidText(t) && s.peak >= s.depth
    ensures Scan(s, Write(t)) == Deeper(s, Nesting(t))
    decreases t
  {
    match t {
      case Leaf(scalar) =>
        ScalarUnnoticed(scalar);
        ScanUnnoticed(s, WriteScalar(scalar));
      case Quoted(pieces) => ScanString(s, pieces);
      case Array(inner, elements) =>
        var within := Feed(s, '[');
        ScanElements(within, elements);
        ScanBracketed(s, '[', inner, WriteElements(elements), ']');
      case Object(inner, members) =>
        var within := Feed(s, '{');
        ScanMembers(within, members);
        ScanBracketed(s, '{', inner, WriteMembers(members), '}');
    }
  }

  lemma ScanBracketed(s: Scanner, open: char, inner: string, content: string, close: char)
    requires Outside(s) && IsBlank(inner) && ((open == '[' && close == ']') || (open == '{' && close == '}'))
    ensures Scan(s, [open] + inner + content + [close]) == Feed(Scan(Feed(s, open), content), close)
  {
    ScanSplits(s, [open] + inner + content, [close]);
    ScanSplits(s, [open] + inner, content);
    ScanSplits(s, [open], inner);
    ScanOne(s, open);
    ScanUnnoticed(Feed(s, open), inner);
    ScanOne(Scan(Feed(s, open), content), close);
  }

  lemma {:induction false} ScanElement(s: Scanner, e: Element)
    requires Outside(s) && ValidElement(e) && s.peak >= s.depth
    ensures Scan(s, WriteElement(e)) == Deeper(s, Nesting(e.value))
    decreases e
  {
    hide Scan, Write, Nesting, ValidText;
    ScanSplits(s, e.before + Write(e.value), e.after);
    ScanSplits(s, e.before, Write(e.value));
    ScanUnnoticed(s, e.before);
    ScanText(s, e.value);
    ScanUnnoticed(Deeper(s, Nesting(e.value)), e.after);
  }

  lemma {:induction false} ScanElements(s: Scanner, es: seq<Element>)
    requires Outside(s) && ValidElements(es) && s.peak >= s.depth
    ensures Scan(s, WriteElements(es)) == Deeper(s, NestingOfElements(es))
    decreases es
  {
    if |es| > 0 {
      var comma := if |es| == 1 then "" else ",";
      ScanSplits(s, WriteElement(es[0]) + comma, WriteElements(es[1..]));
      ScanSplits(s, WriteElement(es[0]), comma);
      ScanElement(s, es[0]);
      var next := Deeper(s, Nesting(es[0].value));
      ScanUnnoticed(next, comma);
      ScanElements(next, es[1..]);
    }
  }

  lemma {:induction false} ScanMembers(s: Scanner, ms: seq<Member>)
    requires Outside(s) && ValidMembers(ms) && s.peak >= s.depth
    ensures Scan(s, WriteMembers(ms)) == Deeper(s, NestingOfMembers(ms))
    decreases ms
  {
    if |ms| > 0 {
      var m := ms[0];
      var comma := if |ms| == 1 then "" else ",";
      ScanName(s, m);
      ScanElement(s, m.element);
      var head := m.before + WriteString(m.name) + m.gap + ":";
      ScanSplits(s, head + WriteElement(m.element) + comma, WriteMembers(ms[1..]));
      ScanSplits(s, head + WriteElement(m.element), comma);
      ScanSplits(s, head, WriteElement(m.element));
      var next := Deeper(s, Nesting(m.element.value));
      ScanUnnoticed(next, comma);
      ScanMembers(next, ms[1..]);
    }
  }

  lemma ScanName(s: Scanner, m: Member)
    requires Outside(s) && IsBlank(m.before) && IsBlank(m.gap) && forall p | p in m.name :: ValidPiece(p)
    ensures Scan(s, m.before + WriteString(m.name) + m.gap + ":") == s
  {
    hide Scan, WriteString, ValidPiece;
    ScanSplits(s, m.before + WriteString(m.name) + m.gap, ":");
    ScanSplits(s, m.before + WriteString(m.name), m.gap);
    ScanSplits(s, m.before, WriteString(m.name));
    ScanUnnoticed(s, m.before);
    ScanString(s, m.name);
    ScanUnnoticed(s, m.gap);
    ScanUnnoticed(s, ":");
  }

  /** For every JSON text, with any white space around it, the scanner's greatest depth is the value's true
      nesting depth. */
  lemma PeakIsNesting(e: Element)
    requires ValidElement(e)
    ensures Scan(START, WriteElement(e)) == Scanner(0, false, false, Nesting(e.value))
  {
    ScanElement(START, e);
  }

  // --- Duplicate keys --------------------------------------------------------------------------------

  ghost predicate KeysDiffer<V>(pairs: seq<(string, V)>) {
    forall i, j | 0 <= i < j < |pairs| :: pairs[i].0 != pairs[j].0
  }

  /** The dictionary of pairs whose keys are different. */
  ghost predicate Collected<V>(result: map<string, V>, pairs: seq<(string, V)>) {
    && KeysDiffer(pairs) && |result| == |pairs| && (forall key | key in result :: (key, result[key]) in pairs)
    && forall i | 0 <= i < |pairs| :: pairs[i].0 in result && result[pairs[i].0] == pairs[i].1
  }

  lemma CollectedNothing<V>(pairs: seq<(string, V)>)
    ensures Collected(map[], pairs[..0])
  {
  }

  lemma CollectedNext<V>(result: map<string, V>, pairs: seq<(string, V)>, next: (string, V))
    requires Collected(result, pairs) && next.0 !in result
    ensures Collected(result[next.0 := next.1], pairs + [next])
  {
    assert (next.0, next.1) == next && next in pairs + [next];
  }

  lemma RepeatsWhenPresent<V>(result: map<string, V>, pairs: seq<(string, V)>, i: nat)
    requires i < |pairs| && Collected(result, pairs[..i]) && pairs[i].0 in result
    ensures !KeysDiffer(pairs)
  {
    var pair := (pairs[i].0, result[pairs[i].0]);
    var j :| 0 <= j < i && pairs[..i][j] == pair;
    assert pairs[j].0 == pairs[i].0;
  }

  /** The object hook: a dictionary of the pairs, unless a key repeats. */
  method Pairs<V>(pairs: seq<(string, V)>) returns (r: Result<map<string, V>, JsonError>)
    ensures r.Ok? <==> KeysDiffer(pairs)
    ensures r.Ok? ==> |r.value| == |pairs| && forall i | 0 <= i < |pairs| ::
      pairs[i].0 in r.value && r.value[pairs[i].0] == pairs[i].1
  {
    var result: map<string, V> := map[];
    CollectedNothing(pairs);
    for i := 0 to |pairs|
      invariant Collected(result, pairs[..i])
    {
      hide Collected, KeysDiffer;
      var key, value := pairs[i].0, pairs[i].1;
      if key in result {
        RepeatsWhenPresent(result, pairs, i);
        return Err(Malformed);
      }
      CollectedNext(result, pairs[..i], pairs[i]);
      TakeNext(pairs, i);
      result := result[key := value];
    }
    TakeAll(pairs);
    return Ok(result);
  }
}
