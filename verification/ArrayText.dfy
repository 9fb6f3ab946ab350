/** What db/ArrayParser.cpp does to the text that is still to be parsed, as functions of that text,
    and a printer for nested arrays.

    A text is a C string: it holds no NUL, and the character behind its end reads as NUL.  `Overrun`
    stands for a read beyond that NUL. */
module ArrayText {
  import opened Options

  datatype Style = Single | Double

  datatype Scan = End(length: nat) | Throws | Overrun

  datatype Juncture = RowStart | RowEnd | NullValue | StringValue | Done

  datatype Token = Token(juncture: Juncture, value: string)

  datatype Step = Found(token: Token, consumed: nat) | Failed(scan: Scan)

  /** The token sequence of a whole text, or how parsing ended. */
  datatype Outcome = Parsed(tokens: seq<Token>) | Aborted(scan: Scan)

  function Quote(q: Style): char {
    if q == Single then '\'' else '\"'
  }

  function Shift(r: Scan, k: nat): Scan {
    if r.End? then End(r.length + k) else r
  }

  /** The quoted-string scanners, from behind the opening quote up to and including the closing one. */
  function ScanQuoted(q: Style, t: string): Scan {
    if t == "" then Throws
    else if q == Single && t[0] == '\'' then
      if |t| > 1 && t[1] == '\'' then Shift(ScanQuoted(q, t[2..]), 2) else End(1)
    else if q == Double && t[0] == '\"' then End(1)
    else if t[0] == '\\' then
      if |t| == 1 then Throws else Shift(ScanQuoted(q, t[2..]), 2)
    else Shift(ScanQuoted(q, t[1..]), 1)
  }

  /** Characters the decoders treat as the start of a pair. */
  predicate Escapes(q: Style, c: char) {
    c == '\\' || (q == Single && c == '\'')
  }

  /** The quoted-string decoders on the text between the quotes: of a pair they keep the first character. */
  function Decode(q: Style, body: string): string
    decreases |body|
  {
    if body == "" then ""
    else [body[0]] + Decode(q, if Escapes(q, body[0]) then (if |body| == 1 then "" else body[2..]) else body[1..])
  }

  /** The decoder's cursor arrives exactly at the closing quote. */
  predicate Lands(q: Style, body: string) {
    body == "" || if Escapes(q, body[0]) then |body| > 1 && Lands(q, body[2..]) else Lands(q, body[1..])
  }

  predicate Separator(c: char) {
    c == ',' || c == ';'
  }

  function ScanUnquoted(t: string): Scan {
    if t == "" then Overrun
    else if Separator(t[0]) || t[0] == '}' then End(0)
    else Shift(ScanUnquoted(t[1..]), 1)
  }

  /** One separator behind a token is skipped with it. */
  function WithSeparator(t: string, length: nat): nat {
    if length < |t| && Separator(t[length]) then length + 1 else length
  }

  function QuotedToken(q: Style, t: string): Step
    requires t != ""
  {
    match ScanQuoted(q, t[1..])
    case End(n) =>
      if 0 < n < |t| then Found(Token(StringValue, Decode(q, t[1..n])), WithSeparator(t, n + 1)) else Failed(Overrun)
    case other => Failed(other)
  }

  function UnquotedToken(t: string): Step {
    match ScanUnquoted(t)
    case End(n) =>
      if n > |t| then Failed(Overrun)
      else if t[..n] == "NULL" then Found(Token(NullValue, ""), WithSeparator(t, n))
      else Found(Token(StringValue, t[..n]), WithSeparator(t, n))
    case other => Failed(other)
  }

  function GetNext(t: string): Step {
    if t == "" then Found(Token(Done, ""), 0)
    else if t[0] == '{' then Found(Token(RowStart, ""), WithSeparator(t, 1))
    else if t[0] == '}' then Found(Token(RowEnd, ""), WithSeparator(t, 1))
    else if t[0] == '\'' then QuotedToken(Single, t)
    else if t[0] == '\"' then QuotedToken(Double, t)
    else UnquotedToken(t)
  }

  // ------------------------------------------------------------------ scanner and decoder in lockstep

  lemma ScanBounds(q: Style, t: string)
    ensures ScanQuoted(q, t).End? ==> 1 <= ScanQuoted(q, t).length <= |t|
    ensures ScanQuoted(q, t) != Overrun
  {
  }

  /** When a scanner finds an end, the decoder's asserts hold there: both quotes are in place, its
      cursor lands exactly on the closing one, and it produces no more than what lies between. */
  lemma {:induction false} Lockstep(q: Style, t: string)
    requires ScanQuoted(q, t).End?
    ensures var n := ScanQuoted(q, t).length;
            && 1 <= n <= |t| && t[n - 1] == Quote(q)
            && Lands(q, t[..n - 1]) && |Decode(q, t[..n - 1])| <= n - 1
  {
    var n := ScanQuoted(q, t).length;
    ScanBounds(q, t);
    if n > 1 {
      var k := if Escapes(q, t[0]) then 2 else 1;
      Lockstep(q, t[k..]);
      assert t[k..][..n - k - 1] == t[..n - 1][k..];
    }
  }

  lemma UnquotedBounds(t: string)
    ensures ScanUnquoted(t).End? ==>
              var n := ScanUnquoted(t).length;
              n < |t| && (Separator(t[n]) || t[n] == '}') && forall i :: 0 <= i < n ==> !Separator(t[i]) && t[i] != '}'
    ensures ScanUnquoted(t) == Overrun <==> forall c :: c in t ==> !Separator(c) && c != '}'
    ensures ScanUnquoted(t) != Throws
  {
    if t != "" && !Separator(t[0]) && t[0] != '}' {
      UnquotedBounds(t[1..]);
      assert t == [t[0]] + t[1..];
    }
  }

  /** `getNext` stays inside the text and moves forward unless it reports the end; it reads past the
      end exactly when an unquoted item meets no terminator. */
  lemma GetNextProgress(t: string)
    ensures GetNext(t).Found? ==>
              && GetNext(t).consumed <= |t|
              && (GetNext(t).token.juncture == Done <==> t == "")
              && (GetNext(t).consumed > 0 <==> t != "")
    ensures GetNext(t) == Failed(Overrun) <==>
              t != "" && forall c :: c in t ==> c != '}' && !Separator(c) && t[0] !in {'{', '\'', '\"'}
    ensures GetNext(t).Failed? ==> GetNext(t).scan in {Throws, Overrun}
  {
    if t != "" {
      assert t[0] in t;
      ScanBounds(Single, t[1..]);
      ScanBounds(Double, t[1..]);
      UnquotedBounds(t);
    }
  }

  function Tokens(t: string): Outcome
    decreases |t|
  {
    GetNextProgress(t);
    match GetNext(t)
    case Failed(scan) => Aborted(scan)
    case Found(token, n) =>
      if token.juncture == Done then Parsed([token]) else Prepend([token], Tokens(t[n..]))
  }

  function Prepend(tokens: seq<Token>, o: Outcome): Outcome {
    if o.Parsed? then Parsed(tokens + o.tokens) else o
  }

  /** Every text that is empty or ends in a closing brace parses without a read past its end: it
      yields tokens of which the last, and only the last, is Done, or a scanner throws. */
  lemma {:induction false} BraceTerminated(t: string)
    requires t == "" || t[|t| - 1] == '}'
    ensures Tokens(t).Parsed? || Tokens(t) == Aborted(Throws)
    ensures Tokens(t).Parsed? ==>
              var ts := Tokens(t).tokens;
              ts != [] && ts[|ts| - 1].juncture == Done && forall i :: 0 <= i < |ts| - 1 ==> ts[i].juncture != Done
    decreases |t|
  {
    GetNextProgress(t);
    if t != "" {
      assert '}' in t;
      if GetNext(t).Found? {
        BraceTerminated(t[GetNext(t).consumed..]);
      }
    }
  }

  // ------------------------------------------------------------------ printer and round trip

  /** Text that can stand without quotes. */
  predicate IsPlain(s: string) {
    s != "" && s[0] !in {'{', '\'', '\"'} && forall c :: c in s ==> !Separator(c) && c != '}'
  }

  /** An unquoted string; NULL is not one. */
  type Unquoted = s: string | IsPlain(s) && s != "NULL" witness "0"

  type Delimiter = c: char | Separator(c) witness ','

  datatype Elem = Null | Str(s: string) | Bare(text: Unquoted) | Arr(es: seq<Elem>)

  /** SQL escaping by doubling, as the single-quoted decoder undoes it. */
  function Doubled(s: string): string {
    if s == "" then "" else (if Escapes(Single, s[0]) then [s[0], s[0]] else [s[0]]) + Doubled(s[1..])
  }

  /** An element as SQL text, with `d` between the members of an array. */
  function Print(e: Elem, d: Delimiter): string
    decreases e, 1
  {
    match e
    case Null => "NULL"
    case Str(s) => "'" + Doubled(s) + "'"
    case Bare(text) => text
    case Arr(es) => "{" + PrintList(es, d) + "}"
  }

  function PrintList(es: seq<Elem>, d: Delimiter): string
    decreases es, 0
  {
    if es == [] then "" else Print(es[0], d) + (if |es| == 1 then "" else [d] + PrintList(es[1..], d))
  }

  /** The brackets and leaves of an element, in order. */
  function Flatten(e: Elem): seq<Token>
    decreases e, 1
  {
    match e
    case Null => [Token(NullValue, "")]
    case Str(s) => [Token(StringValue, s)]
    case Bare(text) => [Token(StringValue, text)]
    case Arr(es) => [Token(RowStart, "")] + FlattenList(es) + [Token(RowEnd, "")]
  }

  function FlattenList(es: seq<Elem>): seq<Token>
    decreases es, 0
  {
    if es == [] then [] else Flatten(es[0]) + FlattenList(es[1..])
  }

  lemma {:induction false} DoubledScans(s: string, rest: string)
    requires rest != "" ==> rest[0] != '\''
    ensures ScanQuoted(Single, Doubled(s) + "'" + rest) == End(|Doubled(s)| + 1)
  {
    var t := Doubled(s) + "'" + rest;
    if s == "" {
      assert t == "'" + rest;
    } else {
      DoubledScans(s[1..], rest);
      assert t[if Escapes(Single, s[0]) then 2 else 1..] == Doubled(s[1..]) + "'" + rest;
    }
  }

  lemma {:induction false} DoubledDecodes(s: string)
    ensures Decode(Single, Doubled(s)) == s
  {
    if s != "" {
      DoubledDecodes(s[1..]);
      assert Doubled(s)[if Escapes(Single, s[0]) then 2 else 1..] == Doubled(s[1..]);
    }
  }

  /** What follows an element inside or after an array. */
  predicate Follows(rest: string) {
    rest == "" || Separator(rest[0]) || rest[0] == '}'
  }

  function SkipSeparator(rest: string): string {
    if rest != "" && Separator(rest[0]) then rest[1..] else rest
  }

  lemma StringToken(s: string, rest: string)
    requires Follows(rest)
    ensures var t := "'" + Doubled(s) + "'" + rest;
            && GetNext(t).Found? && GetNext(t).token == Token(StringValue, s)
            && GetNext(t).consumed <= |t| && t[GetNext(t).consumed..] == SkipSeparator(rest)
  {
    DoubledScans(s, rest);
    DoubledDecodes(s);
    Quoted("'", Doubled(s), rest);
  }

  /** A text in quotes, and its parts. */
  lemma Quoted(quote: string, body: string, rest: string)
    requires |quote| == 1
    ensures var t, n := quote + body + quote + rest, |body| + 1;
            t[0] == quote[0] && t[1..] == body + quote + rest && t[1..n] == body && t[n + 1..] == rest
  {
  }

  /** A text without quotes, up to the separator or brace behind it. */
  lemma PlainScans(x: string, rest: string)
    requires IsPlain(x) && rest != "" && Follows(rest)
    ensures ScanUnquoted(x + rest) == End(|x|) && (x + rest)[..|x|] == x && (x + rest)[|x|..] == rest
  {
    var t := x + rest;
    UnquotedBounds(t);
    assert t[|x|] == rest[0] && t[|x|] in t;
    forall i | 0 <= i < |x| ensures !Separator(t[i]) && t[i] != '}' {
      assert t[i] == x[i] && x[i] in x;
    }
  }

  lemma PlainToken(x: string, rest: string)
    requires IsPlain(x) && rest != "" && Follows(rest)
    ensures var t := x + rest;
            && GetNext(t).Found? && GetNext(t).token == (if x == "NULL" then Token(NullValue, "") else Token(StringValue, x))
            && GetNext(t).consumed <= |t| && t[GetNext(t).consumed..] == SkipSeparator(rest)
  {
    var t := x + rest;
    PlainScans(x, rest);
    assert t[0] == x[0] && x[0] in x && t[|x|] == rest[0];
    assert Separator(rest[0]) ==> t[|x| + 1..] == rest[1..];
  }

  lemma ListStart(es: seq<Elem>, d: Delimiter, rest: string)
    requires rest != "" && rest[0] == '}'
    ensures var t := PrintList(es, d) + rest; t != "" && !Separator(t[0])
  {
    if es != [] {
      var x := Print(es[0], d);
      assert x != "" && !Separator(x[0]) by {
        if es[0].Bare? {
          assert x[0] in x;
        }
      }
      assert (PrintList(es, d) + rest)[0] == x[0];
    }
  }

  /** One printed element, followed by a separator, a brace or nothing, is read back as its own tokens. */
  lemma {:induction false} ElemTokens(e: Elem, d: Delimiter, rest: string)
    requires Follows(rest) && (e.Null? || e.Bare? ==> rest != "")
    ensures Tokens(Print(e, d) + rest) == Prepend(Flatten(e), Tokens(SkipSeparator(rest)))
    decreases e, 1
  {
    match e
    case Null => PlainToken("NULL", rest);
    case Str(s) => StringToken(s, rest);
    case Bare(text) => PlainToken(text, rest);
    case Arr(es) =>
      var t, inner := Print(e, d) + rest, PrintList(es, d) + ("}" + rest);
      ListStart(es, d, "}" + rest);
      assert t[1..] == inner;
      ListTokens(es, d, "}" + rest);
      CloseToken(rest);
      PrependTwice([Token(RowStart, "")], FlattenList(es), Tokens("}" + rest));
      PrependTwice([Token(RowStart, "")] + FlattenList(es), [Token(RowEnd, "")], Tokens(SkipSeparator(rest)));
  }

  lemma CloseToken(rest: string)
    ensures Tokens("}" + rest) == Prepend([Token(RowEnd, "")], Tokens(SkipSeparator(rest)))
  {
    var t := "}" + rest;
    assert t[1..] == rest;
    if rest != "" && Separator(rest[0]) {
      assert t[2..] == rest[1..];
    }
  }

  lemma PrependTwice(a: seq<Token>, b: seq<Token>, o: Outcome)
    ensures Prepend(a, Prepend(b, o)) == Prepend(a + b, o)
  {
    if o.Parsed? {
      assert a + (b + o.tokens) == (a + b) + o.tokens;
    }
  }

  lemma {:induction false} ListTokens(es: seq<Elem>, d: Delimiter, rest: string)
    requires rest != "" && rest[0] == '}'
    ensures Tokens(PrintList(es, d) + rest) == Prepend(FlattenList(es), Tokens(rest))
    decreases es, 0
  {
    if es == [] {
      assert PrintList(es, d) + rest == rest;
      PrependNothing(Tokens(rest));
    } else if |es| == 1 {
      assert PrintList(es, d) == Print(es[0], d);
      ElemTokens(es[0], d, rest);
      assert FlattenList(es) == Flatten(es[0]);
    } else {
      var more := [d] + PrintList(es[1..], d) + rest;
      assert PrintList(es, d) + rest == Print(es[0], d) + more;
      assert more[1..] == PrintList(es[1..], d) + rest;
      ElemTokens(es[0], d, more);
      ListTokens(es[1..], d, rest);
      PrependTwice(Flatten(es[0]), FlattenList(es[1..]), Tokens(rest));
    }
  }

  lemma PrependNothing(o: Outcome)
    ensures Prepend([], o) == o
  {
    if o.Parsed? {
      assert [] + o.tokens == o.tokens;
    }
  }

  /** Round trip: the printed form of any nested array of strings, quoted or not, and nulls is read
      back as exactly its brackets and leaves in order, and then Done. */
  lemma RoundTrip(es: seq<Elem>, d: Delimiter)
    ensures Tokens(Print(Arr(es), d)) == Parsed(Flatten(Arr(es)) + [Token(Done, "")])
  {
    ElemTokens(Arr(es), d, "");
    assert Print(Arr(es), d) + "" == Print(Arr(es), d);
  }

  /** A bracket is a token of its own, with one separator behind it. */
  lemma BracketTokens(rest: string)
    ensures GetNext("{" + rest) == Found(Token(RowStart, ""), if rest != "" && (rest[0] == ',' || rest[0] == ';') then 2 else 1)
    ensures GetNext("}" + rest) == Found(Token(RowEnd, ""), if rest != "" && (rest[0] == ',' || rest[0] == ';') then 2 else 1)
  {
    assert rest != "" ==> ("{" + rest)[1] == rest[0] && ("}" + rest)[1] == rest[0];
  }

  // ------------------------------------------------------------------ where decoding is not the inverse of escaping

  /** Backslash escaping of the quote and of the backslash, as SQL servers send it. */
  function Backslashed(q: Style, s: string): string {
    if s == "" then "" else (if s[0] == Quote(q) || s[0] == '\\' then ['\\', s[0]] else [s[0]]) + Backslashed(q, s[1..])
  }

  /** The string with every quote replaced by a backslash. */
  function Blurred(q: Style, s: string): string {
    if s == "" then "" else [if s[0] == Quote(q) then '\\' else s[0]] + Blurred(q, s[1..])
  }

  lemma {:induction false} BlurredSame(q: Style, s: string)
    ensures Blurred(q, s) == s <==> Quote(q) !in s
  {
    if s != "" {
      BlurredSame(q, s[1..]);
      assert s == [s[0]] + s[1..];
      assert Blurred(q, s)[1..] == Blurred(q, s[1..]);
    }
  }

  lemma ScanPair(q: Style, c: char, t: string)
    ensures ScanQuoted(q, ['\\', c] + t) == Shift(ScanQuoted(q, t), 2)
  {
    assert (['\\', c] + t)[2..] == t;
  }

  lemma ScanOther(q: Style, c: char, t: string)
    requires c != '\\' && c != Quote(q)
    ensures ScanQuoted(q, [c] + t) == Shift(ScanQuoted(q, t), 1)
  {
    assert ([c] + t)[1..] == t;
  }

  lemma {:induction false} BackslashedScans(q: Style, s: string)
    ensures ScanQuoted(q, Backslashed(q, s) + [Quote(q)]) == End(|Backslashed(q, s)| + 1)
  {
    if s != "" {
      var rest := Backslashed(q, s[1..]) + [Quote(q)];
      BackslashedScans(q, s[1..]);
      if s[0] == Quote(q) || s[0] == '\\' {
        ScanPair(q, s[0], rest);
        assert Backslashed(q, s) + [Quote(q)] == ['\\', s[0]] + rest;
      } else {
        ScanOther(q, s[0], rest);
        assert Backslashed(q, s) + [Quote(q)] == [s[0]] + rest;
      }
    }
  }

  lemma {:induction false} BackslashedDecodes(q: Style, s: string)
    ensures Decode(q, Backslashed(q, s)) == Blurred(q, s)
  {
    if s != "" {
      var k := if s[0] == Quote(q) || s[0] == '\\' then 2 else 1;
      BackslashedDecodes(q, s[1..]);
      assert Backslashed(q, s)[k..] == Backslashed(q, s[1..]);
    }
  }

  /** In both quote styles a backslash-escaped string is read back unchanged if and only if it does
      not contain the quote: the decoders keep the backslash of a pair instead of the character
      behind it. */
  lemma BackslashRoundTrip(q: Style, s: string)
    ensures var t := [Quote(q)] + Backslashed(q, s) + [Quote(q)];
            GetNext(t) == Found(Token(StringValue, s), |t|) <==> Quote(q) !in s
  {
    var t := [Quote(q)] + Backslashed(q, s) + [Quote(q)];
    BackslashedScans(q, s);
    BackslashedDecodes(q, s);
    BlurredSame(q, s);
    Quoted([Quote(q)], Backslashed(q, s), "");
    assert t + "" == t && Backslashed(q, s) + [Quote(q)] + "" == Backslashed(q, s) + [Quote(q)];
    assert GetNext(t) == Found(Token(StringValue, Blurred(q, s)), |t|);
  }

  /** The smallest failure: the double-quoted text of a lone quote is read as a lone backslash. */
  lemma EscapedQuoteBecomesBackslash()
    ensures GetNext("\"\\\"\"") == Found(Token(StringValue, "\\"), 4)
  {
    var t := "\"\\\"\"";
    assert t[1..] == "\\\"\"";
    assert t[1..][2..] == "\"";
    assert t[1..3] == "\\\"";
  }

  // ------------------------------------------------------------------ the array as Field::asArray sees it

  /** The leaves of an element in order, NULL as None. */
  function Leaves(e: Elem): seq<Option<string>>
    decreases e, 1
  {
    match e
    case Null => [None]
    case Str(s) => [Some(s)]
    case Bare(text) => [Some(text)]
    case Arr(es) => LeavesList(es)
  }

  function LeavesList(es: seq<Elem>): seq<Option<string>>
    decreases es, 0
  {
    if es == [] then [] else Leaves(es[0]) + LeavesList(es[1..])
  }

  /** What `asArray` keeps of a token. */
  function LeafOf(token: Token): seq<Option<string>> {
    match token.juncture
    case StringValue => [Some(token.value)]
    case NullValue => [None]
    case _ => []
  }

  function LeavesOf(tokens: seq<Token>): seq<Option<string>> {
    if tokens == [] then [] else LeafOf(tokens[0]) + LeavesOf(tokens[1..])
  }

  lemma Regroup<T>(a: seq<T>, b: seq<T>, c: seq<T>)
    ensures a + (b + c) == (a + b) + c
  {
  }

  lemma {:induction false} LeavesOfConcat(a: seq<Token>, b: seq<Token>)
    ensures LeavesOf(a + b) == LeavesOf(a) + LeavesOf(b)
  {
    if a == [] {
      assert a + b == b;
    } else {
      LeavesOfConcat(a[1..], b);
      assert (a + b)[1..] == a[1..] + b && (a + b)[0] == a[0];
      Regroup(LeafOf(a[0]), LeavesOf(a[1..]), LeavesOf(b));
    }
  }

  lemma {:induction false} FlattenLeaves(e: Elem)
    ensures LeavesOf(Flatten(e)) == Leaves(e)
    decreases e, 1
  {
    match e
    case Null =>
    case Str(s) =>
    case Bare(text) =>
    case Arr(es) =>
      FlattenListLeaves(es);
      LeavesOfConcat([Token(RowStart, "")] + FlattenList(es), [Token(RowEnd, "")]);
      LeavesOfConcat([Token(RowStart, "")], FlattenList(es));
  }

  lemma {:induction false} FlattenListLeaves(es: seq<Elem>)
    ensures LeavesOf(FlattenList(es)) == LeavesList(es)
    decreases es, 0
  {
    if es != [] {
      FlattenLeaves(es[0]);
      FlattenListLeaves(es[1..]);
      LeavesOfConcat(Flatten(es[0]), FlattenList(es[1..]));
    }
  }

  /** The leaves of a printed array, read back, are its leaves. */
  lemma ArrayLeaves(es: seq<Elem>, d: Delimiter)
    ensures Tokens(Print(Arr(es), d)).Parsed? && LeavesOf(Tokens(Print(Arr(es), d)).tokens) == LeavesList(es)
  {
    RoundTrip(es, d);
    FlattenLeaves(Arr(es));
    LeavesOfConcat(Flatten(Arr(es)), [Token(Done, "")]);
  }

  // ------------------------------------------------------------------ C strings

  ghost predicate NulFree(e: Elem)
    decreases e, 1
  {
    match e
    case Null => true
    case Str(s) => '\0' !in s
    case Bare(text) => '\0' !in text
    case Arr(es) => forall i :: 0 <= i < |es| ==> NulFree(es[i])
  }

  lemma {:induction false} DoubledNulFree(s: string)
    ensures '\0' in Doubled(s) <==> '\0' in s
  {
    if s != "" {
      DoubledNulFree(s[1..]);
      assert s == [s[0]] + s[1..];
    }
  }

  /** The printed form of an array is a C string exactly when all its leaves are. */
  lemma {:induction false} PrintNulFree(e: Elem, d: Delimiter)
    ensures '\0' !in Print(e, d) <==> NulFree(e)
    decreases e, 1
  {
    match e
    case Null =>
    case Str(s) => DoubledNulFree(s);
    case Bare(text) =>
    case Arr(es) => PrintListNulFree(es, d);
  }

  lemma {:induction false} PrintListNulFree(es: seq<Elem>, d: Delimiter)
    ensures '\0' !in PrintList(es, d) <==> forall i :: 0 <= i < |es| ==> NulFree(es[i])
    decreases es, 0
  {
    if es != [] {
      PrintNulFree(es[0], d);
      PrintListNulFree(es[1..], d);
      assert forall i :: 1 <= i < |es| ==> es[i] == es[1..][i - 1];
    }
  }
}
