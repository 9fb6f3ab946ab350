/** The pointer loops of db/ArrayParser.cpp and the reader of db/Field.h, proved against module
    ArrayText.  Positions are offsets into the input; the character at the end offset is the NUL. */
module ArrayParser {
  import opened Options
  import opened ArrayText

  function CharAt(s: string, i: nat): char
    requires i <= |s|
  {
    if i < |s| then s[i] else '\0'
  }

  ghost predicate CString(s: string) {
    forall i :: 0 <= i < |s| ==> s[i] != '\0'
  }

  /** A quoted scan behind one more character, or one more pair. */
  lemma ScanOn(q: Style, t: string, k: nat)
    requires t != "" && t[0] != Quote(q)
    ensures t[0] != '\\' ==> Shift(ScanQuoted(q, t), k) == Shift(ScanQuoted(q, t[1..]), k + 1)
    ensures t[0] == '\\' && |t| > 1 ==> Shift(ScanQuoted(q, t), k) == Shift(ScanQuoted(q, t[2..]), k + 2)
    ensures t == "\\" ==> ScanQuoted(q, t) == Throws
  {
  }

  lemma ScanDoubledQuote(t: string, k: nat)
    requires t != "" && t[0] == '\''
    ensures |t| > 1 && t[1] == '\'' ==> Shift(ScanQuoted(Single, t), k) == Shift(ScanQuoted(Single, t[2..]), k + 2)
    ensures !(|t| > 1 && t[1] == '\'') ==> ScanQuoted(Single, t) == End(1)
  {
  }

  /** `scan_single_quoted_string`; an end is reported as its distance from `begin`. */
  method ScanSingleQuoted(s: string, begin: nat) returns (r: Scan)
    requires CString(s) && begin < |s| && s[begin] == '\''
    ensures r == Shift(ScanQuoted(Single, s[begin + 1..]), 1)
  {
    var here := begin + 1;
    while CharAt(s, here) != '\0'
      invariant begin < here <= |s|
      invariant Shift(ScanQuoted(Single, s[here..]), here - begin) == Shift(ScanQuoted(Single, s[begin + 1..]), 1)
      decreases |s| - here
    {
      ghost var t := s[here..];
      if s[here] == '\'' {
        ScanDoubledQuote(t, here - begin);
        here := here + 1;
        if CharAt(s, here) != '\'' {
          return End(here - begin);
        }
        assert t[2..] == s[here + 1..];
      } else if s[here] == '\\' {
        ScanOn(Single, t, here - begin);
        here := here + 1;
        if CharAt(s, here) == '\0' {
          return Throws;
        }
        assert t[2..] == s[here + 1..];
      } else {
        ScanOn(Single, t, here - begin);
        assert t[1..] == s[here + 1..];
      }
      here := here + 1;
    }
    r := Throws;
  }

  /** `scan_double_quoted_string`. */
  method ScanDoubleQuoted(s: string, begin: nat) returns (r: Scan)
    requires CString(s) && begin < |s| && s[begin] == '\"'
    ensures r == Shift(ScanQuoted(Double, s[begin + 1..]), 1)
  {
    var here := begin + 1;
    while CharAt(s, here) != '\0'
      invariant begin < here <= |s|
      invariant Shift(ScanQuoted(Double, s[here..]), here - begin) == Shift(ScanQuoted(Double, s[begin + 1..]), 1)
      decreases |s| - here
    {
      ghost var t := s[here..];
      if s[here] == '\\' {
        here := here + 1;
        if CharAt(s, here) == '\0' {
          return Throws;
        }
        assert t[2..] == s[here + 1..];
      } else if s[here] == '\"' {
        return End(here + 1 - begin);
      } else {
        assert t[1..] == s[here + 1..];
      }
      here := here + 1;
    }
    r := Throws;
  }

  function From(s: string, i: nat): string {
    if i <= |s| then s[i..] else ""
  }

  lemma DecodeStep(q: Style, output: string, t: string, rest: string)
    requires t != "" && rest == if Escapes(q, t[0]) then (if |t| == 1 then "" else t[2..]) else t[1..]
    ensures output + Decode(q, t) == output + [t[0]] + Decode(q, rest)
  {
  }

  /** `parse_single_quoted_string` and `parse_double_quoted_string`, whose asserts are the requires. */
  method ParseQuoted(q: Style, s: string, begin: nat, end: nat) returns (output: string)
    requires begin + 1 < end <= |s| && s[begin] == Quote(q) && s[end - 1] == Quote(q)
    ensures output == Decode(q, s[begin + 1..end - 1])
  {
    ghost var body := s[begin + 1..end - 1];
    output := "";
    var here := begin + 1;
    while here < end - 1
      invariant begin < here <= end
      invariant output + Decode(q, From(body, here - begin - 1)) == Decode(q, body)
      decreases end - here
    {
      var c := s[here];
      ghost var t := From(body, here - begin - 1);
      if Escapes(q, c) {
        here := here + 1;
      }
      here := here + 1;
      DecodeStep(q, output, t, From(body, here - begin - 1));
      output := output + [c];
    }
  }

  /** `scan_unquoted_string`: the loop does not look for the NUL, so it can leave the text. */
  method ScanPlain(s: string, begin: nat) returns (r: Scan)
    requires begin < |s|
    ensures r == ScanUnquoted(s[begin..])
  {
    var p := begin;
    while p < |s| && s[p] != ',' && s[p] != ';' && s[p] != '}'
      invariant begin <= p <= |s|
      invariant Shift(ScanUnquoted(s[p..]), p - begin) == ScanUnquoted(s[begin..])
    {
      assert s[p..][1..] == s[p + 1..];
      p := p + 1;
    }
    r := if p < |s| then End(p - begin) else Overrun;
  }

  class Parser {
    const input: Option<string>
    var pos: nat

    ghost predicate Valid()
      reads this
    {
      match input
      case None => pos == 0
      case Some(s) => CString(s) && pos <= |s|
    }

    /** The text still to be parsed; a null input counts as empty. */
    function Remaining(): string
      reads this
      requires Valid()
    {
      if input.Some? then input.value[pos..] else ""
    }

    constructor (input: Option<string>)
      requires input.Some? ==> CString(input.value)
      ensures Valid() && this.input == input && Remaining() == if input.Some? then input.value else ""
    {
      this.input := input;
      pos := 0;
    }

    /** The token and the position behind it, without the separator; or how the scan failed. */
    method ReadToken(s: string) returns (r: Step)
      requires Valid() && input == Some(s) && pos < |s|
      ensures r == match GetNext(s[pos..])
                   case Failed(scan) => Failed(scan)
                   case Found(token, n) => Found(token, if r.Found? then r.consumed else 0)
      ensures r.Found? ==> r.consumed <= |s| - pos
                           && GetNext(s[pos..]).consumed == WithSeparator(s[pos..], r.consumed)
    {
      ghost var t := s[pos..];
      GetNextProgress(t);
      match s[pos]
      case '{' => r := Found(Token(RowStart, ""), 1);
      case '}' => r := Found(Token(RowEnd, ""), 1);
      case '\'' =>
        var scan := ScanSingleQuoted(s, pos);
        r := FinishQuoted(Single, s, scan);
      case '\"' =>
        var scan := ScanDoubleQuoted(s, pos);
        r := FinishQuoted(Double, s, scan);
      case _ =>
        r := ReadPlain(s);
    }

    method ReadPlain(s: string) returns (r: Step)
      requires Valid() && input == Some(s) && pos < |s|
      ensures r == match UnquotedToken(s[pos..])
                   case Failed(scan) => Failed(scan)
                   case Found(token, n) => Found(token, if r.Found? then r.consumed else 0)
      ensures r.Found? ==> r.consumed <= |s| - pos
                           && UnquotedToken(s[pos..]).consumed == WithSeparator(s[pos..], r.consumed)
    {
      ghost var t := s[pos..];
      var scan := ScanPlain(s, pos);
      UnquotedBounds(t);
      match scan
      case End(n) =>
        assert t[..n] == s[pos..pos + n];
        if s[pos..pos + n] == "NULL" {
          r := Found(Token(NullValue, ""), n);
        } else {
          r := Found(Token(StringValue, s[pos..pos + n]), n);
        }
      case _ => r := Failed(scan);
    }

    lemma InnerText(s: string, at: nat, n: nat)
      requires at < |s| && 2 <= n <= |s| - at
      ensures s[at..][1..n - 1] == s[at + 1..at + n - 1] && s[at..][1..][..n - 2] == s[at..][1..n - 1]
    {
    }

    /** What `getNext` does with the result of a quoted-string scan. */
    method FinishQuoted(q: Style, s: string, scan: Scan) returns (r: Step)
      requires Valid() && input == Some(s) && pos < |s| && s[pos] == Quote(q)
      requires scan == Shift(ScanQuoted(q, s[pos + 1..]), 1)
      ensures r.Found? <==> scan.End?
      ensures r.Found? ==>
                && r.consumed == scan.length <= |s| - pos
                && QuotedToken(q, s[pos..]) == Found(r.token, WithSeparator(s[pos..], r.consumed))
      ensures r.Failed? ==> r == QuotedToken(q, s[pos..])
    {
      ghost var t := s[pos..];
      assert t[1..] == s[pos + 1..];
      match scan
      case End(n) =>
        Lockstep(q, t[1..]);
        InnerText(s, pos, n);
        var value := ParseQuoted(q, s, pos, pos + n);
        r := Found(Token(StringValue, value), n);
      case _ => r := Failed(scan);
    }

    /** `getNext`: it moves behind the token and one separator; when a scan fails it stays. */
    method GetNextToken() returns (r: Step)
      requires Valid()
      modifies this`pos
      ensures Valid() && r == GetNext(old(Remaining()))
      ensures Remaining() == if r.Found? then old(Remaining())[r.consumed..] else old(Remaining())
    {
      GetNextProgress(Remaining());
      if input == None || pos == |input.value| {
        return Found(Token(Done, ""), 0);
      }
      var s := input.value;
      r := ReadToken(s);
      if r.Found? {
        var end := pos + r.consumed;
        if Separator(CharAt(s, end)) {
          end := end + 1;
        }
        r := Found(r.token, end - pos);
        pos := end;
      }
    }
  }

  /** What `asArray` pushes for the leaves: a converted value, or a null pointer. */
  function Converted<T>(leaves: seq<Option<string>>, parse: string -> T): seq<Option<T>> {
    seq(|leaves|, i requires 0 <= i < |leaves| => if leaves[i].Some? then Some(parse(leaves[i].value)) else None)
  }

  datatype ArrayResult<T> = Values(values: seq<Option<T>>) | Error(scan: Scan)

  /** What one token adds. */
  function Pushed<T>(token: Token, parse: string -> T): seq<Option<T>> {
    match token.juncture
    case StringValue => [Some(parse(token.value))]
    case NullValue => [None]
    case _ => []
  }

  lemma ConvertedStep<T>(seen: seq<Token>, token: Token, parse: string -> T)
    ensures Converted(LeavesOf(seen + [token]), parse) == Converted(LeavesOf(seen), parse) + Pushed(token, parse)
  {
    LeavesOfConcat(seen, [token]);
    assert LeavesOf([token]) == LeafOf(token) + [] == LeafOf(token);
    ConvertedConcat(LeavesOf(seen), LeafOf(token), parse);
    assert Converted(LeafOf(token), parse) == Pushed(token, parse);
  }

  lemma ConvertedConcat<T>(a: seq<Option<string>>, b: seq<Option<string>>, parse: string -> T)
    ensures Converted(a + b, parse) == Converted(a, parse) + Converted(b, parse)
  {
  }

  /** What `asArray` returns for a text. */
  function ArrayOf<T>(o: Outcome, parse: string -> T): ArrayResult<T> {
    match o
    case Parsed(tokens) => Values(Converted(LeavesOf(tokens), parse))
    case Aborted(scan) => Error(scan)
  }

  /** What `asArray` returns for a printed array: its leaves in order, converted, NULL as null pointer. */
  lemma PrintedArrayIsRead<T>(es: seq<Elem>, d: Delimiter, parse: string -> T)
    ensures var r := ArrayOf(Tokens(Print(Arr(es), d)), parse);
            && r.Values? && |r.values| == |LeavesList(es)|
            && forall i :: 0 <= i < |r.values| ==>
                 (LeavesList(es)[i] == None <==> r.values[i] == None)
                 && (LeavesList(es)[i].Some? ==> r.values[i] == Some(parse(LeavesList(es)[i].value)))
  {
    ArrayLeaves(es, d);
  }

  lemma TokensStep(all: Outcome, seen: seq<Token>, t: string)
    requires all == Prepend(seen, Tokens(t)) && GetNext(t).Found?
    ensures GetNext(t).token.juncture != Done ==>
              GetNext(t).consumed <= |t| && all == Prepend(seen + [GetNext(t).token], Tokens(t[GetNext(t).consumed..]))
    ensures GetNext(t).token.juncture == Done ==> all == Parsed(seen + [GetNext(t).token])
  {
    GetNextProgress(t);
    if GetNext(t).token.juncture != Done {
      PrependTwice(seen, [GetNext(t).token], Tokens(t[GetNext(t).consumed..]));
    }
  }

  /** `seen` has been read, `t` is still to be read, and `ret` is what has been pushed. */
  ghost predicate Reading<T>(all: Outcome, seen: seq<Token>, t: string, ret: seq<Option<T>>, parse: string -> T) {
    all == Prepend(seen, Tokens(t)) && ret == Converted(LeavesOf(seen), parse)
  }

  /** One round of the loop. */
  lemma Round<T>(all: Outcome, seen: seq<Token>, t: string, ret: seq<Option<T>>, parse: string -> T)
    requires Reading(all, seen, t, ret, parse)
    ensures match GetNext(t)
            case Failed(scan) => ArrayOf(all, parse) == Error(scan)
            case Found(token, n) =>
              if token.juncture == Done then ArrayOf(all, parse) == Values(ret)
              else 0 < n <= |t| && Reading(all, seen + [token], t[n..], ret + Pushed(token, parse), parse)
  {
    GetNextProgress(t);
    if GetNext(t).Found? {
      TokensStep(all, seen, t);
      ConvertedStep(seen, GetNext(t).token, parse);
      assert ret + [] == ret;
    }
  }

  /** What the loop does with a token. */
  method Push<T>(ret: seq<Option<T>>, token: Token, parse: string -> T) returns (more: seq<Option<T>>)
    ensures more == ret + Pushed(token, parse)
  {
    match token.juncture
    case StringValue => more := ret + [Some(parse(token.value))];
    case NullValue => more := ret + [None];
    case _ => more := ret;
  }

  /** `Field::asArray`, for any conversion of a string to an element: it ends on every input, and
      returns the converted leaves of the tokens, unless a scan fails. */
  method AsArray<T>(input: Option<string>, parse: string -> T) returns (r: ArrayResult<T>)
    requires input.Some? ==> CString(input.value)
    ensures r == ArrayOf(Tokens(if input.Some? then input.value else ""), parse)
  {
    var parser := new Parser(input);
    ghost var all := Tokens(parser.Remaining());
    ghost var seen: seq<Token> := [];
    var ret: seq<Option<T>> := [];
    PrependNothing(all);
    while true
      invariant fresh(parser) && parser.Valid()
      invariant Reading(all, seen, parser.Remaining(), ret, parse)
      decreases |parser.Remaining()|
    {
      Round(all, seen, parser.Remaining(), ret, parse);
      var step := parser.GetNextToken();
      if step.Failed? {
        return Error(step.scan);
      }
      if step.token.juncture == Done {
        return Values(ret);
      }
      seen := seen + [step.token];
      ret := Push(ret, step.token, parse);
    }
  }
}
