/** The placeholder substitution of `execSqlInLoop`, MySQLImpl/MySQLConnector.cpp. */
module Placeholders {
  import opened Decimals
  import opened Options
  import opened SplitString

  type Int8 = n: int | -0x80 <= n < 0x80
  type Int16 = n: int | -0x8000 <= n < 0x8000
  type Int32 = n: int | -0x8000_0000 <= n < 0x8000_0000
  type Int64 = n: int | -0x8000_0000_0000_0000 <= n < 0x8000_0000_0000_0000

  /** A parameter as its format says to read it; `escaped` is what `mysql_real_escape_string` made of `raw`. */
  datatype Param =
    | Tiny(tiny: Int8) | Short(short: Int16) | Long(long: Int32) | LongLong(longLong: Int64)
    | Null | Text(raw: string, escaped: string) | DefaultValue | Unrecognized

  /** The text put in for a parameter. */
  function Render(p: Param): string
    requires !p.Unrecognized?
  {
    match p
    case Tiny(n) => Signed(n)
    case Short(n) => Signed(n)
    case Long(n) => Signed(n)
    case LongLong(n) => Signed(n)
    case Null => "NULL"
    case Text(_, escaped) => "'" + escaped + "'"
    case DefaultValue => "default"
  }

  /** The number an integer parameter holds. */
  function NumberOf(p: Param): Option<int> {
    match p
    case Tiny(n) => Some(n)
    case Short(n) => Some(n)
    case Long(n) => Some(n)
    case LongLong(n) => Some(n)
    case _ => None
  }

  /** The value of a decimal numeral, with or without a minus sign. */
  function Numeral(s: string): int {
    if s != "" && s[0] == '-' then 0 - LeadingValue(s[1..], 0) else LeadingValue(s, 0)
  }

  /** What is put in for a parameter: a numeral for its number, SQL's NULL or default, or the escaped
      text between quotes; and the kind of the parameter can be told from it. */
  lemma RenderMeaning(p: Param)
    requires !p.Unrecognized?
    ensures Render(p) != ""
    ensures NumberOf(p).Some? ==> Numeral(Render(p)) == NumberOf(p).value && (IsDigit(Render(p)[0]) || Render(p)[0] == '-')
    ensures Render(p) == "NULL" <==> p.Null?
    ensures Render(p) == "default" <==> p.DefaultValue?
    ensures p.Text? <==> Render(p)[0] == '\''
    ensures p.Text? ==> |Render(p)| == |p.escaped| + 2 && Render(p)[1..|p.escaped| + 1] == p.escaped && Render(p)[|p.escaped| + 1] == '\''
  {
    if NumberOf(p).Some? {
      var n := NumberOf(p).value;
      DecimalValue(if n < 0 then -n else n);
      assert n < 0 ==> Signed(n)[1..] == Decimal(-n);
      assert IsDigit(Decimal(if n < 0 then -n else n)[0]);
    }
  }

  /** The prepared text; None when a parameter of unrecognized format aborts the program. */
  function Substitute(sql: string, params: seq<Param>): Option<string> {
    if params == [] then Some(sql) else
    match Find(sql, "?", 0)
    case None => Some(sql)
    case Some(i) =>
      if params[0].Unrecognized? then None else
      match Substitute(sql[i + 1..], params[1..])
      case None => None
      case Some(rest) => Some(sql[..i] + Render(params[0]) + rest)
  }

  // ------------------------------------------------------------------ what it means

  /** The template cut at its first `n` question marks. */
  function Cut(sql: string, n: nat): (pieces: seq<string>)
    ensures pieces != [] && |pieces| <= n + 1
  {
    if n == 0 then [sql] else
    match Find(sql, "?", 0)
    case None => [sql]
    case Some(i) => [sql[..i]] + Cut(sql[i + 1..], n - 1)
  }

  function Marks(sql: string): nat {
    if sql == "" then 0 else (if sql[0] == '?' then 1 else 0) + Marks(sql[1..])
  }

  lemma {:induction false} MarksConcat(a: string, b: string)
    ensures Marks(a + b) == Marks(a) + Marks(b)
  {
    if a == "" {
      assert a + b == b;
    } else {
      MarksConcat(a[1..], b);
      assert (a + b)[1..] == a[1..] + b;
    }
  }

  lemma {:induction false} NoMarks(a: string)
    requires '?' !in a
    ensures Marks(a) == 0
  {
    if a != "" {
      NoMarks(a[1..]);
    }
  }

  lemma MarkOccurs(sql: string, j: nat)
    ensures OccursAt(sql, "?", j) <==> j < |sql| && sql[j] == '?'
  {
    assert j < |sql| ==> sql[j..j + 1] == [sql[j]];
  }

  lemma {:induction false} NoMarkFound(sql: string)
    requires Find(sql, "?", 0) == None
    ensures '?' !in sql && Marks(sql) == 0
  {
    FindMeaning(sql, "?", 0);
    forall j | 0 <= j < |sql| ensures sql[j] != '?' {
      MarkOccurs(sql, j);
    }
    NoMarks(sql);
  }

  /** The first question mark found splits the text. */
  lemma {:induction false} FirstMark(sql: string, i: nat)
    requires Find(sql, "?", 0) == Some(i)
    ensures sql == sql[..i] + "?" + sql[i + 1..] && '?' !in sql[..i]
    ensures Marks(sql) == 1 + Marks(sql[i + 1..])
  {
    FindMeaning(sql, "?", 0);
    MarkOccurs(sql, i);
    forall j | 0 <= j < i ensures sql[..i][j] != '?' {
      MarkOccurs(sql, j);
    }
    CountFirst(sql[..i], sql[i + 1..]);
    assert sql == sql[..i] + ("?" + sql[i + 1..]);
  }

  lemma {:induction false} CountFirst(front: string, rest: string)
    requires '?' !in front
    ensures Marks(front + ("?" + rest)) == 1 + Marks(rest)
  {
    NoMarks(front);
    MarksConcat(front, "?" + rest);
    assert ("?" + rest)[1..] == rest;
  }

  /** `Cut` cuts at the first min(n, number of question marks) question marks and nowhere else. */
  lemma {:induction false} CutMeaning(sql: string, n: nat)
    ensures |Cut(sql, n)| == 1 + if n <= Marks(sql) then n else Marks(sql)
    ensures Join(Cut(sql, n), "?") == sql
    ensures forall k :: 0 <= k < |Cut(sql, n)| - 1 ==> '?' !in Cut(sql, n)[k]
  {
    CutJoins(sql, n);
    forall k | 0 <= k < |Cut(sql, n)| - 1 ensures '?' !in Cut(sql, n)[k] {
      CutIsFree(sql, n, k);
    }
  }

  lemma {:induction false} CutJoins(sql: string, n: nat)
    ensures |Cut(sql, n)| == 1 + if n <= Marks(sql) then n else Marks(sql)
    ensures Join(Cut(sql, n), "?") == sql
  {
    if n > 0 {
      match Find(sql, "?", 0)
      case None => NoMarkFound(sql);
      case Some(i) =>
        FirstMark(sql, i);
        CutJoins(sql[i + 1..], n - 1);
        JoinCons(sql[..i], Cut(sql[i + 1..], n - 1), "?");
    }
  }

  lemma {:induction false} CutIsFree(sql: string, n: nat, k: nat)
    requires k < |Cut(sql, n)| - 1
    ensures '?' !in Cut(sql, n)[k]
  {
    FirstMark(sql, Find(sql, "?", 0).value);
    if k > 0 {
      CutIsFree(sql[Find(sql, "?", 0).value + 1..], n - 1, k - 1);
    }
  }

  predicate Recognized(params: seq<Param>) {
    forall k :: 0 <= k < |params| ==> !params[k].Unrecognized?
  }

  lemma RecognizedCons(p: Param, params: seq<Param>)
    ensures Recognized([p] + params) <==> !p.Unrecognized? && Recognized(params)
  {
    var all := [p] + params;
    if Recognized(all) {
      assert !all[0].Unrecognized?;
      forall k | 0 <= k < |params| ensures !params[k].Unrecognized? {
        assert all[k + 1] == params[k];
      }
    }
  }

  /** Pieces and rendered values in turn. */
  function Weave(pieces: seq<string>, params: seq<Param>): string
    requires |pieces| == |params| + 1 && Recognized(params)
  {
    if params == [] then pieces[0] else pieces[0] + Render(params[0]) + Weave(pieces[1..], params[1..])
  }

  lemma WeaveCons(piece: string, pieces: seq<string>, p: Param, params: seq<Param>)
    requires |pieces| == |params| + 1 && Recognized(params) && !p.Unrecognized? && Recognized([p] + params)
    ensures Weave([piece] + pieces, [p] + params) == piece + Render(p) + Weave(pieces, params)
  {
    assert ([piece] + pieces)[1..] == pieces && ([p] + params)[1..] == params;
    assert ([p] + params)[0] == p;
  }

  function Used(sql: string, params: seq<Param>): seq<Param> {
    params[..|Cut(sql, |params|)| - 1]
  }

  lemma UsedStep(sql: string, params: seq<Param>, i: nat)
    requires params != [] && Find(sql, "?", 0) == Some(i)
    ensures Used(sql, params) == [params[0]] + Used(sql[i + 1..], params[1..])
    ensures Used(sql, params)[1..] == Used(sql[i + 1..], params[1..])
  {
  }

  lemma {:induction false} AbortsExactly(sql: string, params: seq<Param>)
    ensures Substitute(sql, params).Some? <==> Recognized(Used(sql, params))
  {
    if params != [] && Find(sql, "?", 0).Some? {
      var i := Find(sql, "?", 0).value;
      AbortsExactly(sql[i + 1..], params[1..]);
      UsedStep(sql, params, i);
      RecognizedCons(params[0], Used(sql[i + 1..], params[1..]));
    }
  }

  /** The prepared text is the pieces of the template, whatever the values are, with the values in
      between: question marks inside values are never looked at, and surplus parameters neither
      appear nor abort. */
  lemma {:induction false} SubstituteMeaning(sql: string, params: seq<Param>)
    ensures Substitute(sql, params).Some? <==> Recognized(Used(sql, params))
    ensures Substitute(sql, params).Some? ==> Substitute(sql, params).value == Weave(Cut(sql, |params|), Used(sql, params))
  {
    AbortsExactly(sql, params);
    if Substitute(sql, params).Some? && params != [] && Find(sql, "?", 0).Some? {
      var i := Find(sql, "?", 0).value;
      SubstituteMeaning(sql[i + 1..], params[1..]);
      UsedStep(sql, params, i);
      WeaveCons(sql[..i], Cut(sql[i + 1..], |params| - 1), params[0], Used(sql[i + 1..], params[1..]));
    }
  }

  function Total(params: seq<Param>): nat
    requires Recognized(params)
  {
    if params == [] then 0 else |Render(params[0])| + Total(params[1..])
  }

  /** The exact length: every replaced question mark gives way to its value. */
  lemma {:induction false} SubstituteLength(sql: string, params: seq<Param>)
    requires Substitute(sql, params).Some?
    ensures Recognized(Used(sql, params))
    ensures |Substitute(sql, params).value| + |Used(sql, params)| == |sql| + Total(Used(sql, params))
  {
    if params != [] && Find(sql, "?", 0).Some? {
      var i := Find(sql, "?", 0).value;
      SubstituteLength(sql[i + 1..], params[1..]);
      UsedStep(sql, params, i);
      RecognizedCons(params[0], Used(sql[i + 1..], params[1..]));
    }
  }

  // ------------------------------------------------------------------ the code

  function Behind(done: string, rest: Option<string>): Option<string> {
    match rest case None => None case Some(r) => Some(done + r)
  }

  /** What the loop will have prepared in the end. */
  ghost function Outcome(text: string, sql: string, pos: nat, params: seq<Param>, i: nat): Option<string>
    requires pos <= |sql| && i <= |params|
  {
    Behind(text, Substitute(sql[pos..], params[i..]))
  }

  /** The text up to a question mark, and the value in place of it. */
  function Filled(text: string, sql: string, pos: nat, seek: nat, p: Param): string
    requires pos <= seek <= |sql| && !p.Unrecognized?
  {
    text + sql[pos..seek] + Render(p)
  }

  lemma {:induction false} LoopStart(sql: string, params: seq<Param>)
    ensures Outcome("", sql, 0, params, 0) == Substitute(sql, params)
  {
    assert sql[0..] == sql && params[0..] == params;
    var r := Substitute(sql, params);
    assert r.Some? ==> "" + r.value == r.value;
  }

  lemma {:induction false} LoopStep(text: string, sql: string, pos: nat, seek: nat, params: seq<Param>, i: nat)
    requires pos <= |sql| && i < |params| && Find(sql, "?", pos) == Some(seek)
    ensures params[i].Unrecognized? ==> Outcome(text, sql, pos, params, i) == None
    ensures !params[i].Unrecognized? ==>
              Outcome(text, sql, pos, params, i) ==
              Outcome(Filled(text, sql, pos, seek, params[i]), sql, seek + 1, params, i + 1)
  {
    FindFrom(sql, "?", pos);
    Shifted(sql, pos, seek - pos, seek - pos + 1);
    assert params[i..][1..] == params[i + 1..];
    if !params[i].Unrecognized? {
      Append(text, sql[pos..seek], Render(params[i]), Substitute(sql[seek + 1..], params[i + 1..]));
    }
  }

  lemma Append(text: string, piece: string, value: string, rest: Option<string>)
    ensures Behind(text + piece + value, rest) ==
            Behind(text, match rest case None => None case Some(r) => Some(piece + value + r))
  {
    assert rest.Some? ==> text + piece + value + rest.value == text + (piece + value + rest.value);
  }

  lemma {:induction false} LoopEnd(text: string, sql: string, pos: nat, params: seq<Param>, i: nat)
    requires pos <= |sql| && i <= |params| && (i == |params| || Find(sql, "?", pos) == None)
    ensures Outcome(text, sql, pos, params, i) == Some(text + sql[pos..])
    ensures pos == |sql| ==> text + sql[pos..] == text
  {
    FindFrom(sql, "?", pos);
  }

  /** The loop of `execSqlInLoop`. */
  method PrepareSql(sql: string, params: seq<Param>) returns (prepared: Option<string>)
    ensures prepared == Substitute(sql, params)
  {
    if |params| == 0 {
      return Some(sql);
    }
    var text, pos: nat, i: nat := "", 0, 0;
    LoopStart(sql, params);
    while i < |params|
      invariant i <= |params| && pos <= |sql|
      invariant Outcome(text, sql, pos, params, i) == Substitute(sql, params)
    {
      var seek := Find(sql, "?", pos);
      if seek == None {
        LoopEnd(text, sql, pos, params, i);
        return Some(text + sql[pos..]);
      }
      LoopStep(text, sql, pos, seek.value, params, i);
      if params[i].Unrecognized? {
        return None;
      }
      text := Filled(text, sql, pos, seek.value, params[i]);
      pos := seek.value + 1;
      i := i + 1;
    }
    LoopEnd(text, sql, pos, params, i);
    if pos < |sql| {
      text := text + sql[pos..];
    }
    return Some(text);
  }
}
