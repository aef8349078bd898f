/** The CSV ingest of semantic_agent/pipeline/ingest.py: column-name normalisation, the
    `tokens` parser and the row loop of `load_markets_from_csv`. pandas, `json.loads`
    and the datetime parsing are inputs: a row arrives as its cells, already keyed by
    normalised column name, together with its two parsed timestamps. */
module Ingest {
  import opened Wrappers
  import opened Seqs
  import opened Strings
  import opened Json
  import opened Models
  import Store

  predicate IsUnderscore(c: char) { c == '_' }

  predicate LowerNotSpace(c: char) { !IsUpper(c) && c != ' ' }

  /** `re.sub(r"(?<!^)(?=[A-Z])", "_", s)` on everything after the first character. */
  function MarkUppers(t: string): (r: string)
    ensures |r| >= |t|
    ensures (forall k :: 0 <= k < |t| ==> !IsUpper(t[k])) ==> r == t
    decreases |t|
  {
    if t == [] then []
    else (if IsUpper(t[0]) then ['_', t[0]] else [t[0]]) + MarkUppers(t[1..])
  }

  /** `re.sub(r"(?<!^)(?=[A-Z])", "_", s)`: an underscore before every ASCII capital
      except one at position 0. */
  function Underscored(s: string): (r: string)
    ensures |r| >= |s|
    ensures (forall k :: 0 <= k < |s| ==> !IsUpper(s[k])) ==> r == s
  {
    if s == [] then [] else [s[0]] + MarkUppers(s[1..])
  }

  /** `MarkUppers` only inserts underscores: every other character comes from `t`. */
  lemma {:induction false} MarkUppersOnlyInserts(t: string)
    ensures forall k :: 0 <= k < |MarkUppers(t)| ==> MarkUppers(t)[k] in t || MarkUppers(t)[k] == '_'
    decreases |t|
  {
    if t != [] {
      MarkUppersOnlyInserts(t[1..]);
      var head := if IsUpper(t[0]) then ['_', t[0]] else [t[0]];
      var r := MarkUppers(t);
      assert r == head + MarkUppers(t[1..]);
      forall k | 0 <= k < |r| ensures r[k] in t || r[k] == '_' {
        if k >= |head| {
          assert r[k] == MarkUppers(t[1..])[k - |head|];
        }
      }
    }
  }

  /** The substitution only inserts underscores. */
  lemma UnderscoredOnlyInserts(s: string)
    ensures forall k :: 0 <= k < |Underscored(s)| ==> Underscored(s)[k] in s || Underscored(s)[k] == '_'
  {
    if s != [] {
      MarkUppersOnlyInserts(s[1..]);
      var r := Underscored(s);
      forall k | 0 <= k < |r| ensures r[k] in s || r[k] == '_' {
        if k >= 1 {
          assert r[k] == MarkUppers(s[1..])[k - 1];
        }
      }
    }
  }

  /** `_camel_to_snake(name)` on ASCII input. */
  function CamelToSnake(name: string): string {
    StripWith(Spaced(name), IsUnderscore)
  }

  /** No capital and no space, and no underscore at either end. */
  predicate SnakeShaped(r: string) {
    && (forall k :: 0 <= k < |r| ==> !IsUpper(r[k]) && r[k] != ' ')
    && (r != [] ==> r[0] != '_' && r[|r| - 1] != '_')
  }

  /** The snake-case name has no capital and no space, and neither starts nor ends with
      an underscore. */
  lemma CamelToSnakeShape(name: string)
    ensures SnakeShaped(CamelToSnake(name))
  {
    StripKeepsLower(Spaced(name));
  }

  /** Stripping underscores keeps a string free of capitals and spaces. */
  lemma StripKeepsLower(s: string)
    requires forall k :: 0 <= k < |s| ==> LowerNotSpace(s[k])
    ensures SnakeShaped(StripWith(s, IsUnderscore))
  {
    StripWithKeeps(s, IsUnderscore, LowerNotSpace);
  }

  /** A snake-shaped name is left as it is. */
  lemma SnakeShapedFixed(s: string)
    requires SnakeShaped(s)
    ensures CamelToSnake(s) == s
  {
    assert Underscored(s) == s;
    assert Lower(s) == s;
    assert ReplaceChar(s, ' ', '_') == s;
    assert Spaced(s) == s;
    StripWithUnchanged(s, IsUnderscore);
  }

  /** The underscored name, lowered, with spaces turned into underscores: no capital and
      no space is left. */
  function Spaced(name: string): (r: string)
    ensures forall k :: 0 <= k < |r| ==> LowerNotSpace(r[k])
  {
    ReplaceChar(Lower(Underscored(name)), ' ', '_')
  }

  /** Applying `_camel_to_snake` again changes nothing. */
  lemma CamelToSnakeIdempotent(name: string)
    ensures CamelToSnake(CamelToSnake(name)) == CamelToSnake(name)
  {
    CamelToSnakeShape(name);
    SnakeShapedFixed(CamelToSnake(name));
  }

  /** Every capital after the first character gets its own underscore, so an upper-case
      run such as "ID" is split letter by letter: "aID" becomes "a_i_d". */
  lemma CamelToSnakeSplitsCapitals()
    ensures CamelToSnake("aID") == "a_i_d"
  {
    assert "aID"[1..] == "ID" && "ID"[1..] == "D";
    assert MarkUppers("D") == "_D";
    assert MarkUppers("ID") == "_I_D";
    assert Underscored("aID") == "a_I_D";
    assert Lower("a_I_D") == "a_i_d";
    assert ReplaceChar("a_i_d", ' ', '_') == "a_i_d";
    StripWithUnchanged("a_i_d", IsUnderscore);
  }

  /** One entry of the `renames` table, applied the way `df.rename` does when `from` is
      present and `to` is not. */
  function RenameIfAbsent(cols: seq<string>, from: string, to: string): (r: seq<string>)
    ensures |r| == |cols|
    ensures from in cols && to !in cols ==> to in r && from !in r
    ensures !(from in cols && to !in cols) ==> r == cols
    ensures forall c :: c != from && c != to ==> (c in r <==> c in cols)
  {
    if from in cols && to !in cols then
      var r := Map(cols, (c: string) => if c == from then to else c);
      assert forall k :: 0 <= k < |r| ==> r[k] != from;
      assert to in r by {
        var k :| 0 <= k < |cols| && cols[k] == from;
        assert r[k] == to;
      }
      assert forall c :: c != from && c != to && c in cols ==> c in r by {
        forall c | c != from && c != to && c in cols
          ensures c in r
        {
          var k :| 0 <= k < |cols| && cols[k] == c;
          assert r[k] == c;
        }
      }
      r
    else cols
  }

  /** The column names after `_camel_to_snake(str(c).strip())`. */
  function SnakeColumns(header: seq<string>): (cols: seq<string>)
    ensures |cols| == |header|
    ensures forall k :: 0 <= k < |header| ==> cols[k] == CamelToSnake(Strip(header[k]))
  {
    Map(header, (c: string) => CamelToSnake(Strip(c)))
  }

  /** The two renames of `_normalize_columns`, in order. */
  function Renamed(cols: seq<string>): (r: seq<string>)
    ensures |r| == |cols|
  {
    RenameIfAbsent(RenameIfAbsent(cols, "end_date_iso", "end_time"), "game_start_time", "start_time")
  }

  /** `_normalize_columns` on the header. */
  function NormalizeColumns(header: seq<string>): (cols: seq<string>)
    ensures |cols| == |header|
  {
    Renamed(SnakeColumns(header))
  }

  /** The renames never overwrite a column: a legacy name is renamed exactly when its
      modern name is absent, and every other column keeps its name. */
  lemma RenamesOnlyIntoAbsentColumns(cols: seq<string>)
    ensures var r := Renamed(cols);
            && ("end_time" in cols ==> ("end_date_iso" in r <==> "end_date_iso" in cols))
            && ("end_date_iso" in cols && "end_time" !in cols ==> "end_time" in r && "end_date_iso" !in r)
            && ("start_time" in cols ==> ("game_start_time" in r <==> "game_start_time" in cols))
            && ("game_start_time" in cols && "start_time" !in cols ==>
                  "start_time" in r && "game_start_time" !in r)
            && (forall c :: c !in {"end_date_iso", "end_time", "game_start_time", "start_time"} ==>
                  (c in r <==> c in cols))
  {
  }

  /** A value pandas can hand the row loop. `Items` is an already-built Python list. */
  datatype Cell =
    | NaN
    | Str(s: string)
    | Number(repr: string, zero: bool)
    | Items(values: seq<Json>)

  /** `str(value)` for a cell that is not a list. */
  function StrOf(c: Cell, pyStr: Json -> string): string {
    match c
    case NaN => "nan"
    case Str(s) => s
    case Number(repr, _) => repr
    case Items(vs) => pyStr(JArray(vs))
  }

  /** Python truthiness of a cell: NaN is a true float. */
  predicate CellTruthy(c: Cell) {
    match c
    case NaN => true
    case Str(s) => s != ""
    case Number(_, zero) => !zero
    case Items(vs) => vs != []
  }

  /** The outcome a single token contributes: a dict whose `winner` is `True` and whose
      `outcome` is exactly "YES" or "NO". */
  function WinnerOutcome(t: Json): Option<Outcome> {
    if t.JObject? && Get(t.entries, "winner") == Some(JBool(true)) then
      match Get(t.entries, "outcome")
      case Some(JString(s)) => ParseOutcome(s)
      case _ => None
    else None
  }

  /** The list a `tokens` cell holds or parses to, or None when it is not a list. */
  function TokenList(c: Cell, loads: string -> Option<Json>): Option<seq<Json>> {
    match c
    case Str(s) => (match loads(s) case Some(JArray(items)) => Some(items) case _ => None)
    case Items(vs) => Some(vs)
    case _ => None
  }

  /** The outcome of the first token that names a winner, the loop's `break`. */
  function FirstWinner(items: seq<Json>): Option<Outcome>
    decreases |items|
  {
    if items == [] then None
    else if WinnerOutcome(items[0]).Some? then WinnerOutcome(items[0])
    else FirstWinner(items[1..])
  }

  /** No outcome exactly when no token names a winner; an outcome is that of some token. */
  lemma {:induction false} FirstWinnerMeaning(items: seq<Json>)
    ensures FirstWinner(items).None? <==> forall i :: 0 <= i < |items| ==> WinnerOutcome(items[i]).None?
    ensures FirstWinner(items).Some? ==>
              exists i :: 0 <= i < |items| && WinnerOutcome(items[i]) == FirstWinner(items)
    decreases |items|
  {
    if items != [] && WinnerOutcome(items[0]).None? {
      var rest := items[1..];
      FirstWinnerMeaning(rest);
      assert forall i :: 1 <= i < |items| ==> items[i] == rest[i - 1];
      if FirstWinner(rest).Some? {
        var i :| 0 <= i < |rest| && WinnerOutcome(rest[i]) == FirstWinner(rest);
        assert WinnerOutcome(items[i + 1]) == FirstWinner(items);
      }
    }
  }

  /** The token found first decides: later winners play no part. */
  lemma {:induction false} FirstWinnerAt(items: seq<Json>, i: nat)
    requires i < |items| && WinnerOutcome(items[i]).Some?
    requires forall j :: 0 <= j < i ==> WinnerOutcome(items[j]).None?
    ensures FirstWinner(items) == WinnerOutcome(items[i])
    decreases i
  {
    if i > 0 {
      var rest := items[1..];
      assert WinnerOutcome(items[0]).None?;
      assert rest[i - 1] == items[i];
      assert forall j :: 0 <= j < i - 1 ==> rest[j] == items[j + 1];
      FirstWinnerAt(rest, i - 1);
    }
  }

  /** `_parse_tokens(tokens)` as a value, `tokens` being None when the column is absent:
      the resolved outcome and whether the market is binary. */
  function ParseTokensSpec(tokens: Option<Cell>, loads: string -> Option<Json>): (r: (Option<Outcome>, bool))
    ensures tokens.None? || tokens == Some(NaN) ==> r == (None, true)
    ensures tokens.Some? && tokens.value != NaN ==>
              (r.1 <==> TokenList(tokens.value, loads).Some? && |TokenList(tokens.value, loads).value| == 2)
    ensures tokens.Some? && tokens.value != NaN && TokenList(tokens.value, loads).Some? ==>
              r.0 == FirstWinner(TokenList(tokens.value, loads).value)
    ensures r.0.Some? ==> tokens.Some? && TokenList(tokens.value, loads).Some?
  {
    if tokens.None? || tokens.value == NaN then (None, true)
    else match TokenList(tokens.value, loads)
      case None => (None, false)
      case Some(items) => if items == [] then (None, false) else (FirstWinner(items), |items| == 2)
  }

  /** `_parse_tokens(tokens)`: scans the tokens until the first winner. */
  method ParseTokens(tokens: Option<Cell>, loads: string -> Option<Json>)
    returns (resolved: Option<Outcome>, isBinary: bool)
    ensures (resolved, isBinary) == ParseTokensSpec(tokens, loads)
  {
    if tokens.None? || tokens.value == NaN {
      return None, true;
    }
    var v := TokenList(tokens.value, loads);
    if v.None? || v.value == [] {
      return None, false;
    }
    var items := v.value;
    isBinary := |items| == 2;
    resolved := None;
    var i := 0;
    while i < |items|
      invariant 0 <= i <= |items|
      invariant resolved.None?
      invariant forall j :: 0 <= j < i ==> WinnerOutcome(items[j]).None?
    {
      var w := WinnerOutcome(items[i]);
      if w.Some? {
        FirstWinnerAt(items, i);
        resolved := w;
        return;
      }
      i := i + 1;
    }
    FirstWinnerMeaning(items);
  }

  /** Tokens that decide the row: two tokens whose second is the `YES` winner. */
  lemma ParseTokensExample(loads: string -> Option<Json>)
    ensures var yes := JObject([("outcome", JString("YES")), ("winner", JBool(true))]);
            var no := JObject([("outcome", JString("NO")), ("winner", JBool(false))]);
            ParseTokensSpec(Some(Items([no, yes])), loads) == (Some(YES), true)
  {
    var yes := JObject([("outcome", JString("YES")), ("winner", JBool(true))]);
    var no := JObject([("outcome", JString("NO")), ("winner", JBool(false))]);
    assert Get(no.entries, "winner") == Some(JBool(false));
    assert Get(yes.entries, "winner") == Some(JBool(true));
    assert Get(yes.entries, "outcome") == Some(JString("YES"));
    FirstWinnerAt([no, yes], 1);
  }

  /** A row of the normalised frame: its index label as text, its cells by column, and
      the results of `_safe_datetime` on its start and end columns. */
  datatype CsvRow = CsvRow(name: string, cells: map<string, Cell>,
                           startTime: Option<Timestamp>, endTime: Option<Timestamp>)

  function CellAt(row: CsvRow, col: string): Option<Cell> {
    if col in row.cells then Some(row.cells[col]) else None
  }

  /** `str(row.get("question", "")).strip()`. */
  function QuestionOf(row: CsvRow, pyStr: Json -> string): (q: string)
    ensures q == Strip(q)
  {
    match CellAt(row, "question")
    case None => ""
    case Some(c) => StripWithIdempotent(StrOf(c, pyStr), IsSpace); Strip(StrOf(c, pyStr))
  }

  /** The tag logic: a non-empty string is parsed (bad JSON gives []) and the loaded
      value must be a list of strings, or `Market(...)` raises; a list is str-ified
      element by element; anything else gives []. */
  function TagsOf(cell: Option<Cell>, loads: string -> Option<Json>, pyStr: Json -> string)
    : (r: Option<seq<string>>)
    ensures cell.None? || cell == Some(NaN) || (cell.Some? && cell.value.Number?) ==> r == Some([])
    ensures cell == Some(Str("")) ==> r == Some([])
    ensures cell.Some? && cell.value.Str? && cell.value.s != "" ==>
              r == (match loads(cell.value.s) case None => Some([]) case Some(v) => StringList(v))
    ensures cell.Some? && cell.value.Items? ==>
              r.Some? && r.value == Map(cell.value.values, pyStr)
  {
    match cell
    case None => Some([])
    case Some(c) =>
      match c
      case Str(s) =>
        if s == "" then Some([])
        else (match loads(s) case None => Some([]) case Some(v) => StringList(v))
      case Items(vs) => Some(Map(vs, pyStr))
      case _ => Some([])
  }

  /** The description: absent or NaN gives None, otherwise the stripped text or None. */
  function DescriptionOf(cell: Option<Cell>, pyStr: Json -> string): (r: Option<string>)
    ensures r.Some? ==> cell.Some? && r.value != "" && r.value == Strip(StrOf(cell.value, pyStr))
    ensures cell.None? || cell == Some(NaN) ==> r.None?
  {
    match cell
    case None => None
    case Some(c) =>
      if c == NaN then None
      else
        var d := Strip(StrOf(c, pyStr));
        if d == "" then None else Some(d)
  }

  /** The id column `load_markets_from_csv` reads; None when it adds `question_id` from
      the index because neither id column exists. */
  function IdColumn(cols: seq<string>): (r: Option<string>)
    ensures r.Some? ==> r.value in cols
    ensures r.None? <==> "question_id" !in cols && "condition_id" !in cols
  {
    if "question_id" in cols then Some("question_id")
    else if "condition_id" in cols then Some("condition_id")
    else None
  }

  /** `str(row.get(id_col, row.get("condition_id", ""))).strip() or str(row.name)`. */
  function MarketIdOf(row: CsvRow, idCol: Option<string>, pyStr: Json -> string): (id: string)
    ensures id == row.name || (id != "" && id == Strip(id))
  {
    var raw :=
      if idCol.None? then row.name
      else match CellAt(row, idCol.value)
        case Some(c) => StrOf(c, pyStr)
        case None =>
          match CellAt(row, "condition_id")
          case Some(c) => StrOf(c, pyStr)
          case None => "";
    StripWithIdempotent(raw, IsSpace);
    var t := Strip(raw);
    if t == "" then row.name else t
  }

  /** `row.get("market_slug") or row.get("slug")`, stripped; NaN and absence give None. */
  function SlugOf(row: CsvRow, pyStr: Json -> string): (r: Option<string>)
    ensures r.Some? ==> r.value == Strip(r.value)
    ensures CellAt(row, "market_slug").Some? && CellTruthy(CellAt(row, "market_slug").value) ==>
              r == (if CellAt(row, "market_slug") == Some(NaN) then None
                    else Some(Strip(StrOf(CellAt(row, "market_slug").value, pyStr))))
  {
    var first := CellAt(row, "market_slug");
    var slug := if first.Some? && CellTruthy(first.value) then first else CellAt(row, "slug");
    match slug
    case None => None
    case Some(c) =>
      StripWithIdempotent(StrOf(c, pyStr), IsSpace);
      if c == NaN then None else Some(Strip(StrOf(c, pyStr)))
  }

  /** `duration_days`: computed only when both timestamps are present. */
  function DurationOf(row: CsvRow, days: (Timestamp, Timestamp) -> real): (d: Option<real>)
    ensures d.Some? <==> row.startTime.Some? && row.endTime.Some?
  {
    if row.startTime.Some? && row.endTime.Some? then Some(days(row.startTime.value, row.endTime.value))
    else None
  }

  /** The reader's keyword arguments and the inputs that stand for `json.loads`, `str`
      and the day count of a timestamp difference. */
  datatype LoadOptions = LoadOptions(
    sourceLabel: string,
    minDurationDays: real,
    requireResolved: bool,
    requireBinary: bool,
    loads: string -> Option<Json>,
    pyStr: Json -> string,
    days: (Timestamp, Timestamp) -> real)

  /** What the loader promises about every market it returns: the pydantic constraint
      (a non-empty question), the requested source label, and every active filter
      satisfied. */
  predicate Admissible(m: Market, opts: LoadOptions) {
    && |m.question| >= 1
    && m.source == opts.sourceLabel
    && (opts.requireBinary ==> m.isBinary)
    && (opts.requireResolved ==> m.resolvedOutcome.Some?)
    && (opts.minDurationDays > 0.0 && m.durationDays.Some? ==> m.durationDays.value >= opts.minDurationDays)
  }

  /** The `Market(...)` a row that passes every filter becomes, its tags already
      validated. */
  function BuildMarket(row: CsvRow, idCol: Option<string>, opts: LoadOptions, tags: seq<string>): (m: Market)
    requires QuestionOf(row, opts.pyStr) != ""
    ensures m.question == QuestionOf(row, opts.pyStr) && m.id == MarketIdOf(row, idCol, opts.pyStr)
    ensures (m.resolvedOutcome, m.isBinary) == ParseTokensSpec(CellAt(row, "tokens"), opts.loads)
    ensures m.startTime == row.startTime && m.endTime == row.endTime
    ensures m.durationDays == DurationOf(row, opts.days) && m.tags == tags
    ensures m.description == DescriptionOf(CellAt(row, "description"), opts.pyStr)
    ensures m.slug == SlugOf(row, opts.pyStr) && m.source == opts.sourceLabel
  {
    var tokens := ParseTokensSpec(CellAt(row, "tokens"), opts.loads);
    Market(MarketIdOf(row, idCol, opts.pyStr), QuestionOf(row, opts.pyStr),
           DescriptionOf(CellAt(row, "description"), opts.pyStr), row.startTime, row.endTime,
           DurationOf(row, opts.days), tags, tokens.0, tokens.1, SlugOf(row, opts.pyStr), opts.sourceLabel)
  }

  /** The binary, resolved and duration filters, in the loop's order. */
  predicate Passes(row: CsvRow, opts: LoadOptions) {
    var tokens := ParseTokensSpec(CellAt(row, "tokens"), opts.loads);
    var duration := DurationOf(row, opts.days);
    && (opts.requireBinary ==> tokens.1)
    && (opts.requireResolved ==> tokens.0.Some?)
    && !(opts.minDurationDays > 0.0 && duration.Some? && duration.value < opts.minDurationDays)
  }

  /** One iteration of the row loop: the market built from the row, None when a filter
      skips it, or the `ValidationError` that `Market(...)` raises on bad tags. */
  function RowMarket(row: CsvRow, idCol: Option<string>, opts: LoadOptions): (r: Result<Option<Market>>)
    ensures r.Ok? && r.value.Some? ==> Admissible(r.value.value, opts) && ValidMarket(r.value.value)
    ensures r.Ok? && r.value.Some? <==>
              QuestionOf(row, opts.pyStr) != "" && Passes(row, opts) &&
              TagsOf(CellAt(row, "tags"), opts.loads, opts.pyStr).Some?
    ensures r.Ok? && r.value.Some? ==>
              r.value.value == BuildMarket(row, idCol, opts, TagsOf(CellAt(row, "tags"), opts.loads, opts.pyStr).value)
    ensures r.Err? <==> QuestionOf(row, opts.pyStr) != "" && Passes(row, opts) &&
                        TagsOf(CellAt(row, "tags"), opts.loads, opts.pyStr).None?
    ensures r.Err? ==> r.error == ValidationError
  {
    if QuestionOf(row, opts.pyStr) == "" || !Passes(row, opts) then Ok(None)
    else
      var tags := TagsOf(CellAt(row, "tags"), opts.loads, opts.pyStr);
      if tags.None? then Err(ValidationError)
      else Ok(Some(BuildMarket(row, idCol, opts, tags.value)))
  }

  /** What each row contributes, in row order. */
  function Outcomes(rows: seq<CsvRow>, idCol: Option<string>, opts: LoadOptions)
    : (o: seq<Result<Option<Market>>>)
    ensures |o| == |rows| && forall i :: 0 <= i < |rows| ==> o[i] == RowMarket(rows[i], idCol, opts)
  {
    Map(rows, RowStep(idCol, opts))
  }

  function RowStep(idCol: Option<string>, opts: LoadOptions): CsvRow -> Result<Option<Market>> {
    (row: CsvRow) => RowMarket(row, idCol, opts)
  }

  /** The list the loop builds from the row outcomes: the kept markets in order, or the
      first error, which ends the loop. */
  function Gather(outs: seq<Result<Option<Market>>>): (r: Result<seq<Market>>)
    ensures r.Err? <==> exists i :: 0 <= i < |outs| && outs[i].Err?
    ensures r.Err? ==> exists i :: 0 <= i < |outs| && outs[i] == Err(r.error)
    ensures r.Ok? ==> |r.value| <= |outs|
    decreases |outs|
  {
    if outs == [] then Ok([])
    else
      var init := Gather(outs[..|outs| - 1]);
      assert forall i :: 0 <= i < |outs| - 1 ==> outs[..|outs| - 1][i] == outs[i];
      if init.Err? then init
      else
        match outs[|outs| - 1]
        case Err(e) => Err(e)
        case Ok(None) => init
        case Ok(Some(m)) => Ok(init.value + [m])
  }

  /** One more outcome: an error stops the list, a kept market extends it. */
  lemma GatherSnoc(outs: seq<Result<Option<Market>>>, o: Result<Option<Market>>)
    requires Gather(outs).Ok?
    ensures o.Err? ==> Gather(outs + [o]) == Err(o.error)
    ensures o == Ok(None) ==> Gather(outs + [o]) == Gather(outs)
    ensures o.Ok? && o.value.Some? ==> Gather(outs + [o]) == Ok(Gather(outs).value + [o.value.value])
  {
    assert (outs + [o])[..|outs|] == outs;
  }

  /** Every gathered market is one a row produced. */
  lemma {:induction false} GatherFrom(outs: seq<Result<Option<Market>>>, k: nat)
    requires Gather(outs).Ok? && k < |Gather(outs).value|
    ensures exists i :: 0 <= i < |outs| && outs[i] == Ok(Some(Gather(outs).value[k]))
    decreases |outs|
  {
    var init := outs[..|outs| - 1];
    assert forall i :: 0 <= i < |init| ==> init[i] == outs[i];
    if k < |Gather(init).value| {
      GatherFrom(init, k);
      var i :| 0 <= i < |init| && init[i] == Ok(Some(Gather(init).value[k]));
      assert outs[i] == Ok(Some(Gather(outs).value[k]));
    } else {
      assert outs[|outs| - 1] == Ok(Some(Gather(outs).value[k]));
    }
  }

  lemma {:induction false} GatherAppend(a: seq<Result<Option<Market>>>, b: seq<Result<Option<Market>>>)
    requires Gather(a + b).Ok?
    ensures Gather(a).Ok? && Gather(b).Ok?
    ensures Gather(a + b).value == Gather(a).value + Gather(b).value
    decreases |b|
  {
    if b == [] {
      assert a + b == a;
    } else {
      var b' := b[..|b| - 1];
      assert (a + b)[..|a + b| - 1] == a + b';
      assert (a + b)[|a + b| - 1] == b[|b| - 1];
      GatherAppend(a, b');
      assert Gather(a + b').Ok?;
      assert Gather(b').Ok?;
    }
  }

  /** The row loop over `rows`. */
  function LoadRows(rows: seq<CsvRow>, idCol: Option<string>, opts: LoadOptions): (r: Result<seq<Market>>)
    ensures r.Ok? ==> |r.value| <= |rows|
  {
    Gather(Outcomes(rows, idCol, opts))
  }

  /** The loop fails exactly when some row's tags fail validation, and then with that
      `ValidationError`. */
  lemma LoadRowsErrors(rows: seq<CsvRow>, idCol: Option<string>, opts: LoadOptions)
    ensures var r := LoadRows(rows, idCol, opts);
            && (r.Err? <==> exists i :: 0 <= i < |rows| && RowMarket(rows[i], idCol, opts).Err?)
            && (r.Err? ==> r.error == ValidationError)
  {
    var o := Outcomes(rows, idCol, opts);
    assert forall i :: 0 <= i < |rows| ==> o[i] == RowMarket(rows[i], idCol, opts);
  }

  /** Every loaded market satisfies the pydantic constraint and all active filters, and
      was built from one of the rows. */
  lemma LoadRowsAdmissible(rows: seq<CsvRow>, idCol: Option<string>, opts: LoadOptions, k: nat)
    requires LoadRows(rows, idCol, opts).Ok? && k < |LoadRows(rows, idCol, opts).value|
    ensures var m := LoadRows(rows, idCol, opts).value[k];
            && Admissible(m, opts) && ValidMarket(m)
            && exists i :: 0 <= i < |rows| && RowMarket(rows[i], idCol, opts) == Ok(Some(m))
  {
    var o := Outcomes(rows, idCol, opts);
    GatherFrom(o, k);
    var i :| 0 <= i < |o| && o[i] == Ok(Some(Gather(o).value[k]));
    assert RowMarket(rows[i], idCol, opts) == o[i];
  }

  /** Loading a file in two parts gives the markets of the first part followed by those
      of the second: the loop keeps row order and treats rows independently. */
  lemma LoadRowsAppend(a: seq<CsvRow>, b: seq<CsvRow>, idCol: Option<string>, opts: LoadOptions)
    requires LoadRows(a + b, idCol, opts).Ok?
    ensures LoadRows(a, idCol, opts).Ok? && LoadRows(b, idCol, opts).Ok?
    ensures LoadRows(a + b, idCol, opts).value == LoadRows(a, idCol, opts).value + LoadRows(b, idCol, opts).value
  {
    MapAppend(a, b, RowStep(idCol, opts));
    GatherAppend(Outcomes(a, idCol, opts), Outcomes(b, idCol, opts));
  }

  /** The rows `pd.read_csv(nrows=...)` reads; a negative count raises ValueError. */
  function ReadRows(rows: seq<CsvRow>, nrows: Option<int>): (r: Result<seq<CsvRow>>)
    ensures nrows.None? ==> r == Ok(rows)
    ensures nrows.Some? && nrows.value < 0 ==> r == Err(ValueError)
    ensures nrows.Some? && nrows.value >= 0 ==>
              r.Ok? && r.value == rows[..if nrows.value < |rows| then nrows.value else |rows|]
  {
    if nrows.None? then Ok(rows)
    else if nrows.value < 0 then Err(ValueError)
    else Ok(rows[..if nrows.value < |rows| then nrows.value else |rows|])
  }

  /** `load_markets_from_csv(path, ...)`: the file must exist and the frame must have a
      `question` column; each kept row becomes one `Market`, in row order, and a row
      whose tags fail `list[str]` validation aborts the load. */
  method LoadMarketsFromCsv(csvExists: bool, header: seq<string>, allRows: seq<CsvRow>,
                            nrows: Option<int>, opts: LoadOptions)
    returns (r: Result<seq<Market>>)
    ensures r == LoadMarkets(csvExists, header, allRows, nrows, opts)
  {
    if !csvExists {
      return Err(FileNotFound);
    }
    var read := ReadRows(allRows, nrows);
    if read.Err? {
      return Err(ValueError);
    }
    var rows := read.value;
    var cols := NormalizeColumns(header);
    if "question" !in cols {
      return Err(ValueError);
    }
    r := LoadRowsLoop(rows, RowStep(IdColumn(cols), opts));
  }

  /** The outcome `load_markets_from_csv` promises, case by case. */
  function LoadMarkets(csvExists: bool, header: seq<string>, allRows: seq<CsvRow>, nrows: Option<int>,
                       opts: LoadOptions): Result<seq<Market>>
  {
    if !csvExists then Err(FileNotFound)
    else match ReadRows(allRows, nrows)
      case Err(_) => Err(ValueError)
      case Ok(rows) =>
        if "question" !in NormalizeColumns(header) then Err(ValueError)
        else LoadRows(rows, IdColumn(NormalizeColumns(header)), opts)
  }

  /** The load fails with FileNotFoundError for a missing file and with ValueError for a
      negative row count or a frame without a `question` column; a row whose tags fail
      validation is the only other error. */
  lemma LoadMarketsErrors(csvExists: bool, header: seq<string>, allRows: seq<CsvRow>, nrows: Option<int>,
                          opts: LoadOptions)
    ensures var r := LoadMarkets(csvExists, header, allRows, nrows, opts);
            && (!csvExists ==> r == Err(FileNotFound))
            && (csvExists && nrows.Some? && nrows.value < 0 ==> r == Err(ValueError))
            && (csvExists && "question" !in NormalizeColumns(header) ==> r == Err(ValueError))
            && (r.Err? ==> r.error in {FileNotFound, ValueError, ValidationError})
  {
    if csvExists && ReadRows(allRows, nrows).Ok? && "question" in NormalizeColumns(header) {
      var rows := ReadRows(allRows, nrows).value;
      var idCol := IdColumn(NormalizeColumns(header));
      LoadRowsErrors(rows, idCol, opts);
    }
  }

  /** A loop that succeeds returns at most one market per row, each admissible. */
  lemma LoadRowsAllAdmissible(rows: seq<CsvRow>, idCol: Option<string>, opts: LoadOptions)
    requires LoadRows(rows, idCol, opts).Ok?
    ensures var ms := LoadRows(rows, idCol, opts).value;
            && |ms| <= |rows|
            && forall k :: 0 <= k < |ms| ==> Admissible(ms[k], opts) && ValidMarket(ms[k])
  {
    var ms := LoadRows(rows, idCol, opts).value;
    forall k | 0 <= k < |ms| ensures Admissible(ms[k], opts) && ValidMarket(ms[k]) {
      LoadRowsAdmissible(rows, idCol, opts, k);
    }
  }

  /** A load that succeeds is the row loop over the rows read. */
  lemma LoadMarketsOk(csvExists: bool, header: seq<string>, allRows: seq<CsvRow>, nrows: Option<int>,
                      opts: LoadOptions)
    requires LoadMarkets(csvExists, header, allRows, nrows, opts).Ok?
    ensures csvExists && ReadRows(allRows, nrows).Ok? && "question" in NormalizeColumns(header)
    ensures LoadMarkets(csvExists, header, allRows, nrows, opts) ==
              LoadRows(ReadRows(allRows, nrows).value, IdColumn(NormalizeColumns(header)), opts)
  {
  }

  /** `load_from_csv_and_save(path, database_url, ...)`: a failed load leaves the store
      alone; otherwise the schema is created, the loaded markets are upserted by id and
      returned. A URL `_sqlite_path` rejects raises from `init_schema`. */
  method LoadFromCsvAndSave(db: Store.Database, url: string, dumps: Store.Dumps, csvExists: bool,
                            header: seq<string>, allRows: seq<CsvRow>, nrows: Option<int>,
                            opts: LoadOptions)
    returns (r: Result<seq<Market>>)
    requires db.Valid()
    modifies db
    ensures db.Valid()
    ensures LoadMarkets(csvExists, header, allRows, nrows, opts).Err? ==>
              r == LoadMarkets(csvExists, header, allRows, nrows, opts) && unchanged(db)
    ensures LoadMarkets(csvExists, header, allRows, nrows, opts).Ok? && Store.SqlitePath(url).Err? ==>
              r == Err(ValueError) && unchanged(db)
    ensures LoadMarkets(csvExists, header, allRows, nrows, opts).Ok? && Store.SqlitePath(url).Ok? ==>
              && r == LoadMarkets(csvExists, header, allRows, nrows, opts)
              && db.fileExists && db.tables == old(db.tables) + Store.AllTables
              && db.markets == Store.UpsertMarkets(old(db.markets), r.value, dumps)
              && db.clusterRows == old(db.clusterRows) && db.assignments == old(db.assignments)
  {
    var loaded := LoadMarketsFromCsv(csvExists, header, allRows, nrows, opts);
    if loaded.Err? {
      return loaded;
    }
    var schema := db.InitSchema(url);
    if schema.Err? {
      return Err(schema.error);
    }
    var written := db.WriteMarkets(loaded.value, url, dumps);
    r := loaded;
  }

  /** The `for _, row in df.iterrows()` loop of `load_markets_from_csv`, with `step` the
      loop body's outcome for one row. */
  method LoadRowsLoop(rows: seq<CsvRow>, step: CsvRow -> Result<Option<Market>>)
    returns (r: Result<seq<Market>>)
    ensures r == Gather(Map(rows, step))
  {
    ghost var outs := Map(rows, step);
    var markets: seq<Market> := [];
    var i := 0;
    while i < |rows|
      invariant 0 <= i <= |rows|
      invariant Gather(outs[..i]) == Ok(markets)
    {
      var res := step(rows[i]);
      assert outs[..i + 1] == outs[..i] + [res];
      GatherSnoc(outs[..i], res);
      if res.Err? {
        GatherPrefixErr(outs, i + 1);
        return Err(res.error);
      }
      if res.value.Some? {
        markets := markets + [res.value.value];
      }
      i := i + 1;
    }
    assert outs[..i] == outs;
    r := Ok(markets);
  }

  /** An error in a prefix of the outcomes is the result of the whole loop. */
  lemma {:induction false} GatherPrefixErr(outs: seq<Result<Option<Market>>>, i: nat)
    requires i <= |outs| && Gather(outs[..i]).Err?
    ensures Gather(outs) == Gather(outs[..i])
    decreases |outs| - i
  {
    if i < |outs| {
      assert outs[..i + 1][..i] == outs[..i];
      GatherPrefixErr(outs, i + 1);
    } else {
      assert outs[..i] == outs;
    }
  }
}
