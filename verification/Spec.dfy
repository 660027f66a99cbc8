/** Query definitions and the shape checks they must pass (internal/spec/spec.go). */
module Spec {
  import opened Wrappers

  const MAX_QUERY_NAME_LENGTH := 48
  const MAX_PARAMS_PER_QUERY := 4
  const MAX_WATCHES_PER_QUERY := 16
  const MAX_SQL_LENGTH := 8192
  const MAX_KEYS_CAP := 1000
  const DEFAULT_MAX_KEYS := 100
  const MAX_PARAM_VALUE_LENGTH := 64
  const MAX_INT64 := 0x7FFF_FFFF_FFFF_FFFF

  /** An empty keysColumns or columns, a blank keysSql and a zero maxKeys mean "not declared". */
  datatype Watch = Watch(
    table: string, columns: seq<string>, keysSql: string, keysColumns: map<string, string>, maxKeys: int)

  datatype Query = Query(name: string, sql: string, watches: seq<Watch>)

  datatype SelectError = Missing | TooLong | SeveralStatements | NotSelect

  datatype WatchError =
    | BadTable
    | NotExactlyOneMapping
    | KeysOptionsOnColumnsWatch
    | WrongColumnCount
    | BadColumn
    | BadKeysSql(select: SelectError)
    | NoKeysColumns
    | BadKeysColumns
    | BadMaxKeys

  datatype Error =
    | BadName
    | BadSql(select: SelectError)
    | TooManyParams
    | TooManyWatches
    | BadWatch(index: nat, cause: WatchError)

  /** The cap a lookup runs with: zero means the default, and below zero even one row is too many. */
  function EffectiveCap(maxKeys: int): nat {
    if maxKeys == 0 then DEFAULT_MAX_KEYS else if maxKeys < 0 then 0 else maxKeys
  }

  // ----- character classes and patterns

  predicate IsDigit(c: char) { '0' <= c <= '9' }

  predicate IsLower(c: char) { 'a' <= c <= 'z' }

  predicate IsLetter(c: char) { IsLower(c) || 'A' <= c <= 'Z' }

  predicate IsNameChar(c: char) { IsLower(c) || IsDigit(c) || c == '_' || c == '-' }

  predicate IsSegmentChar(c: char) { IsLetter(c) || IsDigit(c) || c == '_' || c == '-' }

  predicate IsWordChar(c: char) { IsLetter(c) || IsDigit(c) || c == '_' }

  /** The white space strings.TrimSpace removes. */
  predicate IsSpace(c: char) {
    '\t' <= c <= '\r' || c == ' ' || c == '\U{85}' || c == '\U{A0}' || c == '\U{1680}'
    || '\U{2000}' <= c <= '\U{200A}' || c == '\U{2028}' || c == '\U{2029}' || c == '\U{202F}'
    || c == '\U{205F}' || c == '\U{3000}'
  }

  predicate IsBlank(s: string) { forall i | 0 <= i < |s| :: IsSpace(s[i]) }

  predicate ValidQueryName(s: string) {
    && 1 <= |s| <= MAX_QUERY_NAME_LENGTH
    && s[0] != '_' && s[0] != '-'
    && forall i | 0 <= i < |s| :: IsNameChar(s[i])
  }

  /** The pattern shared by table and column names. */
  predicate ValidIdentifier(s: string) {
    && |s| > 0
    && !IsDigit(s[0])
    && forall i | 0 <= i < |s| :: IsWordChar(s[i])
  }

  predicate ValidChannelValue(s: string) {
    && 1 <= |s| <= MAX_PARAM_VALUE_LENGTH
    && forall i | 0 <= i < |s| :: IsSegmentChar(s[i])
  }

  /** A `$n` placeholder of one or two digits without a leading zero. */
  predicate ValidPlaceholder(s: string) {
    && 2 <= |s| <= 3
    && s[0] == '$'
    && '1' <= s[1] <= '9'
    && (|s| == 3 ==> IsDigit(s[2]))
  }

  // ----- parameter count

  function DigitValue(c: char): nat
    requires IsDigit(c)
  {
    (c - '0') as nat
  }

  /** The end of the digit run that starts at `i`. */
  function RunEnd(s: string, i: nat): (j: nat)
    requires i <= |s|
    ensures i <= j <= |s|
    ensures forall k | i <= k < j :: IsDigit(s[k])
    ensures j < |s| ==> !IsDigit(s[j])
    decreases |s| - i
  {
    if i < |s| && IsDigit(s[i]) then RunEnd(s, i + 1) else i
  }

  function Decimal(s: string): nat
    requires forall k | 0 <= k < |s| :: IsDigit(s[k])
  {
    if s == "" then 0 else 10 * Decimal(s[..|s| - 1]) + DigitValue(s[|s| - 1])
  }

  /** `sql` references parameter `n` at `i`: a dollar sign and a whole digit run that fits an int. */
  predicate RefAt(sql: string, i: int, n: nat) {
    && 0 <= i < |sql| && sql[i] == '$'
    && RunEnd(sql, i + 1) > i + 1
    && n == Decimal(sql[i + 1..RunEnd(sql, i + 1)])
    && n <= MAX_INT64
  }

  function Max(a: int, b: int): int { if a < b then b else a }

  /** The highest parameter referenced at or after `i`. */
  function ParamCountFrom(sql: string, i: nat): nat
    requires i <= |sql|
    decreases |sql| - i
  {
    if i == |sql| then 0
    else if sql[i] == '$' && RunEnd(sql, i + 1) > i + 1 then
      var n := Decimal(sql[i + 1..RunEnd(sql, i + 1)]);
      Max(if n <= MAX_INT64 then n else 0, ParamCountFrom(sql, i + 1))
    else ParamCountFrom(sql, i + 1)
  }

  function ParamCountOf(sql: string): nat { ParamCountFrom(sql, 0) }

  lemma {:induction false} ParamCountFromIsHighest(sql: string, i: nat)
    requires i <= |sql|
    ensures forall k: int, n: nat | i <= k && RefAt(sql, k, n) :: n <= ParamCountFrom(sql, i)
    ensures ParamCountFrom(sql, i) == 0 || exists k :: i <= k && RefAt(sql, k, ParamCountFrom(sql, i))
    decreases |sql| - i
  {
    if i == |sql| {
    } else {
      ParamCountFromIsHighest(sql, i + 1);
      if sql[i] == '$' && RunEnd(sql, i + 1) > i + 1 {
        var n := Decimal(sql[i + 1..RunEnd(sql, i + 1)]);
        assert n <= MAX_INT64 ==> RefAt(sql, i, n);
      }
    }
  }

  /** Every referenced parameter is within the count, and the count itself is referenced. */
  lemma ParamCountIsHighest(sql: string)
    ensures forall k: int, n: nat | RefAt(sql, k, n) :: n <= ParamCountOf(sql)
    ensures ParamCountOf(sql) == 0 || exists k :: RefAt(sql, k, ParamCountOf(sql))
  {
    ParamCountFromIsHighest(sql, 0);
  }

  /** A digit run holds no reference, so scanning on from its end loses none. */
  lemma {:induction false} SkipRun(sql: string, i: nat, j: nat)
    requires i <= j <= |sql|
    requires forall k | i <= k < j :: IsDigit(sql[k])
    ensures ParamCountFrom(sql, i) == ParamCountFrom(sql, j)
    decreases j - i
  {
    if i == j {
    } else {
      SkipRun(sql, i + 1, j);
    }
  }

  /** Scans the matches of `\$([0-9]+)` from the left, as the pattern search does. */
  method ParamCount(sql: string) returns (highest: nat)
    ensures highest == ParamCountOf(sql)
  {
    highest := 0;
    var i := 0;
    while i < |sql|
      invariant 0 <= i <= |sql|
      invariant ParamCountOf(sql) == Max(highest, ParamCountFrom(sql, i))
    {
      if sql[i] == '$' {
        var j := RunEnd(sql, i + 1);
        SkipRun(sql, i + 1, j);
        if j > i + 1 {
          var n := Decimal(sql[i + 1..j]);
          if n <= MAX_INT64 && n > highest {
            highest := n;
          }
        }
        i := j;
      } else {
        i := i + 1;
      }
    }
  }

  // ----- the shape of SQL text

  function TrimLeft(s: string): string { if s != "" && IsSpace(s[0]) then TrimLeft(s[1..]) else s }

  function TrimRight(s: string): string {
    if s != "" && IsSpace(s[|s| - 1]) then TrimRight(s[..|s| - 1]) else s
  }

  function WithoutSemicolon(s: string): string {
    if s != "" && s[|s| - 1] == ';' then s[..|s| - 1] else s
  }

  /** The length of the text in UTF-8. */
  function ByteLength(s: string): nat {
    if s == "" then 0
    else
      var c := s[|s| - 1];
      ByteLength(s[..|s| - 1])
      + if c < '\U{80}' then 1 else if c < '\U{800}' then 2 else if c < '\U{10000}' then 3 else 4
  }

  /** `c` in lower case is `letter`; two characters outside ASCII have an ASCII letter as lower case. */
  predicate LowersTo(c: char, letter: char) {
    || c == letter
    || ('A' <= c <= 'Z' && c as int + 32 == letter as int)
    || (c == '\U{130}' && letter == 'i') || (c == '\U{212A}' && letter == 'k')
  }

  predicate StartsWith(s: string, word: string) {
    |s| >= |word| && forall i | 0 <= i < |word| :: LowersTo(s[i], word[i])
  }

  predicate Reads(s: string) { StartsWith(s, "select") || StartsWith(s, "with") }

  /** The lower-case form of a character, as far as it is an ASCII letter. */
  function Lowered(c: char): char {
    if 'A' <= c <= 'Z' then (c as int + 32) as char
    else if c == '\U{130}' then 'i'
    else if c == '\U{212A}' then 'k'
    else c
  }

  function LowerCase(s: string): (lowered: string)
    ensures |lowered| == |s|
  {
    seq(|s|, i requires 0 <= i < |s| => Lowered(s[i]))
  }

  lemma StartsWithLowered(s: string, word: string)
    requires forall i | 0 <= i < |word| :: IsLower(word[i])
    ensures StartsWith(s, word) <==> word <= LowerCase(s)
  {
    if StartsWith(s, word) {
      forall i | 0 <= i < |word| ensures word[i] == LowerCase(s)[i] {
        assert LowersTo(s[i], word[i]);
      }
    }
    if word <= LowerCase(s) {
      forall i | 0 <= i < |word| ensures LowersTo(s[i], word[i]) {
        assert word[i] == LowerCase(s)[i];
      }
    }
  }

  /** In lower case the text begins with one of the two words. */
  ghost predicate BeginsReading(s: string) { "select" <= LowerCase(s) || "with" <= LowerCase(s) }

  lemma ReadsExactly(s: string)
    ensures Reads(s) <==> BeginsReading(s)
  {
    StartsWithLowered(s, "select");
    StartsWithLowered(s, "with");
  }

  function ValidateSelect(sql: string): Option<SelectError> {
    var trimmed := WithoutSemicolon(TrimRight(TrimLeft(sql)));
    if trimmed == "" then Some(Missing)
    else if ByteLength(trimmed) > MAX_SQL_LENGTH then Some(TooLong)
    else if ';' in trimmed then Some(SeveralStatements)
    else if !Reads(trimmed) then Some(NotSelect)
    else None
  }

  ghost predicate Blank(s: string, i: nat, j: nat)
    requires i <= j <= |s|
  {
    forall k | i <= k < j :: IsSpace(s[k])
  }

  lemma {:induction false} TrimLeftDrops(s: string) returns (a: nat)
    ensures a <= |s| && TrimLeft(s) == s[a..] && Blank(s, 0, a) && (a < |s| ==> !IsSpace(s[a]))
  {
    if s == "" || !IsSpace(s[0]) {
      a := 0;
    } else {
      var n := TrimLeftDrops(s[1..]);
      a := n + 1;
      assert forall i | 1 <= i < a :: s[i] == s[1..][i - 1];
    }
  }

  lemma {:induction false} TrimRightDrops(s: string) returns (b: nat)
    ensures b <= |s| && TrimRight(s) == s[..b] && Blank(s, b, |s|) && (b > 0 ==> !IsSpace(s[b - 1]))
  {
    if s == "" || !IsSpace(s[|s| - 1]) {
      b := |s|;
    } else {
      var n := |s| - 1;
      b := TrimRightDrops(s[..n]);
      assert forall i | b <= i < n :: s[i] == s[..n][i];
    }
  }

  lemma {:induction false} ByteLengthGrows(s: string, b: nat)
    requires b <= |s|
    ensures ByteLength(s[..b]) <= ByteLength(s)
  {
    if b == |s| {
      assert s[..b] == s;
    } else {
      ByteLengthGrows(s[..|s| - 1], b);
      assert s[..|s| - 1][..b] == s[..b];
    }
  }

  /** `sql[a..b]` is one reading statement, with only blanks and at most one semicolon around it. */
  ghost predicate IsStatement(sql: string, a: nat, b: nat) {
    && a <= b <= |sql| && Blank(sql, 0, a)
    && (Blank(sql, b, |sql|) || (sql[b] == ';' && Blank(sql, b + 1, |sql|)))
    && ';' !in sql[a..b] && BeginsReading(sql[a..b]) && ByteLength(sql[a..b]) <= 8192
  }

  /** `sql[a..b]` is the text without the blanks around it. */
  ghost predicate IsTrimmed(sql: string, a: nat, b: nat) {
    && a <= b <= |sql| && TrimRight(TrimLeft(sql)) == sql[a..b] && Blank(sql, 0, a) && Blank(sql, b, |sql|)
    && (a < b ==> !IsSpace(sql[a]) && !IsSpace(sql[b - 1]))
  }

  lemma Trims(sql: string) returns (a: nat, b: nat)
    ensures IsTrimmed(sql, a, b)
  {
    a := TrimLeftDrops(sql);
    var n := TrimRightDrops(sql[a..]);
    b := a + n;
    assert sql[a..][..n] == sql[a..b];
    assert forall i | a <= i < |sql| :: sql[i] == sql[a..][i - a];
  }

  /** SQL text is accepted if and only if it is one statement that reads and is not too long. */
  lemma AcceptedSelects(sql: string)
    ensures ValidateSelect(sql).None? <==> exists a, b :: IsStatement(sql, a, b)
  {
    var a, b := Trims(sql);
    if ValidateSelect(sql).None? {
      var end := if a < b && sql[b - 1] == ';' then b - 1 else b;
      assert WithoutSemicolon(sql[a..b]) == sql[a..end];
      ReadsExactly(sql[a..end]);
      assert IsStatement(sql, a, end);
    }
    if x, y :| IsStatement(sql, x, y) {
      StatementIsAccepted(sql, a, b, x, y);
    }
  }

  /** The first word of a statement starts where the trimmed text does and ends before it does. */
  lemma FirstWord(sql: string, a: nat, b: nat, x: nat, y: nat) returns (word: string)
    requires IsTrimmed(sql, a, b) && IsStatement(sql, x, y)
    ensures word == "select" || word == "with"
    ensures a == x && x + |word| <= b && x + |word| <= y && StartsWith(sql[x..y], word)
  {
    ReadsExactly(sql[x..y]);
    word := if StartsWith(sql[x..y], "select") then "select" else "with";
    NoBlankInWord(sql[x..y], word, 0);
    NoBlankInWord(sql[x..y], word, |word| - 1);
    assert sql[x..y][0] == sql[x];
    assert sql[x..y][|word| - 1] == sql[x + (|word| - 1)];
  }

  lemma NoBlankInWord(s: string, word: string, k: nat)
    requires (word == "select" || word == "with") && StartsWith(s, word) && k < |word|
    ensures !IsSpace(s[k])
  {
    assert LowersTo(s[k], word[k]) && 'a' <= word[k] <= 'z';
  }

  lemma StatementIsAccepted(sql: string, a: nat, b: nat, x: nat, y: nat)
    requires IsTrimmed(sql, a, b) && IsStatement(sql, x, y)
    ensures ValidateSelect(sql).None?
  {
    var word := FirstWord(sql, a, b, x, y);
    if Blank(sql, y, |sql|) {
      BlankEnd(sql, b, x, y, word);
      assert WithoutSemicolon(sql[a..b]) == sql[a..b];
    } else {
      assert !IsSpace(sql[y]) && b == y + 1;
      assert WithoutSemicolon(sql[a..b]) == sql[a..y];
    }
  }

  /** Without its trailing blanks a statement still is one. */
  lemma BlankEnd(sql: string, b: nat, x: nat, y: nat, word: string)
    requires x + |word| <= b <= |sql| && 0 < |word| && x <= y <= |sql| && StartsWith(sql[x..y], word)
    requires Blank(sql, y, |sql|) && !IsSpace(sql[b - 1])
    requires ';' !in sql[x..y] && ByteLength(sql[x..y]) <= MAX_SQL_LENGTH
    ensures StartsWith(sql[x..b], word) && ';' !in sql[x..b] && ByteLength(sql[x..b]) <= MAX_SQL_LENGTH
    ensures sql[b - 1] != ';'
  {
    assert b <= y;
    assert sql[x..b] == sql[x..y][..b - x];
    ByteLengthGrows(sql[x..y], b - x);
    assert sql[b - 1] == sql[x..y][b - 1 - x];
  }

  // ----- validation

  predicate HasColumns(watch: Watch) { |watch.columns| > 0 }

  predicate HasKeysSql(watch: Watch) { !IsBlank(watch.keysSql) }

  /** The checks on a watch of a query with `arity` parameters. */
  function ValidateWatch(watch: Watch, arity: nat): Option<WatchError> {
    if !ValidIdentifier(watch.table) then Some(BadTable)
    else if HasColumns(watch) == HasKeysSql(watch) && arity > 0 then Some(NotExactlyOneMapping)
    else if HasColumns(watch) then
      if watch.maxKeys != 0 || |watch.keysColumns| > 0 then Some(KeysOptionsOnColumnsWatch)
      else if |watch.columns| != arity then Some(WrongColumnCount)
      else if exists i | 0 <= i < |watch.columns| :: !ValidIdentifier(watch.columns[i]) then Some(BadColumn)
      else None
    else if !HasKeysSql(watch) then None
    else if ValidateSelect(watch.keysSql).Some? then Some(BadKeysSql(ValidateSelect(watch.keysSql).value))
    else if |watch.keysColumns| == 0 then Some(NoKeysColumns)
    else if exists p | p in watch.keysColumns :: !ValidPlaceholder(p) || !ValidIdentifier(watch.keysColumns[p])
    then Some(BadKeysColumns)
    else if watch.maxKeys < 0 || watch.maxKeys > MAX_KEYS_CAP then Some(BadMaxKeys)
    else None
  }

  function FirstBadWatch(watches: seq<Watch>, arity: nat, i: nat): (bad: Option<Error>)
    requires i <= |watches|
    ensures bad.None? <==> forall k | i <= k < |watches| :: ValidateWatch(watches[k], arity).None?
    decreases |watches| - i
  {
    if i == |watches| then None
    else match ValidateWatch(watches[i], arity)
      case Some(cause) => Some(BadWatch(i + 1, cause))
      case None => FirstBadWatch(watches, arity, i + 1)
  }

  function Validate(query: Query): Option<Error> {
    var arity := ParamCountOf(query.sql);
    if !ValidQueryName(query.name) then Some(BadName)
    else if ValidateSelect(query.sql).Some? then Some(BadSql(ValidateSelect(query.sql).value))
    else if arity > MAX_PARAMS_PER_QUERY then Some(TooManyParams)
    else if |query.watches| > MAX_WATCHES_PER_QUERY then Some(TooManyWatches)
    else FirstBadWatch(query.watches, arity, 0)
  }

  /** What the engine relies on: each watch derives exactly `arity` values, or is a well-formed lookup. */
  ghost predicate WatchFits(watch: Watch, arity: nat) {
    && ValidIdentifier(watch.table)
    && (HasColumns(watch) ==> |watch.columns| == arity)
    && (!HasColumns(watch) && !HasKeysSql(watch) ==> arity == 0)
    && (!HasColumns(watch) && HasKeysSql(watch) ==> forall p | p in watch.keysColumns :: ValidPlaceholder(p))
  }

  lemma ValidatedWatchesFit(query: Query)
    requires Validate(query).None?
    ensures ValidQueryName(query.name)
    ensures forall k | 0 <= k < |query.watches| :: WatchFits(query.watches[k], ParamCountOf(query.sql))
  {
    var arity := ParamCountOf(query.sql);
    forall k | 0 <= k < |query.watches|
      ensures WatchFits(query.watches[k], arity)
    {
      assert ValidateWatch(query.watches[k], arity).None?;
    }
  }

  // ----- the three kinds of watch

  ghost predicate ColumnsWatch(watch: Watch, arity: nat) {
    && HasColumns(watch) && !HasKeysSql(watch) && |watch.columns| == arity
    && (forall i | 0 <= i < |watch.columns| :: ValidIdentifier(watch.columns[i]))
    && watch.keysColumns == map[] && watch.maxKeys == 0
  }

  ghost predicate BareWatch(watch: Watch, arity: nat) {
    !HasColumns(watch) && !HasKeysSql(watch) && arity == 0
  }

  ghost predicate LookupWatch(watch: Watch) {
    && !HasColumns(watch)
    && (exists a, b :: IsStatement(watch.keysSql, a, b))
    && watch.keysColumns != map[]
    && (forall p | p in watch.keysColumns :: ValidPlaceholder(p) && ValidIdentifier(watch.keysColumns[p]))
    && 0 <= watch.maxKeys <= 1000
  }

  ghost predicate AcceptedWatch(watch: Watch, arity: nat) {
    ValidIdentifier(watch.table) && (ColumnsWatch(watch, arity) || BareWatch(watch, arity) || LookupWatch(watch))
  }

  /** Blank text is no statement. */
  lemma KeysSqlIsDeclared(watch: Watch)
    requires ValidateSelect(watch.keysSql).None?
    ensures HasKeysSql(watch)
  {
    var a, b := Trims(watch.keysSql);
    assert !IsSpace(watch.keysSql[a]);
  }

  /** A watch is accepted exactly if its table is an identifier and it is one of three mutually exclusive kinds. */
  lemma AcceptedWatches(watch: Watch, arity: nat)
    ensures ValidateWatch(watch, arity).None? <==> AcceptedWatch(watch, arity)
    ensures !(ColumnsWatch(watch, arity) && BareWatch(watch, arity))
    ensures !(LookupWatch(watch) && (ColumnsWatch(watch, arity) || BareWatch(watch, arity)))
  {
    AcceptedSelects(watch.keysSql);
    if ValidateSelect(watch.keysSql).None? {
      KeysSqlIsDeclared(watch);
    }
    assert |watch.keysColumns| > 0 <==> watch.keysColumns != map[];
    assert forall p | p in watch.keysColumns :: p in watch.keysColumns.Keys;
  }

  /**
   * A query is accepted exactly if its name is valid, its text is one reading statement of at most four parameters,
   * and it has at most sixteen watches, each on an identifier and of one of the three kinds.
   */
  lemma AcceptedQueries(query: Query)
    ensures Validate(query).None? <==>
      && ValidQueryName(query.name)
      && (exists a, b :: IsStatement(query.sql, a, b))
      && ParamCountOf(query.sql) <= 4
      && |query.watches| <= 16
      && forall k | 0 <= k < |query.watches| :: AcceptedWatch(query.watches[k], ParamCountOf(query.sql))
  {
    AcceptedSelects(query.sql);
    forall k | 0 <= k < |query.watches|
      ensures AcceptedWatch(query.watches[k], ParamCountOf(query.sql)) <==>
        ValidateWatch(query.watches[k], ParamCountOf(query.sql)).None?
    {
      AcceptedWatches(query.watches[k], ParamCountOf(query.sql));
    }
  }
}
