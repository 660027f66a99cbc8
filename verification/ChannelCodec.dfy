/** Doc channel names: the printer BuildChannel, the parser parseChannel, and how they fit together. */
module ChannelCodec {
  import opened Wrappers
  import opened Spec

  type Channel = string

  const SYNC_DOC_PREFIX := "db:"

  /** A definition with its parameter count resolved. */
  datatype QueryDef = QueryDef(name: string, sql: string, arity: nat)

  datatype ParseError = NotADocChannel | UnknownQuery | WrongParamCount | InvalidSegment

  datatype Parsed = Parsed(query: QueryDef, values: seq<string>)

  predicate IsSyncDocChannel(channel: string) {
    |channel| >= |SYNC_DOC_PREFIX| && channel[..|SYNC_DOC_PREFIX|] == SYNC_DOC_PREFIX
  }

  predicate NoColon(s: string) { forall i | 0 <= i < |s| :: s[i] != ':' }

  /** strings.Split at ":". */
  function Split(s: string): (parts: seq<string>)
    ensures |parts| > 0
  {
    if s == "" then [""]
    else
      var rest := Split(s[1..]);
      if s[0] == ':' then [""] + rest else [[s[0]] + rest[0]] + rest[1..]
  }

  /** strings.Join with ":". */
  function Join(parts: seq<string>): string
    requires |parts| > 0
  {
    if |parts| == 1 then parts[0] else parts[0] + ":" + Join(parts[1..])
  }

  function BuildChannel(name: string, values: seq<string>): Channel {
    if |values| == 0 then SYNC_DOC_PREFIX + name else SYNC_DOC_PREFIX + name + ":" + Join(values)
  }

  function ParseChannel(queries: map<string, QueryDef>, channel: Channel): Result<Parsed, ParseError> {
    if !IsSyncDocChannel(channel) then Err(NotADocChannel)
    else
      var segments := Split(channel[|SYNC_DOC_PREFIX|..]);
      if segments[0] !in queries then Err(UnknownQuery)
      else
        var query := queries[segments[0]];
        var values := segments[1..];
        if |values| != query.arity then Err(WrongParamCount)
        else if exists i | 0 <= i < |values| :: !ValidChannelValue(values[i]) then Err(InvalidSegment)
        else Ok(Parsed(query, values))
  }

  predicate Parses(queries: map<string, QueryDef>, channel: Channel) { ParseChannel(queries, channel).Ok? }

  predicate HasPrefix(s: string, prefix: string) { |s| >= |prefix| && s[..|prefix|] == prefix }

  /** The test markQueryLiveDirty makes on each live channel. */
  predicate InQuery(name: string, channel: Channel) {
    channel == BuildChannel(name, []) || HasPrefix(channel, BuildChannel(name, []) + ":")
  }

  /** The table built by New: each entry is stored under its own valid name. */
  ghost predicate NamedQueries(queries: map<string, QueryDef>) {
    forall n | n in queries :: queries[n].name == n && ValidQueryName(n)
  }

  ghost predicate ValidValues(values: seq<string>) {
    forall i | 0 <= i < |values| :: ValidChannelValue(values[i])
  }

  // ----- splitting and joining

  lemma {:induction false} JoinOfSplit(s: string)
    ensures Join(Split(s)) == s
  {
    if s == "" {
    } else {
      var rest := Split(s[1..]);
      JoinOfSplit(s[1..]);
      if s[0] == ':' {
        assert Split(s)[1..] == rest;
        assert s == ":" + s[1..];
      } else {
        var parts := [[s[0]] + rest[0]] + rest[1..];
        assert parts[1..] == rest[1..];
        assert s == [s[0]] + s[1..];
        if |rest| > 1 {
          assert Join(parts) == [s[0]] + (rest[0] + ":" + Join(rest[1..]));
        }
      }
    }
  }

  lemma {:induction false} SplitWithoutColon(s: string)
    requires NoColon(s)
    ensures Split(s) == [s]
  {
    if s == "" {
    } else {
      SplitWithoutColon(s[1..]);
      assert s == [s[0]] + s[1..];
    }
  }

  lemma {:induction false} SplitAtFirstColon(s: string, t: string)
    requires NoColon(s)
    ensures Split(s + ":" + t) == [s] + Split(t)
  {
    var u := s + ":" + t;
    if s == "" {
      assert u[1..] == t;
    } else {
      SplitAtFirstColon(s[1..], t);
      assert u[1..] == s[1..] + ":" + t;
      assert s == [s[0]] + s[1..];
      assert ([s[1..]] + Split(t))[1..] == Split(t);
    }
  }

  lemma {:induction false} SplitOfJoin(parts: seq<string>)
    requires |parts| > 0
    requires forall i | 0 <= i < |parts| :: NoColon(parts[i])
    ensures Split(Join(parts)) == parts
  {
    if |parts| == 1 {
      SplitWithoutColon(parts[0]);
    } else {
      SplitOfJoin(parts[1..]);
      SplitAtFirstColon(parts[0], Join(parts[1..]));
    }
  }

  /** A channel is the prefix and its joined segments, for both shapes BuildChannel prints. */
  lemma BuildIsPrefixedJoin(name: string, values: seq<string>)
    ensures BuildChannel(name, values) == SYNC_DOC_PREFIX + Join([name] + values)
  {
    var parts := [name] + values;
    assert parts[1..] == values;
    if |values| == 0 {
      assert parts == [name];
    }
  }

  lemma {:induction false} JoinAppends(parts: seq<string>, part: string)
    requires |parts| > 0
    ensures Join(parts + [part]) == Join(parts) + ":" + part
  {
    var longer := parts + [part];
    if |parts| == 1 {
      assert longer[1..] == [part];
    } else {
      JoinAppends(parts[1..], part);
      assert longer[1..] == parts[1..] + [part];
    }
  }

  /** Spelled out: `db:` and the name, and for each value in order a colon and the value. */
  lemma BuildSpelledOut(name: string, values: seq<string>, value: string)
    ensures BuildChannel(name, []) == "db:" + name
    ensures BuildChannel(name, values + [value]) == BuildChannel(name, values) + ":" + value
  {
    BuildIsPrefixedJoin(name, values);
    BuildIsPrefixedJoin(name, values + [value]);
    JoinAppends([name] + values, value);
    assert [name] + (values + [value]) == [name] + values + [value];
  }

  // ----- the codec

  lemma ParseOfBuild(queries: map<string, QueryDef>, name: string, values: seq<string>)
    requires NamedQueries(queries) && name in queries
    requires |values| == queries[name].arity && ValidValues(values)
    ensures ParseChannel(queries, BuildChannel(name, values)) == Ok(Parsed(queries[name], values))
  {
    var parts := [name] + values;
    var channel := BuildChannel(name, values);
    BuildIsPrefixedJoin(name, values);
    forall i | 0 <= i < |parts| ensures NoColon(parts[i]) {
      if i > 0 {
        assert ValidChannelValue(values[i - 1]);
      } else {
        assert forall j | 0 <= j < |name| :: IsNameChar(name[j]);
      }
    }
    SplitOfJoin(parts);
    assert channel[|SYNC_DOC_PREFIX|..] == Join(parts);
    assert parts[1..] == values;
  }

  lemma BuildOfParse(queries: map<string, QueryDef>, channel: Channel)
    requires NamedQueries(queries) && Parses(queries, channel)
    ensures
      var parsed := ParseChannel(queries, channel).value;
      && parsed.query.name in queries && parsed.query == queries[parsed.query.name]
      && |parsed.values| == parsed.query.arity && ValidValues(parsed.values)
      && BuildChannel(parsed.query.name, parsed.values) == channel
  {
    var parsed := ParseChannel(queries, channel).value;
    var body := channel[|SYNC_DOC_PREFIX|..];
    BuildIsPrefixedJoin(parsed.query.name, parsed.values);
    assert [Split(body)[0]] + Split(body)[1..] == Split(body);
    JoinOfSplit(body);
    assert channel == channel[..|SYNC_DOC_PREFIX|] + body;
  }

  /** A channel parses exactly if it is the print of a known query with as many valid values as it has parameters. */
  lemma ParsesExactly(queries: map<string, QueryDef>, channel: Channel)
    requires NamedQueries(queries)
    ensures Parses(queries, channel) <==>
      exists name, values ::
        && name in queries && |values| == queries[name].arity && ValidValues(values)
        && channel == BuildChannel(name, values)
  {
    if Parses(queries, channel) {
      BuildOfParse(queries, channel);
    }
    forall name, values |
      name in queries && |values| == queries[name].arity && ValidValues(values) && channel == BuildChannel(name, values)
      ensures Parses(queries, channel)
    {
      ParseOfBuild(queries, name, values);
    }
  }

  lemma BuildInjective(
    queries: map<string, QueryDef>, name: string, values: seq<string>, name': string, values': seq<string>)
    requires NamedQueries(queries) && name in queries && name' in queries
    requires |values| == queries[name].arity && ValidValues(values)
    requires |values'| == queries[name'].arity && ValidValues(values')
    requires BuildChannel(name, values) == BuildChannel(name', values')
    ensures name == name' && values == values'
  {
    ParseOfBuild(queries, name, values);
    ParseOfBuild(queries, name', values');
  }

  /** Among parseable channels the prefix test selects exactly the docs of the named query. */
  lemma PrefixSelectsQuery(queries: map<string, QueryDef>, name: string, channel: Channel)
    requires NamedQueries(queries) && ValidQueryName(name) && Parses(queries, channel)
    ensures InQuery(name, channel) <==> ParseChannel(queries, channel).value.query.name == name
  {
    var parsed := ParseChannel(queries, channel).value;
    var exact := BuildChannel(name, []);
    assert forall j | 0 <= j < |name| :: IsNameChar(name[j]);
    if channel == exact {
      SplitWithoutColon(name);
      assert channel[|SYNC_DOC_PREFIX|..] == name;
    } else if HasPrefix(channel, exact + ":") {
      var rest := channel[|exact| + 1..];
      assert channel == exact + ":" + rest;
      assert channel[|SYNC_DOC_PREFIX|..] == name + ":" + rest;
      SplitAtFirstColon(name, rest);
    }
    BuildOfParse(queries, channel);
    if parsed.query.name == name && |parsed.values| > 0 {
      assert channel == exact + ":" + Join(parsed.values);
      assert channel[..|exact| + 1] == exact + ":";
    }
  }
}
