/**
 * The search log of `write_search_log`: one fixed four-field row per resolved
 * message, whose last field names the outcome from a small closed vocabulary.
 */
module SearchLog {
  import opened Wrappers
  import opened Text
  import Search

  /** The outcome recorded for a message. */
  datatype Tag =
    | EmptyTag
    | PredefinedTag
    | AddressTag
    | PoiTag(id: Search.PoiId)
    | ResultsTag(count: nat)
    | NotFoundTag

  /** The outcome as written in the log: `empty`, `predefined`, `address`, `poi <id>`, `<n> results`, `not found`. */
  function TagText(t: Tag): string {
    match t
    case EmptyTag => "empty"
    case PredefinedTag => "predefined"
    case AddressTag => "address"
    case PoiTag(id) => "poi " + IntToString(id)
    case ResultsTag(n) => IntToString(n) + " results"
    case NotFoundTag => "not found"
  }

  /** The outcome `process_query` logs for its result list. */
  function QueryTag(pois: seq<Search.PoiId>): (t: Tag)
    ensures t.PoiTag? <==> |pois| == 1
    ensures t.PoiTag? ==> t.id == pois[0]
    ensures t.ResultsTag? <==> |pois| > 1
    ensures t.ResultsTag? ==> t.count == |pois|
    ensures t == NotFoundTag <==> pois == []
  {
    if |pois| == 1 then PoiTag(pois[0])
    else if |pois| > 1 then ResultsTag(|pois|)
    else NotFoundTag
  }

  /** One log row: date, trimmed text, tokens joined by spaces (`None` when there are none), outcome. */
  datatype LogRow = LogRow(date: string, text: string, tokens: Option<string>, result: string)

  /** The row `write_search_log` writes; `date` is the message date already formatted as YYYY-MM-DD. */
  function SearchRow(date: string, text: string, tokens: seq<string>, tag: Tag): LogRow {
    LogRow(date, Strip(text), if tokens == [] then None else Some(Join(tokens, " ")), TagText(tag))
  }

  lemma IntToStringStart(n: int)
    ensures |IntToString(n)| > 0
    ensures IntToString(n)[0] == '-' || IsDigit(IntToString(n)[0])
  {
    var m: nat := if n < 0 then -n else n;
    NatToStringDigits(m);
  }

  /** Distinct outcomes are logged as distinct texts, so a row's last field names its outcome. */
  lemma TagTextInjective(a: Tag, b: Tag)
    ensures TagText(a) == TagText(b) ==> a == b
  {
    if a.PoiTag? && b.PoiTag? {
      if a.id != b.id {
        IntToStringInjective(a.id, b.id);
        assert TagText(a)[4..] == IntToString(a.id);
        assert TagText(b)[4..] == IntToString(b.id);
      }
    } else if a.ResultsTag? && b.ResultsTag? {
      if a.count != b.count {
        IntToStringInjective(a.count, b.count);
        var s := " results";
        assert TagText(a)[..|TagText(a)| - |s|] == IntToString(a.count);
        assert TagText(b)[..|TagText(b)| - |s|] == IntToString(b.count);
      }
    } else if a != b {
      if a.PoiTag? { IntToStringStart(a.id); }
      if b.PoiTag? { IntToStringStart(b.id); }
      if a.ResultsTag? { IntToStringStart(a.count); }
      if b.ResultsTag? { IntToStringStart(b.count); }
      assert TagText(a)[0] != TagText(b)[0] || TagText(a)[1] != TagText(b)[1];
    }
  }
}
